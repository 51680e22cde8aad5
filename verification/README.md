# A verified model of distributed LLM inference over peer-to-peer nodes

The system splits the layers of a language model over peer-to-peer nodes. This project models its
state machines in Dafny and proves what they guarantee over every run.

- **Framed transport** (`Chunking`, `ConnectionBuffers`, `Transport*`, `OversizedFrames`). Two connection buffers, each
  with two priority queues, acks and a send window, are joined by two wires that may reorder but not lose or
  duplicate. The class `ConnectionBuffer` updates its queues and maps in place and is proved against functions on
  values; a link of two endpoints is shown to be two independent lanes (`TransportLane`), and the lane invariant
  gives delivery, window accounting, order within a class and progress.
- **Layer routing** (`RouteTables`, `Routing`, `BellmanFord`, `Convergence`, `RouteExpiry`). One table is a class with an array of
  per-layer maps; the network is tables, syncs in flight and clocks.
- **Session chain** (`Layers`, `LayerTraces`, `ModelServices`, `Rpc`, `Cluster*`, `LayerShares`). Workers exchange START, FORWARD and
  END hop by hop, with answers matched by number. Layers are arbitrary functions on a cache and an embedding. Any
  number of sessions interleave, a START sees whatever its router holds at that moment, and the usage hooks before and
  after a call may fail at any hop.
- **Usage accounting** (`UsageService`, `UsageRun`). Spending, earning and signed checkpoints along a chain, with a
  signature scheme as a parameter.
- **Registry** (`RegistryServer`, `LayerSelection`), **UDP demultiplexer** (`Demux`), **nucleus clamp** (`Nucleus`, over
  reals) and **stream reader** (`StreamReader`). `Sequences` and `Options` hold what several of them share.

Where the source changes things step by step the model is a class or a loop whose `ensures` equates the new state with
a function of the old one; what the source promises is then proved about those functions over runs (`IsRun`).

Where the code does not keep a property on every input, the exact condition is proved:

- A frame can be handed up whole exactly when it has fewer than 65536 chunks: the chunk count is cut to 16 bits
  (`OversizedFrames.DeliveredIntactIff`), and a larger one is not in any order of arrival (`NeverWhole`).
- Two-way traffic can stop for good: acks wait behind small data frames that do not fit the window
  (`TransportProgress.TwoWayCanStick`); it does so exactly when both ends are blocked this way (`StuckIff`).
- A tick sends a sync before it drops timed-out routes, so a dead route can circulate between nodes for ever although
  every table is empty right after its own tick (`RouteExpiry.RoutesCanCirculate`); a route can come back exactly when
  some non-terminal node still holds one or has one on its way to it (`DrainedIff`).
- FORWARD runs every layer a worker has loaded, not only the range its session pinned. What a session gets back is
  always what the chain of those stages computes (`ClusterTheorems.ForwardRefinesChain`); that is the whole model
  exactly when each working hop is entered at its first loaded layer (`StartedComputesIff`), and a START can pin a hop
  that is not (`ClusterExample.StartCanMisalign`).
- A checkpoint is overwritten without comparing counts, so earnings stay covered exactly when forwards arrive with
  counts that keep up (`UsageRun.OrderIff`).
- A hop without local work still reports a layer share, so shares add up to the remote layers plus exactly what such
  hops report (`LayerShares.SharesAreConserved`).
- Adding a user name or a task that is in use breaks the demultiplexer's maps (`Demux.AddKeepsInvIff`).
- A read into a destination without room discards queued messages (`StreamReader.StreamConservesIff`).
- Sampling after the nucleus clamp is defined exactly when some weight and `top_p` are positive
  (`Nucleus.DrawIsDefined`).

The comment on nucleus sampling speaks of the smallest set that *exceeds* `top_p`; the code stops when the sum *reaches*
it, and the model follows the code.

## Model

| member | source | states |
|---|---|---|
| `Chunking.ConcatChunks` | crates/p2p-network/src/node/remote_conn.rs:227-252 | the chunks of a frame, joined, are the frame; none is longer than the chunk size; there is one exactly when the frame fits |
| `Chunking.ChunksAreFull` | crates/p2p-network/src/node/remote_conn.rs:239-252 | every chunk of a frame but the last is full |
| `Chunking.GatherRestoresFrame` | crates/p2p-network/src/node/remote_conn.rs:273-285 | a reassembly map that holds every chunk under its number yields the frame, in whatever order the chunks came |
| `ConnectionBuffers.ConnectionBuffer.Push` | crates/p2p-network/src/node/remote_conn.rs:222-255 | a small frame goes whole behind the high-priority queue, a longer one behind the low one, cut into full chunks that carry its bytes in order under 16-bit numbers and count; sizes are recorded and the seed wraps around |
| `ConnectionBuffers.ConnectionBuffer.Receive` | crates/p2p-network/src/node/remote_conn.rs:257-306 | a data chunk puts its ack last in the high-priority queue and touches no record; a recorded ack strikes off exactly its chunk and takes its size out of the air, any other changes nothing |
| `ConnectionBuffers.ConnectionBuffer.Send` | crates/p2p-network/src/node/remote_conn.rs:308-327 | with the high queue before the low one, the first chunk goes out exactly when it fits beside what is in the air, and the rest stays queued; else nothing changes |
| `ConnectionBuffers.ConnectionBuffer.Take` | crates/p2p-network/src/node/remote_conn.rs:329-331 | frames leave in the order they were completed |
| `Transport.RunKeepsInv` | crates/p2p-network/src/node/remote_conn.rs:222-331 | after every event of every two-endpoint run both directions keep the lane invariant: each chunk is in exactly one place until acked, and the receiver holds exactly the chunks no longer pending |
| `TransportDelivery.DeliveryInEveryRun` | crates/p2p-network/src/node/remote_conn.rs:222-331 | for every interleaving and arrival order, in both directions, each pushed frame is handed up at most once and byte for byte, and the pushed frames are exactly the handed-up ones plus those with a chunk queued or on the wire |
| `TransportDelivery.WindowInEveryRun` | crates/p2p-network/src/node/remote_conn.rs:288-327 | in-air size is the total size of popped, unacked chunks and at most the limit; recorded sizes are in-air plus queued; every ack names a recorded, already popped chunk no larger than the in-air size, so the subtraction never underflows |
| `TransportDelivery.SendInEveryState` | crates/p2p-network/src/node/remote_conn.rs:308-327 | in every state of two ends, an end can send exactly when its first queued chunk fits, which then goes onto the wire |
| `TransportOrder.ClassOrderInEveryRun` | crates/p2p-network/src/node/remote_conn.rs:227-331 | over in-order wires, for single-chunk and for multi-chunk frames alike, the frames handed up are a prefix of those pushed |
| `TransportProgress.StuckIff` | crates/p2p-network/src/node/remote_conn.rs:257-327 | with empty wires and something queued or unacked, neither end can send exactly when both high-priority heads are single-chunk data frames that do not fit the window, each with an ack behind it |
| `TransportProgress.StepShrinks` | crates/p2p-network/src/node/remote_conn.rs:257-331 | every event but a push lowers a termination measure |
| `TransportProgress.RunsEnd` | crates/p2p-network/src/node/remote_conn.rs:257-331 | a run without pushes is no longer than that measure |
| `TransportProgress.QuiescentIff` | crates/p2p-network/src/node/remote_conn.rs:257-331 | where only pushes are possible, everything is delivered, acked and cleared unless both ends are blocked |
| `TransportProgress.OneWayDelivers` | crates/p2p-network/src/node/remote_conn.rs:257-331 | with one-way traffic every maximal run ends with all frames delivered, nothing recorded and an in-air size of 0 |
| `TransportProgress.TwoWayCanStick` | crates/p2p-network/src/node/remote_conn.rs:262-318 | a concrete two-way run that ends with both ends blocked and frames undelivered |
| `OversizedFrames.DeliveredIntactIff` | crates/p2p-network/src/node/remote_conn.rs:239-285 | a frame received in order comes out whole, once and with nothing left over exactly when it has fewer than 65536 chunks |
| `OversizedFrames.NeverWhole` | crates/p2p-network/src/node/remote_conn.rs:239-285 | a frame of 65536 chunks or more is never handed up whole, whatever chunks of it arrive and in whatever order |
| `OversizedFrames.OversizedExample` | crates/p2p-network/src/node/remote_conn.rs:240-285 | 65536 bytes in chunks of one byte are such a frame, and nothing of it is ever handed up |
| `RouteTables.RouteTable.OnTick` | crates/model-router/src/table.rs:80-89 | each layer keeps exactly the entries not timed out, unchanged, and a cheapest of them as next hop |
| `RouteTables.RouteTable.OnDisconnected` | crates/model-router/src/table.rs:91-97 | each layer loses exactly the node's entry, keeps all others unchanged, and keeps a cheapest next hop |
| `RouteTables.RouteTable.ApplySync` | crates/model-router/src/table.rs:113-125 | each layer holds of the sender exactly what the sync says, its cost plus the round trip and its time, or nothing; all other entries stay, and the next hop is a cheapest one |
| `RouteTables.RouteTable.Select` | crates/model-router/src/table.rs:127-149 | the local piece runs to the end of the node's range; the hop is the cached one for the layer after it |
| `RouteTables.RouteTable.CreateSyncMessage` | crates/model-router/src/table.rs:99-109 | one advert per layer: the route's cost and its terminal time, or the present time at a terminal node |
| `RouteTables.UpdateBest` | crates/model-router/src/table.rs:169-173 | the search returns a stored entry of minimum cost, and none exactly when nothing is stored |
| `RouteTables.CachedHopInEveryRun` | crates/model-router/src/table.rs:80-125 | after any updates each next hop is a cheapest stored entry and absent exactly without entries; a tick leaves exactly the live entries, a disconnect all but the node's |
| `Routing.RouteIsOptimal` | crates/model-router/src/table.rs:99-149 | at agreement the cost is the minimum over all greedy walks, and there is no route exactly when there is no walk |
| `Routing.ReadyIff` | crates/model-router/src/table.rs:76-78 | at agreement a node is ready exactly when some greedy walk leads from layer 0 to the end |
| `Routing.WalkBoundsCost` | crates/model-router/src/table.rs:99-149 | no greedy walk is cheaper than the table says |
| `Routing.RouteIsWalk` | crates/model-router/src/table.rs:127-149 | the hops `select_next` gives, followed to the end, are a greedy walk of exactly the advertised cost |
| `Routing.HopLowersCost` | crates/model-router/src/table.rs:113-149 | each hop leads to a neighbour whose own cost is lower by exactly the round trip |
| `Routing.Pieces` | crates/model-router/src/table.rs:127-149 | the local pieces along a route partition the layers from the start to the end of the model |
| `BellmanFord.RoundsAreBellmanFord` | crates/model-router/src/table.rs:99-172 | from fresh tables, after k lossless rounds in any order of hearing, each cost is exactly the minimum over greedy walks of at most k hops, for every k |
| `BellmanFord.RoundsBound` | crates/model-router/src/table.rs:99-172 | no walk of at most k hops is cheaper than the cost after k rounds |
| `BellmanFord.RoundsReach` | crates/model-router/src/table.rs:99-172 | that cost is the cost of some walk of at most k hops |
| `BellmanFord.StableRoundAgrees` | crates/model-router/src/table.rs:99-172 | tables a round no longer changes agree with each other, so the optimality results apply |
| `Convergence.WithoutLoops` | crates/model-router/src/table.rs:99-149 | a greedy walk without its loops is a greedy walk, visits no node twice for the same layer, and is no dearer |
| `Convergence.RoundsConverge` | crates/model-router/src/table.rs:99-172 | after as many lossless rounds as nodes times layers every cost is the minimum over all greedy walks |
| `Convergence.RoundsReachAgreement` | crates/model-router/src/table.rs:99-172 | one round later all tables agree, so following them is optimal from then on |
| `RouteExpiry.TimesInEveryRun` | crates/model-router/src/table.rs:99-125 | every timestamp stored or in flight is a time at which some terminal node built a sync |
| `RouteExpiry.TickEmptiesTable` | crates/worker/src/communication.rs:90-100 | if terminal nodes built nothing after T, a tick at or after T plus the timeout leaves that table empty |
| `RouteExpiry.HeardIsHeld` | crates/model-router/src/table.rs:113-125 | a sync's route is stored with the sync's own time, whether or not the sender was known before |
| `RouteExpiry.RouteStaysHeld` | crates/model-router/src/table.rs:80-125 | a route heard with some time is still held through any ticks before that time plus the timeout, unless its sender withdraws it, sends an older one after it, or disconnects |
| `RouteExpiry.DrainedForever` | crates/worker/src/communication.rs:90-145 | with silent terminal nodes, once no other node holds a route or has one coming, that stays so |
| `RouteExpiry.NeverReadyAgain` | crates/model-router/src/table.rs:76-78 | and no non-terminal node is ready again |
| `RouteExpiry.DrainedIff` | crates/worker/src/communication.rs:90-129 | a route can be held by a non-terminal node now or after one more delivery exactly when the network is not drained |
| `RouteExpiry.RoutesCanCirculate` | crates/worker/src/communication.rs:90-100 | for every number of turns and all tick times past the timeout, two nodes without layers pass a dead route back and forth, its cost growing |
| `RouteExpiry.StaleIsReachable` | crates/worker/src/communication.rs:90-129 | that state arises from fresh tables |
| `RouteExpiry.StaleIsReady` | crates/model-router/src/table.rs:76-78 | the node that holds the dead route reports ready |
| `Layers.RunSplit` | crates/models/src/llama/internal/mod.rs:415-419 | running layers in two pieces gives the caches and the embedding of running them in one |
| `LayerTraces.RunTakes` | crates/models/src/phi3/layers_worker.rs:107 | running layers is one application of layer lo, lo + 1, ... each, to the caches in order, each taking the embedding the one before gave |
| `LayerTraces.WholeRunIsModelRun` | crates/models/src/llama/internal/mod.rs:415-419 | a whole model's outputs are those of layers 0, 1, ... applied once each to every input, from initial caches on |
| `LayerTraces.ChainRunIsTraced` | crates/worker/src/model_service.rs:201-208 | a chain's outputs are those of stages that each apply, in order, the layers they have loaded |
| `Layers.AlignmentSuffices` | crates/models/src/phi3/layers_worker.rs:107 | a covering chain whose working stages are entered at their first loaded layer holds the whole model's caches and gives its outputs, whatever the model and the inputs |
| `Layers.AlignmentIff` | crates/worker/src/model_service.rs:201-208 | for a model that counts its layers, and any inputs at all, a covering stateful chain gives the whole model's outputs exactly when it is so aligned |
| `ModelServices.ModelService.StartSession` | crates/worker/src/model_service.rs:126-199 | sessions, caches and the outgoing request or answer of one START; a failing hook, no route and a cache failure are error answers, each leaving behind exactly what was done before it |
| `ModelServices.ModelService.ForwardSession` | crates/worker/src/model_service.rs:201-272 | the layer loop applies each loaded layer once, in order, from the first loaded on, to the session's caches; the result goes to the pinned next hop or back; a missing session or a failing hook is refused and changes nothing |
| `ModelServices.ModelService.EndSession` | crates/worker/src/model_service.rs:274-319 | the session is gone, and unless the hook fails its caches too where there was local work; END goes on to the pinned next hop; an unknown session is refused |
| `ModelServices.PostLaw` | crates/contract/src/lib.rs:113-199 | the hook on the way back adds exactly the worker's share to a START's lists, can fail a START at the root and an END, and leaves a FORWARD's answer alone |
| `Rpc.RpcClient.Request` | crates/worker/src/rpc.rs:50-56 | the number drawn has no waiter yet and gets exactly this one |
| `Rpc.RpcClient.OnRes` | crates/worker/src/rpc.rs:44-48 | the waiter under the number is taken out; an unknown number changes nothing |
| `ClusterRun.RunKeepsInv` | crates/worker/src/model_service.rs:126-319 | every event of every interleaving keeps the session, cache, waiter and message invariant of all sessions |
| `ClusterRun.StepTouches` | crates/worker/src/model_service.rs:126-319 | an event of one session leaves sessions, caches, waiters and messages of the others as they were |
| `ClusterEnd.AnswerFindsCaller` | crates/worker/src/rpc.rs:44-56 | the waiter under an answer's number is the caller suspended for that very session |
| `ClusterTheorems.StartCoversModel` | crates/worker/src/model_service.rs:126-199 | whatever the routers held, the pieces pinned by a successful START partition all layers in order and no node works twice |
| `ClusterTheorems.StartedStagesLead` | crates/worker/src/model_service.rs:126-208 | the hops of a started session are a covering chain in the sense of `Layers` |
| `ClusterTheorems.ForwardRefinesChain` | crates/worker/src/model_service.rs:201-272 | in every run, aligned or not, under any interleaving, failing hooks and router changes, the outputs a session got back are those of one stateful chain of the loaded stages its START pinned, down to single layer applications |
| `ClusterTheorems.ForwardRefinesWholeModel` | crates/worker/src/model_service.rs:201-272 | and where the pinned stages are aligned they are those of one stateful whole model: layers 0, 1, ... applied once each to every input |
| `ClusterTheorems.StartedComputesIff` | crates/worker/src/model_service.rs:201-208 | the stages pinned by any successful START compute the whole counting model exactly when they are aligned |
| `ClusterExample.StartCanMisalign` | crates/worker/src/model_service.rs:126-208 | a concrete run in which START succeeds with a hop entered past its first loaded layer, five layers are run of four, and a relay adds a share of two layers it does not run |
| `ClusterProgress.NothingPanics` | crates/worker/src/model_service.rs:126-319 | in every run each request that reaches a node finds its caches and a layer within the model, each answer its caller, and each idle session its first hop ready |
| `ClusterProgress.CallsComplete` | crates/worker/src/model_service.rs:201-319 | a FORWARD or END under way can always go on, amid events of others, and is over after fewer own events than twice its hops |
| `ClusterSuccess.FineCallsSucceed` | crates/worker/src/model_service.rs:126-319 | amid any events of others, a call that no hook, missing route or cache failure refuses succeeds: START leaves the session idle, FORWARD brings exactly one more output, END ends it |
| `ClusterTheorems.IdleIsHeld` | crates/worker/src/model_service.rs:137-155 | between calls a session is held at exactly its hops and its caches at exactly the working ones |
| `ClusterTheorems.EndedIsGone` | crates/worker/src/model_service.rs:274-319 | after END nothing of the session is left at any worker, whatever other sessions did |
| `ClusterTheorems.OwnStepsOnly` | crates/worker/src/model_service.rs:126-319 | a stretch of one session's events leaves everything of other sessions unchanged |
| `ClusterTheorems.EndUndoesStartAmidOthers` | crates/worker/src/model_service.rs:126-319 | amid any events of other sessions, a session from before its START until after its END changes at each worker only what belongs to it, and of that nothing was there and nothing is left |
| `ClusterTheorems.EndUndoesStart` | crates/worker/src/model_service.rs:126-319 | with no other events between, every worker is in the end exactly as it was |
| `LayerShares.SharesAreConserved` | crates/contract/src/lib.rs:113-151 | the lists the root gets back from any successful START of any run have one address and count per remote hop, tail first; the counts less one add up to the remote layers plus what hops without local work add |
| `LayerShares.WorkingSharesAddUp` | crates/contract/src/lib.rs:131-137 | where every remote hop works, each count got back is the hop's number of layers plus one and the counts less one add up to the layers from the first remote hop on |
| `UsageService.OnChainService.PreForwardRoot` | crates/contract/src/lib.rs:201-221 | spending of the chat, and in total, grows by one and the new count goes out signed |
| `UsageService.OnChainService.PreForwardWorker` | crates/contract/src/lib.rs:222-236 | accepted exactly when the signature verifies for the count under the stored key; then the checkpoint is stored and earning grows by one, else nothing changes |
| `UsageService.OnChainService.PreEndRoot` | crates/contract/src/lib.rs:153-172 | the chat leaves the spending counts, and the total falls by exactly its count |
| `UsageService.OnChainService.PostEndWorker` | crates/contract/src/lib.rs:174-199 | the chat leaves the earning counts, the total falls by exactly what is claimed, and the stored checkpoint goes with the claim |
| `UsageService.OnChainService.EarningTokenCount` | crates/contract/src/storage.rs:27-29 | the loop over all chats is the total |
| `UsageService.TotalMoves` | crates/contract/src/storage.rs:14-29 | counting tokens moves the total by as many; finishing a chat takes out exactly its count |
| `UsageRun.RunKeepsInv` | crates/contract/src/lib.rs:153-237 | every event keeps each worker's earning equal to what was sent less what was lost before it |
| `UsageRun.AccountsInEveryRun` | crates/contract/src/lib.rs:201-237 | in every run earning <= stored checkpoint <= root spending at every worker, and earnings never grow down the chain |
| `UsageRun.ClaimsAreBacked` | crates/contract/src/lib.rs:174-199 | a claim never exceeds the count its signature verifies, and is exactly that count when no FORWARD was lost before the worker |
| `UsageRun.HonestIsTaken` | crates/contract/src/lib.rs:222-236 | in every run a forward that reaches a worker of its chain is taken: no honest checkpoint is turned away |
| `UsageRun.EndedIsSettled` | crates/contract/src/lib.rs:153-199 | in every run a worker that has claimed no longer counts the chat, nor the root once it has ended it; when all have claimed it is in no node's counts |
| `UsageRun.OrderIff` | crates/contract/src/validator.rs:33-40 | earning stays within the stored count after every forward exactly when the j-th to arrive carries at least j |
| `RegistryServer.SessionManager.GetDistribution` | crates/registry/src/server/session_manager.rs:37-59 | one count per layer up to the largest end given: the number of nodes whose range contains the layer |
| `RegistryServer.SessionManager.MaxLayer` | crates/registry/src/server/session_manager.rs:38-45 | the largest end any node has given, in whatever order they are visited |
| `RegistryServer.CountRange` | crates/registry/src/server/session_manager.rs:53-55 | exactly the layers of the range are counted once more |
| `LayerSelection.SumInWindow` | crates/registry/src/client/layers_selection.rs:49-63 | one entry per window position, each the sum over that window |
| `LayerSelection.SelectLayers` | crates/registry/src/client/layers_selection.rs:19-47 | too few layers exactly when fewer than the shortest window with every unserved layer, whose length is reported; otherwise the leftmost of the lightest windows of the asked length; the window sum's assertion is hit exactly for no layers of a fully served, non-empty model |
| `LayerSelection.WindowIsLoad` | crates/registry/src/client/layers_selection.rs:49-63 | the counts in a window add up to the overlaps of all nodes' ranges with it |
| `LayerSelection.SuggestionIsLightest` | crates/registry/src/client/layers_selection.rs:38-46 | the range chosen overlaps the registered ranges least and is the leftmost to do so |
| `LayerSelection.UnservedIff` | crates/registry/src/server/session_manager.rs:51-58 | an entry is zero exactly when no node serves the layer |
| `Demux.SharedUdpPort.Remove` | crates/p2p-network/src/shared_port.rs:30-40 | the removal with its early returns, the loop taking out exactly the listed remotes |
| `Demux.SharedUdpPort.Map` | crates/p2p-network/src/shared_port.rs:42-55 | a known remote gets its task and changes nothing; an unknown one gets the task its packet's user is registered for, and is mapped, or nothing |
| `Demux.AddKeepsInvIff` | crates/p2p-network/src/shared_port.rs:24-28 | adding keeps the maps inverse exactly when the pair is new on both sides or already there |
| `Demux.RemoveTakesExactly` | crates/p2p-network/src/shared_port.rs:30-40 | removing takes out of all four maps exactly what mentions the task, and says whether it had remotes |
| `Demux.RunKeepsInv` | crates/p2p-network/src/shared_port.rs:24-55 | in every run the user-name maps are mutual inverses, the remote map is the inverse of duplicate-free disjoint lists, listed tasks are registered, and after a removal nothing mentions the task |
| `Demux.MappedRemotesEarnedIt` | crates/p2p-network/src/shared_port.rs:42-55 | a mapped remote once sent a packet naming its task by the user name the task still has, and the task has not been removed since |
| `Demux.AnswerStays` | crates/p2p-network/src/shared_port.rs:42-55 | in every run, once a packet of a remote got a task, every later packet of it gets the same until the task is removed |
| `Demux.RemoveUndoesAdd` | crates/p2p-network/src/shared_port.rs:24-55 | a task added, reached by any packets that name it and removed leaves the port as it was |
| `Nucleus.ArgsortIsUnique` | crates/models/src/logits_processor.rs:59-62 | any stable descending order of the indices is the one used |
| `Nucleus.ClampTail` | crates/models/src/logits_processor.rs:58-72 | the in-place loop keeps the weights of the kept indices and zeroes the others |
| `Nucleus.KeptIsHeaviest` | crates/models/src/logits_processor.rs:64-72 | every kept index comes before every clamped one in the order, with its weight unchanged |
| `Nucleus.KeptIsSmallest` | crates/models/src/logits_processor.rs:64-72 | for weights of either sign, if any set of indices reaches top_p the kept ones do and no smaller set does |
| `Nucleus.NucleusIsSmallest` | crates/models/src/logits_processor.rs:55-72 | for non-negative weights the kept set reaches top_p exactly when the total does and is then of least size; otherwise nothing is clamped |
| `Nucleus.DrawIsDefined` | crates/models/src/logits_processor.rs:64-74 | what is left weighs what the kept indices weighed, and is positive exactly when the total and top_p are |
| `StreamReader.AsyncReadRx.Read` | crates/openai-http/src/api_chat.rs:37-80 | the poll loop, which ends, computes the new state, the outcome and the bytes copied |
| `StreamReader.RoomConserves` | crates/openai-http/src/api_chat.rs:39-80 | with room: bytes read, then the rest, are the rest before; as much is read as the first message with bytes and the room allow; pending exactly when nothing is left and the channel is open |
| `StreamReader.PollConservesIff` | crates/openai-http/src/api_chat.rs:41-70 | a poll conserves bytes exactly when there is room or nothing would be overwritten, and else loses some |
| `StreamReader.StreamConservesIff` | crates/openai-http/src/api_chat.rs:36-80 | in every run delivered bytes, then the rest, are all bytes sent exactly when every read met that condition |
| `StreamReader.EndOfStream` | crates/openai-http/src/api_chat.rs:66-78 | with room in every read the end is reported exactly when the channel is closed and every byte sent was delivered |

## Left out

- Transport.RunKeepsInv: runs push frames of fewer than 65536 chunks and fewer than 2 to the 32nd frames per end; larger frames are the subject of `OversizedFrames`, and reuse of frame numbers after a wrap-around is not modelled.
- OversizedFrames.DeliveredIntactIff: takes the chunks in the order sent; for every other order, `TransportDelivery.DeliveryInEveryRun` covers smaller frames and `OversizedFrames.NeverWhole` larger ones.
- UsageRun.AccountsInEveryRun: a chat has one FORWARD at a time, as the root issues them, and runs over distinct nodes.
- ClusterTheorems.ForwardRefinesChain: chat numbers are the root's session ids and session ids are fresh; an RPC message may be lost for good, but a call that gives up while its answer is still on the way is not modelled, and after a failed call nothing more is asked of the session.
- ModelServices.ModelService.StartSession: a failed START answers with empty metadata, which the hook of the hop before cannot parse, so that its task panics; the model passes the failure on, as the pass-through usage service does.
- ClusterTheorems.EndUndoesStart: for sessions whose calls succeeded; a failed START, or an END whose hook fails, leaves sessions or caches behind, as the code does.
- RouteTables.UpdateBest: ties are resolved by hash-map order in the source; the contract says some minimum.
- The bincode encoding itself: a data chunk's air size is its fixed 20-byte header plus its data, and malformed packets, which are dropped unread, do not occur.
- Widths of costs, timestamps, sequence numbers and token counts: unbounded naturals, except the 16-bit and 32-bit casts in the transport and the 32-bit layer share.
- Statistics counters and log lines.
- Messages the registry queues for its nodes, and its relay and statistics events: they do not touch the counts.
- Coverage of all unserved layers by the suggested window: the code does not promise it.
- Removal of checkpoints and root keys at END: the code keeps them.
- RNG and weighted sampling, top-k selection, NaN and rounding: the clamp is modelled over reals up to the draw.
- Tensor arithmetic, model loading, tokenizer and token output stream.
- `RemoteConn`, ICE and STUN parsing, websockets, HTTP handlers, the on-chain client and contract, the desktop application.
