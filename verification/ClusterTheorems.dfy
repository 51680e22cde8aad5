/** What holds of every session in every run of a cluster. */
module ClusterTheorems {
  import opened RouteTables
  import opened Layers
  import opened LayerTraces
  import opened ModelServices
  import opened Cluster
  import opened ClusterInv
  import opened ClusterFrame
  import opened ClusterEnd
  import opened ClusterRun
  import Routing

  /** START has succeeded for this session, and no call has failed since. */
  predicate Started(ch: Chain) {
    ch.phase.Idle? || ch.phase.Forwarding? || ch.phase.Ending? || ch.phase.Ended?
  }

  // ---------- START ----------

  /** The local pieces of the hops, in chain order. */
  function PiecesOf(hops: seq<Pin>): seq<Range> {
    if hops == [] then []
    else (if hops[0].local.Some? then [hops[0].local.value] else []) + PiecesOf(hops[1..])
  }

  lemma {:induction false} PiecesPartition(m: LayerModel, c: State, ch: Chain, i: nat)
    requires Linked(m, c, ch) && i < |ch.hops|
    ensures Routing.Partition(PiecesOf(ch.hops[i..]), ch.hops[i].from, OutLayer(ch.hops[|ch.hops| - 1]))
    decreases |ch.hops| - i
  {
    var rest := ch.hops[i..];
    assert PinOk(m, c, ch.hops[i]);
    if i + 1 < |ch.hops| {
      PiecesPartition(m, c, ch, i + 1);
      assert rest[1..] == ch.hops[i + 1..];
      assert ch.hops[i + 1].from == OutLayer(ch.hops[i]);
    } else {
      assert rest[1..] == [];
    }
    if ch.hops[i].local.Some? {
      assert PiecesOf(rest)[1..] == PiecesOf(rest[1..]);
    } else {
      assert PiecesOf(rest) == PiecesOf(rest[1..]);
    }
  }

  lemma {:induction false} LayersGrow(m: LayerModel, c: State, ch: Chain, i: nat, j: nat)
    requires Linked(m, c, ch) && i < j < |ch.hops|
    ensures OutLayer(ch.hops[i]) <= ch.hops[j].from
    decreases j
  {
    if i + 1 < j {
      LayersGrow(m, c, ch, i, j - 1);
      assert PinOk(m, c, ch.hops[j - 1]);
    }
  }

  lemma WorksOnce(m: LayerModel, c: State, ch: Chain, i: nat, j: nat)
    requires Linked(m, c, ch) && i < j < |ch.hops| && ch.hops[i].local.Some? && ch.hops[j].local.Some?
    ensures ch.hops[i].node != ch.hops[j].node
  {
    LayersGrow(m, c, ch, i, j);
    assert PinOk(m, c, ch.hops[i]) && PinOk(m, c, ch.hops[j]);
  }

  /** Whatever the routers held, a started session covers every layer once, in order, and no node works twice. */
  lemma StartCoversModel(m: LayerModel, es: seq<Event>, states: seq<State>, n: nat, root: Sid)
    requires IsRun(m, es, states) && Fresh(m, states[0]) && n < |states|
    requires root in states[n].chains && Started(states[n].chains[root])
    ensures var ch := states[n].chains[root];
            && Routing.Partition(PiecesOf(ch.hops), 0, m.layers)
            && forall i, j :: 0 <= i < j < |ch.hops| && ch.hops[i].local.Some? && ch.hops[j].local.Some? ==>
                 ch.hops[i].node != ch.hops[j].node
  {
    hide Inv, IsRun, Fresh, PinOk, Gathered, OutputsMatch;
    RunChain(m, es, states, n, root);
    var c, ch := states[n], states[n].chains[root];
    PiecesPartition(m, c, ch, 0);
    assert ch.hops[0..] == ch.hops;
    forall i, j | 0 <= i < j < |ch.hops| && ch.hops[i].local.Some? && ch.hops[j].local.Some?
      ensures ch.hops[i].node != ch.hops[j].node
    {
      WorksOnce(m, c, ch, i, j);
    }
  }

  // ---------- FORWARD ----------

  lemma {:induction false} ReachIsFrom(m: LayerModel, c: State, ch: Chain, i: nat)
    requires Linked(m, c, ch) && i <= |ch.hops|
    ensures Reach(StagesOf(ch.hops), i) == if i < |ch.hops| then ch.hops[i].from else EntryOf(ch)
    decreases i
  {
    if i > 0 {
      ReachIsFrom(m, c, ch, i - 1);
      assert i < |ch.hops| ==> ch.hops[i].from == OutLayer(ch.hops[i - 1]);
      assert PinOk(m, c, ch.hops[i - 1]);
    }
  }

  /** The hops of a whole session are stages that lead through the model. */
  lemma StartedStagesLead(m: LayerModel, c: State, ch: Chain)
    requires Linked(m, c, ch) && Whole(m, ch)
    ensures StagesLead(StagesOf(ch.hops), m.layers)
  {
    hide Reach, Linked;
    var stages := StagesOf(ch.hops);
    ReachIsFrom(m, c, ch, |ch.hops|);
    forall i | 0 <= i < |stages|
      ensures LeadsOn(stages, i)
    {
      ReachIsFrom(m, c, ch, i);
      HopIsPinned(m, c, ch, i);
    }
  }

  lemma HopIsPinned(m: LayerModel, c: State, ch: Chain, i: nat)
    requires Linked(m, c, ch) && i < |ch.hops|
    ensures PinOk(m, c, ch.hops[i])
  {
  }

  /** What a run says of one session. */
  lemma RunChain(m: LayerModel, es: seq<Event>, states: seq<State>, n: nat, root: Sid)
    requires IsRun(m, es, states) && Fresh(m, states[0]) && n < |states| && root in states[n].chains
    ensures Inv(m, states[n])
    ensures var c, ch := states[n], states[n].chains[root];
            Linked(m, c, ch) && Shaped(m, ch) && Counted(ch) && OutputsMatch(m, ch)
  {
    hide Inv, IsRun, Fresh, Linked, Shaped, OutputsMatch, CachesMatch, MessageMatches, Owned, Pinned, Suspended,
         InFlight;
    RunKeepsInv(m, es, states, n);
    RootChain(m, states[n], root);
  }

  /**
   In every run, under any interleaving of any number of sessions, failing hooks and router changes, the outputs a
   session has got back are those of one stateful chain of the stages its START pinned, fed the same inputs.
   */
  lemma ForwardRefinesChain(m: LayerModel, es: seq<Event>, states: seq<State>, n: nat, root: Sid)
    requires IsRun(m, es, states) && Fresh(m, states[0]) && n < |states| && root in states[n].chains
    ensures var ch := states[n].chains[root];
            && |ch.outputs| <= |ch.inputs| && (ch.phase.Idle? ==> |ch.outputs| == |ch.inputs|)
            && (ch.inputs != [] ==> StagesLead(StagesOf(ch.hops), m.layers))
            && ch.outputs == ChainRun(m, StagesOf(ch.hops), ch.inputs[..|ch.outputs|]).1
            && IsChainRun(m, StagesOf(ch.hops), ch.inputs[..|ch.outputs|], ch.outputs)
  {
    hide Inv, IsRun, Fresh, Linked, Gathered, ChainRun, StagesLead, Whole, IsChainRun;
    RunChain(m, es, states, n, root);
    var ch := states[n].chains[root];
    ChainRunIsTraced(m, StagesOf(ch.hops), ch.inputs[..|ch.outputs|]);
    if ch.inputs != [] {
      StartedStagesLead(m, states[n], ch);
    }
  }

  /** Provided each working hop was entered at its first loaded layer, they are those of one stateful whole model. */
  lemma ForwardRefinesWholeModel(m: LayerModel, es: seq<Event>, states: seq<State>, n: nat, root: Sid)
    requires IsRun(m, es, states) && Fresh(m, states[0]) && n < |states| && root in states[n].chains
    requires Aligned(StagesOf(states[n].chains[root].hops))
    ensures var ch := states[n].chains[root];
            && |ch.outputs| <= |ch.inputs| && ch.outputs == WholeRun(m, ch.inputs[..|ch.outputs|]).1
            && IsModelRun(m, ch.inputs[..|ch.outputs|], ch.outputs)
  {
    hide IsRun, Fresh, StagesLead, Aligned, IsChainRun, IsModelRun;
    ForwardRefinesChain(m, es, states, n, root);
    var ch := states[n].chains[root];
    WholeRunIsModelRun(m, ch.inputs[..|ch.outputs|]);
    if ch.inputs != [] {
      AlignmentSuffices(m, StagesOf(ch.hops), ch.inputs[..|ch.outputs|]);
    }
  }

  /** And it is needed: the stages a START has pinned compute the whole counting model on no input unless aligned. */
  lemma StartedComputesIff(m: LayerModel, es: seq<Event>, states: seq<State>, n: nat, root: Sid, inputs: seq<(Pos,
                           int)>)
    requires IsRun(m, es, states) && Fresh(m, states[0]) && n < |states| && root in states[n].chains
    requires Started(states[n].chains[root]) && inputs != []
    ensures var stages := StagesOf(states[n].chains[root].hops);
            var counting := Counting(m.layers);
            ChainRun(counting, stages, inputs).1 == WholeRun(counting, inputs).1 <==> Aligned(stages)
  {
    hide Inv, IsRun, Fresh, Linked, Gathered, ChainRun, StagesLead, OutputsMatch, Whole;
    RunChain(m, es, states, n, root);
    StartedStagesLead(m, states[n], states[n].chains[root]);
    AlignmentIff(StagesOf(states[n].chains[root].hops), m.layers, inputs);
  }

  // ---------- END ----------

  /** Between calls a session is held at exactly its hops, and its caches at exactly the working ones. */
  lemma IdleIsHeld(m: LayerModel, es: seq<Event>, states: seq<State>, n: nat, root: Sid)
    requires IsRun(m, es, states) && Fresh(m, states[0]) && n < |states|
    requires root in states[n].chains && states[n].chains[root].phase.Idle?
    ensures var c, ch := states[n], states[n].chains[root];
            && (forall i :: 0 <= i < |ch.hops| ==> PinnedAt(c, root, ch, i))
            && (forall k, sid :: k in c.peers && Belongs(c, sid, root) ==>
                  var i := c.owner[sid].1;
                  && (sid in c.peers[k].worker.sessions <==>
                      i < |ch.hops| && ch.hops[i].node == k && ch.hops[i].sid == sid)
                  && (sid in c.peers[k].worker.caches <==>
                      i < |ch.hops| && ch.hops[i].node == k && ch.hops[i].sid == sid && ch.hops[i].local.Some?))
  {
    hide IsRun, Fresh, Inv, PinnedAt, RootPlaced;
    RunKeepsInv(m, es, states, n);
    var c, ch := states[n], states[n].chains[root];
    IdleIsPinned(m, c, root);
    RootIsPlaced(m, c, root);
    forall k, sid | k in c.peers && Belongs(c, sid, root)
      ensures sid in c.owner && var i := c.owner[sid].1;
              && (sid in c.peers[k].worker.sessions <==> i < |ch.hops| && ch.hops[i].node == k && ch.hops[i].sid == sid)
              && (sid in c.peers[k].worker.caches <==>
                  i < |ch.hops| && ch.hops[i].node == k && ch.hops[i].sid == sid && ch.hops[i].local.Some?)
    {
      HeldWhereRecorded(c, root, k, sid);
    }
  }

  lemma IdleIsPinned(m: LayerModel, c: State, root: Sid)
    requires Inv(m, c) && root in c.chains && c.chains[root].phase.Idle?
    ensures forall i :: 0 <= i < |c.chains[root].hops| ==> PinnedAt(c, root, c.chains[root], i)
  {
    hide ValuesMatch, Linked, Suspended, Shaped, InFlight, Inv, PinnedAt, Gathered;
    RootChain(m, c, root);
  }

  lemma HeldWhereRecorded(c: State, root: Sid, k: Node, sid: Sid)
    requires root in c.chains && k in c.peers && Belongs(c, sid, root) && RootPlaced(c, root)
    requires forall i :: 0 <= i < |c.chains[root].hops| ==> PinnedAt(c, root, c.chains[root], i)
    ensures var ch, i := c.chains[root], c.owner[sid].1;
            && (sid in c.peers[k].worker.sessions <==> i < |ch.hops| && ch.hops[i].node == k && ch.hops[i].sid == sid)
            && (sid in c.peers[k].worker.caches <==>
                i < |ch.hops| && ch.hops[i].node == k && ch.hops[i].sid == sid && ch.hops[i].local.Some?)
  {
    var ch, i := c.chains[root], c.owner[sid].1;
    if i < |ch.hops| {
      assert PinnedAt(c, root, ch, i);
    }
  }

  lemma EndedHoldsNothing(m: LayerModel, c: State, root: Sid, k: Node, sid: Sid)
    requires Inv(m, c) && root in c.chains && c.chains[root].phase.Ended? && k in c.peers && Belongs(c, sid, root)
    ensures sid !in c.peers[k].worker.sessions && sid !in c.peers[k].worker.caches
  {
    hide ChainInv;
  }

  /** Once a session has ended nothing of it is left at any worker, whatever the other sessions did meanwhile. */
  lemma EndedIsGone(m: LayerModel, es: seq<Event>, states: seq<State>, n: nat, root: Sid)
    requires IsRun(m, es, states) && Fresh(m, states[0]) && n < |states|
    requires root in states[n].chains && states[n].chains[root].phase.Ended?
    ensures forall k, sid :: k in states[n].peers && Belongs(states[n], sid, root) ==>
              sid !in states[n].peers[k].worker.sessions && sid !in states[n].peers[k].worker.caches
  {
    hide Inv, IsRun, Fresh;
    RunKeepsInv(m, es, states, n);
    forall k, sid | k in states[n].peers && Belongs(states[n], sid, root)
      ensures sid !in states[n].peers[k].worker.sessions && sid !in states[n].peers[k].worker.caches
    {
      EndedHoldsNothing(m, states[n], root, k, sid);
    }
  }

  /** Steps of one session leave what belongs to others as it was. */
  lemma {:induction false} OwnStepsOnly(m: LayerModel, es: seq<Event>, states: seq<State>, a: nat, b: nat, root: Sid)
    requires IsRun(m, es, states) && Fresh(m, states[0]) && a <= b < |states|
    requires forall i :: a <= i < b ==> RootOf(es[i]) == root
    ensures states[b].peers.Keys == states[a].peers.Keys
    ensures forall sid :: Belongs(states[a], sid, root) ==> Belongs(states[b], sid, root)
    ensures forall k, sid :: k in states[a].peers && !Belongs(states[b], sid, root) ==>
              SameAt(states[a].peers[k].worker, states[b].peers[k].worker, sid)
    ensures forall k :: k in states[a].peers ==> states[b].peers[k].worker.loaded == states[a].peers[k].worker.loaded
    decreases b
  {
    hide Inv, Step, Enabled, RootOk, Fresh, RpcKept, ChainInv;
    if a == b {
      forall k, sid | k in states[a].peers
        ensures SameAt(states[a].peers[k].worker, states[a].peers[k].worker, sid)
      {
        SameWorker(states[a].peers[k].worker, sid);
      }
    } else {
      OwnStepsOnly(m, es, states, a, b - 1, root);
      RunKeepsInv(m, es, states, b - 1);
      StepTouches(m, states[b - 1], es[b - 1]);
      forall k, sid | k in states[a].peers && !Belongs(states[b], sid, root)
        ensures SameAt(states[a].peers[k].worker, states[b].peers[k].worker, sid)
      {
        assert !Belongs(states[b - 1], sid, root);
      }
    }
  }

  /** A session id of a session not yet begun is nowhere. */
  lemma UnbegunIsNowhere(m: LayerModel, c: State, c': State, root: Sid, k: Node, sid: Sid)
    requires Inv(m, c) && root !in c.chains && k in c.peers
    requires Belongs(c', sid, root) && (sid in c.owner ==> sid in c'.owner && c'.owner[sid] == c.owner[sid])
    ensures sid !in c.peers[k].worker.sessions && sid !in c.peers[k].worker.caches
  {
    hide ChainInv;
    OwnerIsKnown(m, c, sid);
  }

  lemma {:induction false} OwnersStay(m: LayerModel, es: seq<Event>, states: seq<State>, a: nat, b: nat, sid: Sid)
    requires IsRun(m, es, states) && Fresh(m, states[0]) && a <= b < |states| && sid in states[a].owner
    ensures sid in states[b].owner && states[b].owner[sid] == states[a].owner[sid]
    decreases b
  {
    hide Inv, Step, Enabled, RootOk, Fresh, RpcKept, SameAt;
    if a < b {
      OwnersStay(m, es, states, a, b - 1, sid);
      RunKeepsInv(m, es, states, b - 1);
      StepTouches(m, states[b - 1], es[b - 1]);
    }
  }

  /**
   END undoes START, amid any events of other sessions: from before a session begins until it has ended, each of its
   own events changes at each worker only what belongs to it, and of that nothing was there and nothing is left.
   */
  lemma EndUndoesStartAmidOthers(m: LayerModel, es: seq<Event>, states: seq<State>, a: nat, b: nat, root: Sid)
    requires IsRun(m, es, states) && Fresh(m, states[0]) && a <= b < |states|
    requires root !in states[a].chains && root in states[b].chains && states[b].chains[root].phase.Ended?
    ensures forall k, sid :: k in states[a].peers && Belongs(states[b], sid, root) ==>
              sid !in states[a].peers[k].worker.sessions && sid !in states[a].peers[k].worker.caches
    ensures forall k, sid :: k in states[b].peers && Belongs(states[b], sid, root) ==>
              sid !in states[b].peers[k].worker.sessions && sid !in states[b].peers[k].worker.caches
    ensures forall i :: a <= i < b && RootOf(es[i]) == root ==> OnlyOwn(states[i], states[i + 1], root)
  {
    hide Fresh, Inv, OnlyOwn, Step, Enabled;
    RunKeepsInv(m, es, states, a);
    forall k, sid | k in states[a].peers && Belongs(states[b], sid, root)
      ensures sid !in states[a].peers[k].worker.sessions && sid !in states[a].peers[k].worker.caches
    {
      if sid in states[a].owner {
        OwnersStay(m, es, states, a, b, sid);
      }
      UnbegunIsNowhere(m, states[a], states[b], root, k, sid);
    }
    EndedIsGone(m, es, states, b, root);
    forall i | a <= i < b && RootOf(es[i]) == root
      ensures OnlyOwn(states[i], states[i + 1], root)
    {
      StepIsOwn(m, es, states, i);
    }
  }

  /** At every worker all but what belongs to the session is as it was. */
  ghost predicate OnlyOwn(c: State, c': State, root: Sid) {
    && c'.peers.Keys == c.peers.Keys
    && forall k, sid :: k in c.peers && !Belongs(c', sid, root) ==> SameAt(c.peers[k].worker, c'.peers[k].worker, sid)
  }

  lemma StepIsOwn(m: LayerModel, es: seq<Event>, states: seq<State>, i: nat)
    requires IsRun(m, es, states) && Fresh(m, states[0]) && i < |es|
    ensures OnlyOwn(states[i], states[i + 1], RootOf(es[i]))
  {
    hide Inv, Step, Enabled, RootOk, Fresh, RpcKept, SameAt;
    RunKeepsInv(m, es, states, i);
    StepTouches(m, states[i], es[i]);
  }

  /**
   Without events of others between, every worker is in the end exactly as it was.
   */
  lemma EndUndoesStart(m: LayerModel, es: seq<Event>, states: seq<State>, a: nat, b: nat, root: Sid)
    requires IsRun(m, es, states) && Fresh(m, states[0]) && a <= b < |states|
    requires root !in states[a].chains && root in states[b].chains && states[b].chains[root].phase.Ended?
    requires forall i :: a <= i < b ==> RootOf(es[i]) == root
    ensures states[b].peers.Keys == states[a].peers.Keys
    ensures forall k :: k in states[a].peers ==> states[b].peers[k].worker == states[a].peers[k].worker
  {
    OwnStepsOnly(m, es, states, a, b, root);
    RunKeepsInv(m, es, states, a);
    RunKeepsInv(m, es, states, b);
    forall k | k in states[a].peers
      ensures states[b].peers[k].worker == states[a].peers[k].worker
    {
      var w, w' := states[a].peers[k].worker, states[b].peers[k].worker;
      forall sid
        ensures SameAt(w, w', sid)
      {
        if Belongs(states[b], sid, root) {
          EndedHoldsNothing(m, states[b], root, k, sid);
          if sid in states[a].owner {
            OwnersStay(m, es, states, a, b, sid);
          }
          UnbegunIsNowhere(m, states[a], states[b], root, k, sid);
        }
      }
      SameEverywhere(w, w');
    }
  }

  lemma SameEverywhere(w: Worker<Cache>, w': Worker<Cache>)
    requires w'.loaded == w.loaded && forall sid :: SameAt(w, w', sid)
    ensures w' == w
  {
    forall sid
      ensures sid in w.sessions <==> sid in w'.sessions
      ensures sid in w.sessions ==> w'.sessions[sid] == w.sessions[sid]
      ensures sid in w.caches <==> sid in w'.caches
      ensures sid in w.caches ==> w'.caches[sid] == w.caches[sid]
    {
      assert SameAt(w, w', sid);
    }
    assert w'.sessions == w.sessions && w'.caches == w.caches;
  }
}
