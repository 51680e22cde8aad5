/**
 A cluster of workers that exchange START, FORWARD and END requests hop by hop.  Every interleaving of the
 calls of any number of sessions is a run; routers may hold anything at any time.
 */
module Cluster {
  import opened Options
  import opened RouteTables
  import opened Layers
  import opened ModelServices
  import opened Rpc

  /** What a layer remembers of a session, and what it computes on. */
  type Cache(!new)
  type Tensor(!new, ==)

  type LayerModel = Model<Cache, Tensor>

  /** A call suspended at `node` until the answer to its request number `no` comes. */
  datatype Pending = Pending(node: Node, no: nat)

  /** The suspended task: the root session it works for, the call it will answer itself, and the request it serves. */
  datatype Waiter = Waiter(root: Sid, up: Option<Pending>, req: Body<Tensor>)

  datatype Peer = Peer(worker: Worker<Cache>, rpc: Waits<Waiter>)

  /** `root` is history: no handler looks at it. */
  datatype Msg =
    | Req(to: Node, from: Pending, sid: Sid, body: Body<Tensor>, root: Sid)
    | Res(dest: Pending, answer: Answer<Tensor>, root: Sid)

  /** History of one session: the hops pinned by its START, and what was asked of it and answered. */
  datatype Pin = Pin(node: Node, sid: Sid, from: nat, loaded: Range, local: Option<Range>)

  datatype Phase = Starting | Idle | Forwarding(pos: Pos, x: Tensor) | Ending | Ended | Failed

  datatype Chain = Chain(
    phase: Phase,
    hops: seq<Pin>,
    next: Option<(Node, Sid)>,        // the hop asked to start, while it has not
    path: seq<Pending>,               // the suspended calls, from the root on
    msg: Option<Msg>,                 // the message in flight for the current call
    shares: Shares,                   // the lists the START brought back to the root
    inputs: seq<(Pos, Tensor)>,
    outputs: seq<Tensor>)

  /** `owner` is history too: the session and the hop a session id was drawn for. */
  datatype State = State(peers: map<Node, Peer>, net: set<Msg>, chains: map<Sid, Chain>, owner: map<Sid, (Sid, nat)>)

  /** What a request meets at a node: the router's table, the layer worker's verdict, a fresh session id, the hooks. */
  datatype Choice = Choice(table: Table, cacheOk: bool, nextSid: Sid, hooks: Hooks)

  datatype Event =
    | BeginStart(root: Sid, node: Node, choice: Choice)
    | BeginForward(root: Sid, pos: Pos, x: Tensor, hooks: Hooks)
    | BeginEnd(root: Sid, hooks: Hooks)
    | Serve(msg: Msg, choice: Choice)
    | Resume(msg: Msg, post: bool)

  // ---------- plumbing ----------

  function WithWorker(c: State, n: Node, w: Worker<Cache>): State
    requires n in c.peers
  {
    c.(peers := c.peers[n := c.peers[n].(worker := w)])
  }

  function WithChain(c: State, root: Sid, ch: Chain): State {
    c.(chains := c.chains[root := ch])
  }

  function Finish(ch: Chain, a: Answer<Tensor>): Chain {
    var done := ch.(msg := None);
    match ch.phase
    case Starting => if a.ok then done.(phase := Idle, shares := a.shares) else done.(phase := Failed)
    case Forwarding(_, _) =>
      if a.ok && a.x.Some? then done.(phase := Idle, outputs := ch.outputs + [a.x.value]) else done.(phase := Failed)
    case Ending => done.(phase := if a.ok then Ended else Failed)
    case _ => done
  }

  /** An answer goes to whoever asked: up the chain, or back to the caller of the session. */
  function Answered(c: State, up: Option<Pending>, root: Sid, a: Answer<Tensor>): State
    requires root in c.chains
  {
    if up.None? then WithChain(c, root, Finish(c.chains[root], a))
    else
      var m := Res(up.value, a, root);
      WithChain(c, root, c.chains[root].(msg := Some(m))).(net := c.net + {m})
  }

  function Dispatch(c: State, n: Node, up: Option<Pending>, root: Sid, req: Body<Tensor>, out: Out<Tensor>): State
    requires n in c.peers && root in c.chains
  {
    match out
    case Reply(a) => Answered(c, up, root, a)
    case Call(dest, sid, body) =>
      var (rpc, q) := Issue(c.peers[n].rpc, Waiter(root, up, req));
      var m := Req(dest, Pending(n, q), sid, body, root);
      var ch := c.chains[root];
      State(c.peers[n := c.peers[n].(rpc := rpc)], c.net + {m},
            c.chains[root := ch.(path := ch.path + [Pending(n, q)], msg := Some(m))], c.owner)
  }

  // ---------- the handlers in place ----------

  predicate ChoiceOk(m: LayerModel, c: State, n: Node, choice: Choice) {
    && n in c.peers && choice.table.local == c.peers[n].worker.loaded
    && |choice.table.remote| == m.layers && choice.table.local.hi <= m.layers && choice.nextSid !in c.owner
  }

  /** START at a node for its session id `sid`; the hop is `from`'s place in the chain. */
  function StartHere(m: LayerModel, c: State, n: Node, sid: Sid, req: Body<Tensor>, choice: Choice, root: Sid)
    : (State, Out<Tensor>)
    requires ChoiceOk(m, c, n, choice) && root in c.chains && req.Start? && req.from < m.layers
  {
    var route := SelectNext(choice.table, req.from);
    var w0 := c.peers[n].worker;
    var (w, out) := OnStart(m, w0, n, sid, req.chat, req.from, req.index, route, choice.cacheOk, choice.nextSid,
                            choice.hooks);
    var c1 := WithWorker(c, n, w);
    if !choice.hooks.pre || route.None? then (c1, out)
    else
      var ch := c.chains[root];
      var hop := Pin(n, sid, req.from, w0.loaded, route.value.local);
      var next := if route.value.remote.Some? then Some((route.value.remote.value.dest, choice.nextSid)) else None;
      var owner := if next.Some? then c.owner[choice.nextSid := (root, |ch.hops| + 1)] else c.owner;
      (WithChain(c1, root, ch.(hops := ch.hops + [hop], next := next)).(owner := owner), out)
  }

  function ForwardHere(m: LayerModel, c: State, n: Node, sid: Sid, pos: Pos, x: Tensor, hooks: Hooks): (State,
                       Out<Tensor>)
    requires n in c.peers && CacheReady(c.peers[n].worker, sid)
  {
    var (w, out) := OnForward(m, c.peers[n].worker, sid, pos, x, hooks);
    (WithWorker(c, n, w), out)
  }

  function EndHere(c: State, n: Node, sid: Sid, hooks: Hooks): (State, Out<Tensor>)
    requires n in c.peers
  {
    var (w, out) := OnEnd(c.peers[n].worker, sid, hooks);
    (WithWorker(c, n, w), out)
  }

  // ---------- events ----------

  predicate Enabled(m: LayerModel, c: State, e: Event) {
    match e
    case BeginStart(root, n, choice) =>
      root !in c.owner && root !in c.chains && ChoiceOk(m, c, n, choice) && choice.nextSid != root && m.layers > 0
    case BeginForward(root, _, _, _) =>
      && root in c.chains && c.chains[root].phase.Idle? && c.chains[root].hops != []
      && var h := c.chains[root].hops[0]; h.node in c.peers && CacheReady(c.peers[h.node].worker, h.sid)
    case BeginEnd(root, _) =>
      && root in c.chains && c.chains[root].phase.Idle? && c.chains[root].hops != []
      && c.chains[root].hops[0].node in c.peers
    case Serve(msg, choice) =>
      && msg in c.net && msg.Req? && msg.to in c.peers && msg.root in c.chains
      && (match msg.body
          case Start(_, from, _) => ChoiceOk(m, c, msg.to, choice) && from < m.layers
          case Forward(_, _) => CacheReady(c.peers[msg.to].worker, msg.sid)
          case End => true)
    case Resume(msg, _) =>
      msg in c.net && msg.Res? && msg.dest.node in c.peers
  }

  function BeginStartStep(m: LayerModel, c: State, root: Sid, n: Node, choice: Choice): State
    requires Enabled(m, c, BeginStart(root, n, choice))
  {
    var ch := Chain(Starting, [], Some((n, root)), [], None, NO_SHARES, [], []);
    var c1 := WithChain(c, root, ch).(owner := c.owner[root := (root, 0)]);
    var req := Start(root, 0, 0);
    var (c2, out) := StartHere(m, c1, n, root, req, choice, root);
    Dispatch(c2, n, None, root, req, out)
  }

  function BeginForwardStep(m: LayerModel, c: State, root: Sid, pos: Pos, x: Tensor, hooks: Hooks): State
    requires Enabled(m, c, BeginForward(root, pos, x, hooks))
  {
    var ch := c.chains[root];
    var c1 := WithChain(c, root, ch.(phase := Forwarding(pos, x), inputs := ch.inputs + [(pos, x)]));
    var (c2, out) := ForwardHere(m, c1, ch.hops[0].node, ch.hops[0].sid, pos, x, hooks);
    Dispatch(c2, ch.hops[0].node, None, root, Forward(pos, x), out)
  }

  function BeginEndStep(m: LayerModel, c: State, root: Sid, hooks: Hooks): State
    requires Enabled(m, c, BeginEnd(root, hooks))
  {
    var ch := c.chains[root];
    var (c2, out) := EndHere(WithChain(c, root, ch.(phase := Ending)), ch.hops[0].node, ch.hops[0].sid, hooks);
    Dispatch(c2, ch.hops[0].node, None, root, End, out)
  }

  function ServeStep(m: LayerModel, c: State, msg: Msg, choice: Choice): State
    requires Enabled(m, c, Serve(msg, choice))
  {
    var c1 := c.(net := c.net - {msg});
    var (c2, out) :=
      match msg.body
      case Start(_, _, _) => StartHere(m, c1, msg.to, msg.sid, msg.body, choice, msg.root)
      case Forward(pos, x) => ForwardHere(m, c1, msg.to, msg.sid, pos, x, choice.hooks)
      case End => EndHere(c1, msg.to, msg.sid, choice.hooks);
    Dispatch(c2, msg.to, Some(msg.from), msg.root, msg.body, out)
  }

  /** The waiter found under the number decides which call goes on; without one the answer is dropped. */
  function ResumeStep(m: LayerModel, c: State, msg: Msg, post: bool): State
    requires Enabled(m, c, Resume(msg, post))
  {
    var n := msg.dest.node;
    var (rpc, found) := Resolve(c.peers[n].rpc, msg.dest.no);
    var c1 := c.(net := c.net - {msg}, peers := c.peers[n := c.peers[n].(rpc := rpc)]);
    if found.None? || found.value.root !in c.chains then c1
    else
      var root := found.value.root;
      var ch := c.chains[root];
      var popped := ch.(path := if ch.path == [] then [] else ch.path[..|ch.path| - 1]);
      var a := Post(post, found.value.req, msg.answer, n, c.peers[n].worker.loaded.hi);
      Answered(WithChain(c1, root, popped), found.value.up, root, a)
  }

  function Step(m: LayerModel, c: State, e: Event): State
    requires Enabled(m, c, e)
  {
    match e
    case BeginStart(root, n, choice) => BeginStartStep(m, c, root, n, choice)
    case BeginForward(root, pos, x, hooks) => BeginForwardStep(m, c, root, pos, x, hooks)
    case BeginEnd(root, hooks) => BeginEndStep(m, c, root, hooks)
    case Serve(msg, choice) => ServeStep(m, c, msg, choice)
    case Resume(msg, post) => ResumeStep(m, c, msg, post)
  }

  predicate IsRun(m: LayerModel, es: seq<Event>, states: seq<State>) {
    && |states| == |es| + 1
    && forall i :: 0 <= i < |es| ==> Enabled(m, states[i], es[i]) && states[i + 1] == Step(m, states[i], es[i])
  }

  /** Workers with their layers loaded and nothing else. */
  predicate Fresh(m: LayerModel, c: State) {
    && c.net == {} && c.chains == map[] && c.owner == map[]
    && forall n :: n in c.peers ==>
         && c.peers[n].worker.sessions == map[] && c.peers[n].worker.caches == map[]
         && c.peers[n].worker.loaded.hi <= m.layers && c.peers[n].rpc == Waits(0, map[])
  }
}
