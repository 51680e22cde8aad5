/** Calls succeed where nothing refuses them. */
module ClusterSuccess {
  import opened Options
  import opened RouteTables
  import opened Layers
  import opened ModelServices
  import opened Cluster
  import opened ClusterInv
  import opened ClusterFrame
  import opened ClusterProof
  import opened ClusterForward
  import opened ClusterEnd
  import opened ClusterRun
  import opened ClusterProgress

  /** The hooks pass, and a START finds a route and its caches. */
  predicate Fine(e: Event) {
    match e
    case BeginStart(_, _, choice) => FineStart(choice, 0)
    case BeginForward(_, _, _, hooks) => hooks == Hooks(true, true)
    case BeginEnd(_, hooks) => hooks == Hooks(true, true)
    case Serve(msg, choice) =>
      if msg.Req? && msg.body.Start? then FineStart(choice, msg.body.from) else choice.hooks == Hooks(true, true)
    case Resume(_, post) => post
  }

  predicate FineStart(choice: Choice, from: nat) {
    && choice.hooks == Hooks(true, true) && choice.cacheOk
    && from < |choice.table.remote| && choice.table.local.hi <= |choice.table.remote|
    && SelectNext(choice.table, from).Some?
  }

  /** The call is under way, and nothing has refused it. */
  predicate Going(ch: Chain) {
    Active(ch) && !Doomed(ch)
  }

  /** What a call has brought about: a chain ready for inputs, one more output, or the end of the session. */
  predicate Succeeded(was: Phase, outputs: nat, ch: Chain) {
    match was
    case Starting => ch.phase.Idle?
    case Forwarding(_, _) => ch.phase.Idle? && |ch.outputs| == outputs + 1
    case Ending => ch.phase.Ended?
    case _ => false
  }

  /** Still going as before, or done. */
  predicate OnTrack(was: Phase, outputs: nat, ch: Chain) {
    (Going(ch) && ch.phase == was && |ch.outputs| == outputs) || Succeeded(was, outputs, ch)
  }

  // ---------- one event ----------

  lemma DispatchOnTrack(c: State, n: Node, up: Option<Pending>, root: Sid, req: Body<Tensor>, out: Out<Tensor>)
    requires n in c.peers && root in c.chains && Active(c.chains[root])
    requires out.Reply? ==> out.answer.ok && (c.chains[root].phase.Forwarding? ==> out.answer.x.Some?)
    ensures var c' := Dispatch(c, n, up, root, req, out);
            && root in c'.chains
            && OnTrack(c.chains[root].phase, |c.chains[root].outputs|, c'.chains[root])
            && (up.Some? ==> Active(c'.chains[root]))
  {
  }

  lemma StartOut(m: LayerModel, c: State, n: Node, sid: Sid, req: Body<Tensor>, choice: Choice, root: Sid)
    requires ChoiceOk(m, c, n, choice) && root in c.chains && req.Start? && req.from < m.layers
    requires FineStart(choice, req.from)
    ensures var (c2, out) := StartHere(m, c, n, sid, req, choice, root);
            && n in c2.peers && root in c2.chains && (out.Reply? ==> out.answer.ok)
            && c2.chains[root].phase == c.chains[root].phase && c2.chains[root].outputs == c.chains[root].outputs
  {
    hide SelectNext;
  }

  lemma ServeOnTrack(m: LayerModel, c: State, msg: Msg, choice: Choice)
    requires Inv(m, c) && Enabled(m, c, Serve(msg, choice)) && Fine(Serve(msg, choice)) && Going(c.chains[msg.root])
    ensures var c', ch := ServeStep(m, c, msg, choice), c.chains[msg.root];
            && msg.root in c'.chains && Active(c'.chains[msg.root])
            && OnTrack(ch.phase, |ch.outputs|, c'.chains[msg.root])
  {
    hide Inv, Sound, RootPlaced, NoMessage, Through, OnForward, OnEnd, Dispatch, StartHere, OnTrack, FineStart,
         CachesAfter;
    ServingIsHandling(m, c, msg);
    var root, c1 := msg.root, c.(net := c.net - {msg});
    match msg.body
    case Start(_, _, _) =>
      StartOut(m, c1, msg.to, msg.sid, msg.body, choice, root);
      var (c2, out) := StartHere(m, c1, msg.to, msg.sid, msg.body, choice, root);
      DispatchOnTrack(c2, msg.to, Some(msg.from), root, msg.body, out);
    case Forward(pos, x) =>
      StageIsDone(m, c1, root, msg.to, msg.sid, msg.body, choice.hooks);
      var (c2, out) := ForwardHere(m, c1, msg.to, msg.sid, pos, x, choice.hooks);
      DispatchOnTrack(c2, msg.to, Some(msg.from), root, msg.body, out);
    case End =>
      HopEnds(m, c1, root, msg.to, msg.sid, choice.hooks);
      var (c2, out) := EndHere(c1, msg.to, msg.sid, choice.hooks);
      DispatchOnTrack(c2, msg.to, Some(msg.from), root, msg.body, out);
  }

  lemma ResumeOnTrack(m: LayerModel, c: State, msg: Msg)
    requires Inv(m, c) && Enabled(m, c, Resume(msg, true)) && msg.root in c.chains && Going(c.chains[msg.root])
    ensures var c', ch := ResumeStep(m, c, msg, true), c.chains[msg.root];
            msg.root in c'.chains && OnTrack(ch.phase, |ch.outputs|, c'.chains[msg.root])
  {
    hide Inv, Gathered, Serves;
    AnswerFindsCaller(m, c, msg);
    PassingSays(m, c, msg, true);
  }

  /** An event of a call that is going keeps it going, or completes it, if nothing refuses. */
  lemma EventOnTrack(m: LayerModel, c: State, e: Event)
    requires Inv(m, c) && Enabled(m, c, e) && Fine(e) && RootOf(e) in c.chains && Going(c.chains[RootOf(e)])
    ensures var c', ch := Step(m, c, e), c.chains[RootOf(e)];
            RootOf(e) in c'.chains && OnTrack(ch.phase, |ch.outputs|, c'.chains[RootOf(e)])
  {
    hide Inv, OnTrack, ServeStep, ResumeStep, Gathered, FineStart;
    match e
    case Serve(msg, choice) => ServeOnTrack(m, c, msg, choice);
    case Resume(msg, post) => ResumeOnTrack(m, c, msg);
    case _ =>
  }

  /** What the event asks for: the phase the call is in while it goes. */
  function PhaseOf(e: Event): Phase {
    match e
    case BeginForward(_, pos, x, _) => Forwarding(pos, x)
    case BeginEnd(_, _) => Ending
    case _ => Starting
  }

  lemma BeginStartOnTrack(m: LayerModel, c: State, root: Sid, n: Node, choice: Choice)
    requires Inv(m, c) && Enabled(m, c, BeginStart(root, n, choice)) && FineStart(choice, 0)
    ensures var c' := BeginStartStep(m, c, root, n, choice);
            root in c'.chains && OnTrack(Starting, 0, c'.chains[root])
  {
    hide Inv, Dispatch, StartHere, OnTrack, FineStart;
    var c1, req := Opened(c, root, n), Start(root, 0, 0);
    StartOut(m, c1, n, root, req, choice, root);
    var (c2, out) := StartHere(m, c1, n, root, req, choice, root);
    DispatchOnTrack(c2, n, None, root, req, out);
  }

  lemma BeginForwardOnTrack(m: LayerModel, c: State, root: Sid, pos: Pos, x: Tensor, hooks: Hooks)
    requires Inv(m, c) && Enabled(m, c, BeginForward(root, pos, x, hooks)) && hooks == Hooks(true, true)
    ensures var c' := BeginForwardStep(m, c, root, pos, x, hooks);
            root in c'.chains && OnTrack(Forwarding(pos, x), |c.chains[root].outputs|, c'.chains[root])
  {
    hide Inv, Dispatch, OnForward, OnTrack, Sound, RootPlaced, NoMessage, Through, CachesAfter;
    var ch, req := c.chains[root], Forward(pos, x);
    var ch', h := ch.(phase := Forwarding(pos, x), inputs := ch.inputs + [(pos, x)]), ch.hops[0];
    var c1 := WithChain(c, root, ch');
    BeginIsHandling(m, c, root, ch', req);
    StageIsDone(m, c1, root, h.node, h.sid, req, hooks);
    var (c2, out) := ForwardHere(m, c1, h.node, h.sid, pos, x, hooks);
    DispatchOnTrack(c2, h.node, None, root, req, out);
  }

  lemma BeginEndOnTrack(m: LayerModel, c: State, root: Sid, hooks: Hooks)
    requires Inv(m, c) && Enabled(m, c, BeginEnd(root, hooks)) && hooks == Hooks(true, true)
    ensures var c' := BeginEndStep(m, c, root, hooks);
            root in c'.chains && OnTrack(Ending, |c.chains[root].outputs|, c'.chains[root])
  {
    hide Inv, Dispatch, OnEnd, OnTrack, Sound, RootPlaced, NoMessage;
    var ch := c.chains[root];
    var ch', h := ch.(phase := Ending), ch.hops[0];
    var c1 := WithChain(c, root, ch');
    BeginIsHandling(m, c, root, ch', End);
    HopEnds(m, c1, root, h.node, h.sid, hooks);
    var (c2, out) := EndHere(c1, h.node, h.sid, hooks);
    DispatchOnTrack(c2, h.node, None, root, End, out);
  }

  function OutputsBefore(c: State, root: Sid): nat {
    if root in c.chains then |c.chains[root].outputs| else 0
  }

  lemma BeginOnTrack(m: LayerModel, c: State, e: Event)
    requires Inv(m, c) && Enabled(m, c, e) && Fine(e) && (e.BeginStart? || e.BeginForward? || e.BeginEnd?)
    ensures var c' := Step(m, c, e);
            RootOf(e) in c'.chains && OnTrack(PhaseOf(e), OutputsBefore(c, RootOf(e)), c'.chains[RootOf(e)])
  {
    hide Inv, OnTrack, BeginStartStep, BeginForwardStep, BeginEndStep, FineStart, ChoiceOk, CacheReady;
    match e
    case BeginStart(root, n, choice) => BeginStartOnTrack(m, c, root, n, choice);
    case BeginForward(root, pos, x, hooks) => BeginForwardOnTrack(m, c, root, pos, x, hooks);
    case BeginEnd(root, hooks) => BeginEndOnTrack(m, c, root, hooks);
  }

  // ---------- a whole call ----------

  /**
   From the event that begins a call until it is over, amid any events of other sessions: if nothing refuses it, a
   START leaves the session idle, a FORWARD brings one more output, and an END ends it.
   */
  lemma {:induction false} FineCallsSucceed(m: LayerModel, es: seq<Event>, states: seq<State>, a: nat, b: nat)
    requires IsRun(m, es, states) && Fresh(m, states[0]) && a < b < |states|
    requires es[a].BeginStart? || es[a].BeginForward? || es[a].BeginEnd?
    requires forall i :: a <= i < b && RootOf(es[i]) == RootOf(es[a]) ==> Fine(es[i])
    requires forall i :: a < i < b ==> RootOf(es[a]) in states[i].chains && Active(states[i].chains[RootOf(es[a])])
    ensures var root := RootOf(es[a]);
            && root in states[b].chains
            && OnTrack(PhaseOf(es[a]), OutputsBefore(states[a], root), states[b].chains[root])
    decreases b
  {
    hide Inv, Fresh, Step, Enabled, Fine, Doomed, Touches, RootOk;
    var root, e := RootOf(es[a]), es[b - 1];
    RunKeepsInv(m, es, states, b - 1);
    if b == a + 1 {
      BeginOnTrack(m, states[a], es[a]);
    } else {
      FineCallsSucceed(m, es, states, a, b - 1);
      if RootOf(e) == root {
        EventOnTrack(m, states[b - 1], e);
      } else {
        OtherEventKeeps(m, states[b - 1], e, root);
      }
    }
  }
}
