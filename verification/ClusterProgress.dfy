/** No handler of a run ever meets what it would panic on, and a FORWARD or END under way comes to its end. */
module ClusterProgress {
  import opened ModelServices
  import opened Cluster
  import opened ClusterInv
  import opened ClusterFrame
  import opened ClusterProof
  import opened ClusterForward
  import opened ClusterEnd
  import opened ClusterRun

  // ---------- nothing to panic on ----------

  /** A request that reaches a node of the cluster; a START also finds a router there, and a fresh session id. */
  predicate Reached(m: LayerModel, c: State, msg: Msg, choice: Choice) {
    msg in c.net && msg.Req? && msg.to in c.peers && (msg.body.Start? ==> ChoiceOk(m, c, msg.to, choice))
  }

  /** It finds its caches, and a layer within the model. */
  lemma RequestCanBeServed(m: LayerModel, c: State, msg: Msg, choice: Choice)
    requires Inv(m, c) && Reached(m, c, msg, choice)
    ensures Enabled(m, c, Serve(msg, choice))
  {
    hide Inv, Sound, RootPlaced, NoMessage, Through, ChoiceOk;
    ServingIsHandling(m, c, msg);
    var c1 := c.(net := c.net - {msg});
    if msg.body.Forward? {
      StageIsDone(m, c1, msg.root, msg.to, msg.sid, msg.body, choice.hooks);
    }
  }

  lemma AnswerCanBeResumed(m: LayerModel, c: State, msg: Msg, post: bool)
    requires Inv(m, c) && msg in c.net && msg.Res?
    ensures Enabled(m, c, Resume(msg, post))
  {
    hide Inv, Serves;
    AnswerFindsCaller(m, c, msg);
  }

  /** The next FORWARD, and END, find the session's first hop ready. */
  lemma IdleCanBegin(m: LayerModel, c: State, root: Sid, hooks: Hooks)
    requires Inv(m, c) && root in c.chains && c.chains[root].phase.Idle?
    ensures Enabled(m, c, BeginEnd(root, hooks))
    ensures forall pos, x :: Enabled(m, c, BeginForward(root, pos, x, hooks))
  {
    hide Inv, Sound, RootPlaced, NoMessage;
    var ch := c.chains[root];
    BeginIsHandling(m, c, root, ch.(phase := Ending), End);
    forall pos, x
      ensures Enabled(m, c, BeginForward(root, pos, x, hooks))
    {
      var ch' := ch.(phase := Forwarding(pos, x), inputs := ch.inputs + [(pos, x)]);
      BeginIsHandling(m, c, root, ch', Forward(pos, x));
      StageIsDone(m, WithChain(c, root, ch'), root, ch.hops[0].node, ch.hops[0].sid, Forward(pos, x), hooks);
    }
  }

  /** In every run whatever is in flight can be handled, and an idle session can go on. */
  lemma NothingPanics(m: LayerModel, es: seq<Event>, states: seq<State>, n: nat)
    requires IsRun(m, es, states) && Fresh(m, states[0]) && n < |states|
    ensures forall msg, choice: Choice :: Reached(m, states[n], msg, choice) ==>
              Enabled(m, states[n], Serve(msg, choice))
    ensures forall msg, post :: msg in states[n].net && msg.Res? ==> Enabled(m, states[n], Resume(msg, post))
    ensures forall root, pos, x, hooks :: root in states[n].chains && states[n].chains[root].phase.Idle? ==>
              Enabled(m, states[n], BeginForward(root, pos, x, hooks))
    ensures forall root, hooks :: root in states[n].chains && states[n].chains[root].phase.Idle? ==>
              Enabled(m, states[n], BeginEnd(root, hooks))
  {
    hide Inv, IsRun, Fresh, Enabled, ChoiceOk;
    RunKeepsInv(m, es, states, n);
    var c := states[n];
    forall msg, choice: Choice | Reached(m, c, msg, choice)
      ensures Enabled(m, c, Serve(msg, choice))
    {
      RequestCanBeServed(m, c, msg, choice);
    }
    forall msg, post | msg in c.net && msg.Res?
      ensures Enabled(m, c, Resume(msg, post))
    {
      AnswerCanBeResumed(m, c, msg, post);
    }
    forall root, pos, x, hooks | root in c.chains && c.chains[root].phase.Idle?
      ensures Enabled(m, c, BeginForward(root, pos, x, hooks))
    {
      IdleCanBegin(m, c, root, hooks);
    }
    forall root, hooks | root in c.chains && c.chains[root].phase.Idle?
      ensures Enabled(m, c, BeginEnd(root, hooks))
    {
      IdleCanBegin(m, c, root, hooks);
    }
  }

  // ---------- a call comes to its end ----------

  /** A FORWARD or an END is under way. */
  predicate Busy(ch: Chain) {
    ch.phase.Forwarding? || ch.phase.Ending?
  }

  /** How many events the call has still before it, at most. */
  function StepsLeft(ch: Chain): nat {
    if !Busy(ch) || ch.msg.None? then 0
    else if ch.msg.value.Res? then |ch.path|
    else if |ch.path| <= |ch.hops| then 2 * |ch.hops| - |ch.path| else 0
  }

  /** Its message can be handled by the node it has reached, whatever the hooks there say. */
  ghost predicate CanGoOn(m: LayerModel, c: State, root: Sid) {
    && root in c.chains && c.chains[root].msg.Some? && var msg := c.chains[root].msg.value;
    && msg.root == root
    && (msg.Req? ==> forall choice :: Enabled(m, c, Serve(msg, choice)))
    && (msg.Res? ==> forall post :: Enabled(m, c, Resume(msg, post)))
  }

  lemma BusyCanGoOn(m: LayerModel, c: State, root: Sid)
    requires Inv(m, c) && root in c.chains && Busy(c.chains[root])
    ensures CanGoOn(m, c, root)
  {
    hide Inv, Enabled, ValuesMatch, Linked, Owned, Pinned, Suspended, Gathered;
    RootChain(m, c, root);
    var ch := c.chains[root];
    var msg := ch.msg.value;
    if msg.Req? {
      HopIsPeer(m, c, ch, |ch.path|);
      forall choice
        ensures Enabled(m, c, Serve(msg, choice))
      {
        RequestCanBeServed(m, c, msg, choice);
      }
    } else {
      forall post
        ensures Enabled(m, c, Resume(msg, post))
      {
        AnswerCanBeResumed(m, c, msg, post);
      }
    }
  }

  lemma HopIsPeer(m: LayerModel, c: State, ch: Chain, i: nat)
    requires Linked(m, c, ch) && i < |ch.hops|
    ensures ch.hops[i].node in c.peers
  {
    assert PinOk(m, c, ch.hops[i]);
  }

  /** Whatever the handler does, the call is one event nearer to its end. */
  lemma OwnEventCounts(m: LayerModel, c: State, e: Event)
    requires Inv(m, c) && Enabled(m, c, e) && RootOf(e) in c.chains && Busy(c.chains[RootOf(e)])
    ensures var c' := Step(m, c, e);
            && RootOf(e) in c'.chains && c'.chains[RootOf(e)].hops == c.chains[RootOf(e)].hops
            && StepsLeft(c'.chains[RootOf(e)]) < StepsLeft(c.chains[RootOf(e)])
  {
    hide Inv, ValuesMatch, Linked, Owned, Pinned, Suspended, Gathered, OnForward, OnEnd, Serves, ServeStep, ResumeStep;
    var root := RootOf(e);
    RootChain(m, c, root);
    match e
    case Serve(msg, choice) =>
      MessageIsKnown(m, c, msg);
      ServingCounts(m, c, msg, choice);
    case Resume(msg, post) =>
      AnswerFindsCaller(m, c, msg);
      ResumingCounts(m, c, msg, post);
    case _ =>
  }

  lemma ServingCounts(m: LayerModel, c: State, msg: Msg, choice: Choice)
    requires Inv(m, c) && Enabled(m, c, Serve(msg, choice)) && Busy(c.chains[msg.root])
    ensures var c' := ServeStep(m, c, msg, choice);
            && msg.root in c'.chains && c'.chains[msg.root].hops == c.chains[msg.root].hops
            && StepsLeft(c'.chains[msg.root]) < StepsLeft(c.chains[msg.root])
  {
    hide Inv, Sound, RootPlaced, NoMessage, Through, OnForward, OnEnd;
    ServingIsHandling(m, c, msg);
  }

  lemma ResumingCounts(m: LayerModel, c: State, msg: Msg, post: bool)
    requires Inv(m, c) && Enabled(m, c, Resume(msg, post)) && msg.root in c.chains && Busy(c.chains[msg.root])
    ensures var c' := ResumeStep(m, c, msg, post);
            && msg.root in c'.chains && c'.chains[msg.root].hops == c.chains[msg.root].hops
            && StepsLeft(c'.chains[msg.root]) < StepsLeft(c.chains[msg.root])
  {
    hide Inv, Serves, Post;
    AnswerFindsCaller(m, c, msg);
  }

  /** The session's own events in a stretch of a run. */
  function OwnEvents(es: seq<Event>, a: nat, b: nat, root: Sid): nat
    requires a <= b <= |es|
    decreases b
  {
    if a == b then 0 else OwnEvents(es, a, b - 1, root) + if RootOf(es[b - 1]) == root then 1 else 0
  }

  /**
   While a FORWARD or END is under way, amid any events of other sessions, its message can always be handled next,
   and its own events are fewer than twice the hops.
   */
  lemma {:induction false} CallsComplete(m: LayerModel, es: seq<Event>, states: seq<State>, a: nat, b: nat, root: Sid)
    requires IsRun(m, es, states) && Fresh(m, states[0]) && a <= b < |states|
    requires forall i :: a <= i <= b ==> root in states[i].chains && Busy(states[i].chains[root])
    ensures CanGoOn(m, states[b], root) && states[b].chains[root].hops == states[a].chains[root].hops
    ensures OwnEvents(es, a, b, root) + StepsLeft(states[b].chains[root]) <= StepsLeft(states[a].chains[root])
    ensures 0 < StepsLeft(states[b].chains[root])
    ensures StepsLeft(states[a].chains[root]) <= 2 * |states[a].chains[root].hops|
    decreases b
  {
    hide Inv, Fresh, Step, Enabled, StepsLeft, Busy, CanGoOn;
    RunKeepsInv(m, es, states, b);
    BusyCanGoOn(m, states[b], root);
    StepsAreLeft(m, states[b], root);
    if a < b {
      CallsComplete(m, es, states, a, b - 1, root);
      RunKeepsInv(m, es, states, b - 1);
      if RootOf(es[b - 1]) == root {
        OwnEventCounts(m, states[b - 1], es[b - 1]);
      } else {
        OtherEventKeeps(m, states[b - 1], es[b - 1], root);
      }
    }
  }

  lemma StepsAreLeft(m: LayerModel, c: State, root: Sid)
    requires Inv(m, c) && root in c.chains && Busy(c.chains[root])
    ensures 0 < StepsLeft(c.chains[root]) <= 2 * |c.chains[root].hops|
  {
    hide Inv, ValuesMatch, Linked, Owned, Pinned, Gathered, Serves;
    RootChain(m, c, root);
  }

  lemma OtherEventKeeps(m: LayerModel, c: State, e: Event, root: Sid)
    requires Inv(m, c) && Enabled(m, c, e) && root in c.chains && RootOf(e) != root
    ensures var c' := Step(m, c, e); root in c'.chains && c'.chains[root] == c.chains[root]
  {
    hide Inv, Enabled, Step;
    StepTouches(m, c, e);
  }
}
