/** Whole runs of a cluster: what START pins, what FORWARD computes, what END undoes. */
module ClusterRun {
  import opened Options
  import opened RouteTables
  import opened Layers
  import opened ModelServices
  import opened Cluster
  import opened ClusterInv
  import opened ClusterFrame
  import opened ClusterProof
  import opened ClusterForward
  import opened ClusterStart
  import opened ClusterEnd

  // ---------- requests in the hands of a node ----------

  /** The request in flight is the one its receiver should handle. */
  lemma ServingIsHandling(m: LayerModel, c: State, msg: Msg)
    requires Inv(m, c) && msg in c.net && msg.Req? && msg.to in c.peers
    ensures msg.root in c.chains && c.chains[msg.root].msg == Some(msg) && UpOf(c.chains[msg.root]) == Some(msg.from)
    ensures Handling(m, c.(net := c.net - {msg}), msg.root, msg.to, msg.sid, msg.body)
  {
    hide Inv, Located, Cached, RootPlaced, Gathered, Through, CachesMatch, OutputsMatch, Sound, Linked, Owned, Pinned,
         Suspended;
    var root, c1 := msg.root, c.(net := c.net - {msg});
    MessageIsKnown(m, c, msg);
    var ch := c.chains[root];
    RootChain(m, c, root);
    OneMessage(m, c, msg);
    RootIsPlaced(m, c, root);
    PlacedByWorkers(c, c1, root);
    ChainIsSound(m, c, root);
    SoundElsewhere(m, c, c1, root, ch);
  }

  lemma MessageIsKnown(m: LayerModel, c: State, msg: Msg)
    requires Inv(m, c) && msg in c.net
    ensures msg.root in c.chains && c.chains[msg.root].msg == Some(msg)
  {
    hide ChainInv, Located, Cached;
  }

  lemma ChainIsSound(m: LayerModel, c: State, root: Sid)
    requires ChainInv(m, c, root)
    ensures Sound(m, c, root, c.chains[root])
  {
    hide Linked, Shaped, Owned, Pinned, Suspended, ValuesMatch, InFlight;
  }

  lemma SoundElsewhere(m: LayerModel, c: State, c': State, root: Sid, ch: Chain)
    requires Sound(m, c, root, ch) && c'.peers == c.peers && c'.owner == c.owner
    ensures Sound(m, c', root, ch)
  {
    hide CachesMatch, MessageMatches, OutputsMatch, Removed, Doomed, Serves, Gathered;
    forall i | 0 <= i < |ch.hops|
      ensures PinOk(m, c', ch.hops[i]) && (PinnedAt(c, root, ch, i) ==> PinnedAt(c', root, ch, i))
    {
      assert PinOk(m, c, ch.hops[i]);
    }
    forall i | 0 <= i < |ch.path|
      ensures SuspendedAt(c', root, ch, i)
    {
      assert SuspendedAt(c, root, ch, i);
    }
    CachesElsewhere(m, c, c', ch);
  }

  /** FORWARD has been called, or END, and not yet begun. */
  predicate Begun(ch: Chain, ch': Chain, req: Body<Tensor>) {
    match req
    case Forward(pos, x) => ch' == ch.(phase := Forwarding(pos, x), inputs := ch.inputs + [(pos, x)])
    case End => ch' == ch.(phase := Ending)
    case Start(_, _, _) => false
  }

  /** A call begins at the first hop of an idle session. */
  lemma BeginIsHandling(m: LayerModel, c: State, root: Sid, ch': Chain, req: Body<Tensor>)
    requires Inv(m, c) && root in c.chains && c.chains[root].phase.Idle? && Begun(c.chains[root], ch', req)
    ensures c.chains[root].hops != [] && c.chains[root].path == []
    ensures var h := c.chains[root].hops[0]; Handling(m, WithChain(c, root, ch'), root, h.node, h.sid, req)
  {
    hide Inv, RootPlaced, Owned, Pinned, Suspended, CachesMatch, OutputsMatch, MessageMatches, Gathered;
    var ch := c.chains[root];
    RootChain(m, c, root);
    assert PinOk(m, c, ch.hops[0]);
    hide PinOk;
    RootIsPlaced(m, c, root);
    PlacedKept(c, root, ch');
    IdleHasNoMessage(m, c, root);
    BeginIsSound(m, c, root, ch, ch', req);
    SoundElsewhere(m, c, WithChain(c, root, ch'), root, ch');
  }

  lemma IdleHasNoMessage(m: LayerModel, c: State, root: Sid)
    requires Inv(m, c) && root in c.chains && c.chains[root].phase.Idle?
    ensures NoMessage(c, root)
  {
    hide Linked, Shaped, Owned, Pinned, Suspended, ValuesMatch, Located, Cached;
    assert ChainInv(m, c, root);
  }

  lemma BeginIsSound(m: LayerModel, c: State, root: Sid, ch: Chain, ch': Chain, req: Body<Tensor>)
    requires Sound(m, c, root, ch) && ch.phase.Idle? && ch.path == [] && ch.msg.None? && Begun(ch, ch', req)
    ensures Sound(m, c, root, ch')
  {
    hide ValuesMatch, PinOk, Gathered;
    forall i | 0 <= i < |ch.hops|
      ensures PinnedAt(c, root, ch', i)
    {
      assert PinnedAt(c, root, ch, i);
    }
    BeginValues(m, c, ch, ch', req);
  }

  lemma BeginValues(m: LayerModel, c: State, ch: Chain, ch': Chain, req: Body<Tensor>)
    requires ValuesMatch(m, c, ch) && ch.phase.Idle? && ch.path == [] && ch.msg.None? && Begun(ch, ch', req)
    ensures ValuesMatch(m, c, ch')
  {
    hide ChainRun, HoldsCaches;
    assert ch'.inputs[..|ch'.outputs|] == ch.inputs[..|ch.outputs|];
    forall i | 0 <= i < |ch'.hops| && ch'.hops[i].local.Some?
      ensures HoldsCaches(c, ch'.hops[i], Expected(m, ch', i))
    {
      assert HoldsCaches(c, ch.hops[i], Expected(m, ch, i));
      assert Expected(m, ch', i) == Expected(m, ch, i);
    }
  }

  /** The state in which a new session is about to start at its first node. */
  function Opened(c: State, root: Sid, n: Node): State {
    var ch := Chain(Starting, [], Some((n, root)), [], None, NO_SHARES, [], []);
    WithChain(c, root, ch).(owner := c.owner[root := (root, 0)])
  }

  lemma OpenTouches(m: LayerModel, c: State, root: Sid, n: Node)
    requires Inv(m, c) && root !in c.owner && root !in c.chains
    ensures Touches(c, Opened(c, root, n), root)
  {
    hide ChainInv, SameAt, Located, Cached;
    var c1 := Opened(c, root, n);
    forall k, sid | k in c.peers
      ensures SameAt(c.peers[k].worker, c1.peers[k].worker, sid)
    {
      SameWorker(c.peers[k].worker, sid);
    }
    forall msg: Msg | msg.root != root
      ensures msg in c.net <==> msg in c1.net
    {
    }
  }

  lemma OwnerIsKnown(m: LayerModel, c: State, sid: Sid)
    requires Inv(m, c)
    ensures sid in c.owner ==> c.owner[sid].0 in c.chains
  {
    hide ChainInv, Located, Cached;
  }

  lemma OpenPlaces(m: LayerModel, c: State, root: Sid, n: Node)
    requires Inv(m, c) && root !in c.owner && root !in c.chains
    ensures RootPlaced(Opened(c, root, n), root) && NoMessage(Opened(c, root, n), root)
  {
    hide ChainInv, Cached;
    var c1 := Opened(c, root, n);
    NextSidUnused(m, c, root);
    forall sid | Belongs(c1, sid, root)
      ensures sid == root
    {
      OwnerIsKnown(m, c, sid);
    }
  }

  lemma OpenIsSound(m: LayerModel, c: State, root: Sid, n: Node)
    ensures Sound(m, Opened(c, root, n), root, Opened(c, root, n).chains[root])
  {
    assert Opened(c, root, n).chains[root].inputs[..0] == [];
  }

  lemma OpenIsHandling(m: LayerModel, c: State, root: Sid, n: Node, choice: Choice)
    requires Inv(m, c) && Enabled(m, c, BeginStart(root, n, choice))
    ensures Handling(m, Opened(c, root, n), root, n, root, Start(root, 0, 0))
  {
    hide ChainInv, RootPlaced, Sound, Located, Cached;
    OpenPlaces(m, c, root, n);
    OpenIsSound(m, c, root, n);
  }

  // ---------- each event ----------

  lemma NextSidUnused(m: LayerModel, c: State, sid: Sid)
    requires Inv(m, c) && sid !in c.owner
    ensures forall k :: k in c.peers ==> sid !in c.peers[k].worker.sessions && sid !in c.peers[k].worker.caches
  {
    hide ChainInv;
  }

  lemma StartTouches(m: LayerModel, c: State, c1: State, root: Sid, n: Node, sid: Sid, req: Body<Tensor>,
                     choice: Choice)
    requires Touches(c, c1, root) && Belongs(c1, sid, root) && ChoiceOk(m, c1, n, choice) && root in c1.chains
    requires req.Start? && req.from < m.layers
    ensures var c2 := StartHere(m, c1, n, sid, req, choice, root).0;
            Touches(c, c2, root) && n in c2.peers && root in c2.chains
  {
    hide OnStart, SelectNext, Touches, SameAt, Belongs;
    var w0, route := c1.peers[n].worker, SelectNext(choice.table, req.from);
    var w := OnStart<Cache, Tensor>(m, w0, n, sid, req.chat, req.from, req.index, route, choice.cacheOk, choice.nextSid,
                                    choice.hooks).0;
    StartDiffers(m, w0, n, sid, req, route, choice, sid);
    forall s | s != sid
      ensures SameAt(w0, w, s)
    {
      StartDiffers(m, w0, n, sid, req, route, choice, s);
    }
    WorkerTouches(c, c1, root, n, w, sid);
    var c2, c3 := WithWorker(c1, n, w), StartHere(m, c1, n, sid, req, choice, root).0;
    if choice.hooks.pre && route.Some? {
      var i := |c1.chains[root].hops| + 1;
      ChainTouches(c, c2, root, c3.chains[root], c2.net);
      var c4 := WithChain(c2, root, c3.chains[root]).(net := c2.net);
      OwnerTouches(c, c4, root, choice.nextSid, i);
      assert c3 == if route.value.remote.Some? then c4.(owner := c4.owner[choice.nextSid := (root, i)]) else c4;
    }
  }

  lemma ForwardTouches(m: LayerModel, c: State, c1: State, root: Sid, n: Node, sid: Sid, pos: Pos, x: Tensor,
                       hooks: Hooks)
    requires Touches(c, c1, root) && Belongs(c1, sid, root) && n in c1.peers && CacheReady(c1.peers[n].worker, sid)
    ensures Touches(c, ForwardHere(m, c1, n, sid, pos, x, hooks).0, root)
  {
    hide OnForward, Touches, SameAt;
    var w0 := c1.peers[n].worker;
    var w := OnForward(m, w0, sid, pos, x, hooks).0;
    ForwardDiffers(m, w0, sid, pos, x, hooks, sid);
    forall s | s != sid
      ensures SameAt(w0, w, s)
    {
      ForwardDiffers(m, w0, sid, pos, x, hooks, s);
    }
    WorkerTouches(c, c1, root, n, w, sid);
  }

  lemma EndTouches(c: State, c1: State, root: Sid, n: Node, sid: Sid, hooks: Hooks)
    requires Touches(c, c1, root) && Belongs(c1, sid, root) && n in c1.peers
    ensures Touches(c, EndHere(c1, n, sid, hooks).0, root)
  {
    hide OnEnd, Touches, SameAt;
    var w0 := c1.peers[n].worker;
    var w := OnEnd<Cache, Tensor>(w0, sid, hooks).0;
    EndDiffers(w0, sid, hooks, sid);
    forall s | s != sid
      ensures SameAt(w0, w, s)
    {
      EndDiffers(w0, sid, hooks, s);
    }
    WorkerTouches(c, c1, root, n, w, sid);
  }

  /** The session whose call an event moves on. */
  function RootOf(e: Event): Sid {
    match e
    case BeginStart(root, _, _) => root
    case BeginForward(root, _, _, _) => root
    case BeginEnd(root, _) => root
    case Serve(msg, _) => msg.root
    case Resume(msg, _) => msg.root
  }

  lemma HandledBelongs(m: LayerModel, c: State, root: Sid, n: Node, sid: Sid, req: Body<Tensor>)
    requires Handling(m, c, root, n, sid, req)
    ensures Belongs(c, sid, root)
  {
    hide Linked, Shaped, Pinned, Suspended, CachesMatch, MessageMatches, OutputsMatch, RootPlaced, Through;
  }

  lemma BeginStartOk(m: LayerModel, c: State, root: Sid, n: Node, choice: Choice)
    requires Inv(m, c) && Enabled(m, c, BeginStart(root, n, choice))
    ensures var c' := BeginStartStep(m, c, root, n, choice); Touches(c, c', root) && RootOk(m, c', root)
  {
    hide Inv, RootOk, Touches, Dispatch, StartHere, RootPlaced, Sound;
    OpenIsHandling(m, c, root, n, choice);
    OpenTouches(m, c, root, n);
    NextSidUnused(m, c, choice.nextSid);
    var c1, req := Opened(c, root, n), Start(root, 0, 0);
    StartTouches(m, c, c1, root, n, root, req, choice);
    StartHop(m, c1, root, n, root, req, choice);
    var (c2, out) := StartHere(m, c1, n, root, req, choice, root);
    DispatchTouches(c, c2, n, None, root, req, out);
  }

  lemma BeginForwardOk(m: LayerModel, c: State, root: Sid, pos: Pos, x: Tensor, hooks: Hooks)
    requires Inv(m, c) && Enabled(m, c, BeginForward(root, pos, x, hooks))
    ensures var c' := BeginForwardStep(m, c, root, pos, x, hooks); Touches(c, c', root) && RootOk(m, c', root)
  {
    hide Inv, RootOk, Touches, Dispatch, OnForward, Handling;
    var ch, req := c.chains[root], Forward(pos, x);
    var ch', h := ch.(phase := Forwarding(pos, x), inputs := ch.inputs + [(pos, x)]), ch.hops[0];
    var c1 := WithChain(c, root, ch');
    BeginIsHandling(m, c, root, ch', req);
    HandledBelongs(m, c1, root, h.node, h.sid, req);
    TouchesSelf(m, c, root);
    ChainTouches(c, c, root, ch', c.net);
    ForwardTouches(m, c, c1, root, h.node, h.sid, pos, x, hooks);
    ForwardHop(m, c1, root, h.node, h.sid, req, hooks);
    var (c2, out) := ForwardHere(m, c1, h.node, h.sid, pos, x, hooks);
    DispatchTouches(c, c2, h.node, None, root, req, out);
  }

  lemma BeginEndOk(m: LayerModel, c: State, root: Sid, hooks: Hooks)
    requires Inv(m, c) && Enabled(m, c, BeginEnd(root, hooks))
    ensures var c' := BeginEndStep(m, c, root, hooks); Touches(c, c', root) && RootOk(m, c', root)
  {
    hide Inv, RootOk, Touches, Dispatch, OnEnd, Handling;
    var ch := c.chains[root];
    var ch', h := ch.(phase := Ending), ch.hops[0];
    var c1 := WithChain(c, root, ch');
    BeginIsHandling(m, c, root, ch', End);
    HandledBelongs(m, c1, root, h.node, h.sid, End);
    TouchesSelf(m, c, root);
    ChainTouches(c, c, root, ch', c.net);
    EndTouches(c, c1, root, h.node, h.sid, hooks);
    EndHop(m, c1, root, h.node, h.sid, hooks);
    var (c2, out) := EndHere(c1, h.node, h.sid, hooks);
    DispatchTouches(c, c2, h.node, None, root, End, out);
  }

  /** A request taken off the wire by a node that handles it. */
  ghost predicate Taken(m: LayerModel, c: State, c1: State, msg: Msg) {
    && msg.Req? && c1 == c.(net := c.net - {msg}) && Touches(c, c1, msg.root) && Belongs(c1, msg.sid, msg.root)
    && Handling(m, c1, msg.root, msg.to, msg.sid, msg.body) && UpOf(c1.chains[msg.root]) == Some(msg.from)
  }

  lemma ServeStartOk(m: LayerModel, c: State, c1: State, msg: Msg, choice: Choice)
    requires Inv(m, c) && Enabled(m, c, Serve(msg, choice)) && Taken(m, c, c1, msg) && msg.body.Start?
    ensures var c' := ServeStep(m, c, msg, choice); Touches(c, c', msg.root) && RootOk(m, c', msg.root)
  {
    hide Inv, RootOk, Touches, Dispatch, StartHere, Sound, RootPlaced, NoMessage;
    var root, n, sid := msg.root, msg.to, msg.sid;
    NextSidUnused(m, c, choice.nextSid);
    StartTouches(m, c, c1, root, n, sid, msg.body, choice);
    StartHop(m, c1, root, n, sid, msg.body, choice);
    var (c2, out) := StartHere(m, c1, n, sid, msg.body, choice, root);
    DispatchTouches(c, c2, n, Some(msg.from), root, msg.body, out);
  }

  lemma ServeForwardOk(m: LayerModel, c: State, c1: State, msg: Msg, choice: Choice)
    requires Inv(m, c) && Enabled(m, c, Serve(msg, choice)) && Taken(m, c, c1, msg) && msg.body.Forward?
    ensures var c' := ServeStep(m, c, msg, choice); Touches(c, c', msg.root) && RootOk(m, c', msg.root)
  {
    hide Inv, RootOk, Touches, Dispatch, OnForward, Sound, RootPlaced, NoMessage, Through;
    var root, n, sid := msg.root, msg.to, msg.sid;
    ForwardTouches(m, c, c1, root, n, sid, msg.body.pos, msg.body.x, choice.hooks);
    ForwardHop(m, c1, root, n, sid, msg.body, choice.hooks);
    var (c2, out) := ForwardHere(m, c1, n, sid, msg.body.pos, msg.body.x, choice.hooks);
    DispatchTouches(c, c2, n, Some(msg.from), root, msg.body, out);
  }

  lemma ServeEndOk(m: LayerModel, c: State, c1: State, msg: Msg, choice: Choice)
    requires Inv(m, c) && Enabled(m, c, Serve(msg, choice)) && Taken(m, c, c1, msg) && msg.body.End?
    ensures var c' := ServeStep(m, c, msg, choice); Touches(c, c', msg.root) && RootOk(m, c', msg.root)
  {
    hide Inv, RootOk, Touches, Dispatch, OnEnd, Sound, RootPlaced, NoMessage;
    var root, n, sid := msg.root, msg.to, msg.sid;
    EndTouches(c, c1, root, n, sid, choice.hooks);
    EndHop(m, c1, root, n, sid, choice.hooks);
    var (c2, out) := EndHere(c1, n, sid, choice.hooks);
    DispatchTouches(c, c2, n, Some(msg.from), root, msg.body, out);
  }

  lemma ServeOk(m: LayerModel, c: State, msg: Msg, choice: Choice)
    requires Inv(m, c) && Enabled(m, c, Serve(msg, choice))
    ensures var c' := ServeStep(m, c, msg, choice); Touches(c, c', msg.root) && RootOk(m, c', msg.root)
  {
    hide Inv, RootOk, Touches, ServeStep, Handling, Belongs;
    var c1 := c.(net := c.net - {msg});
    ServingIsHandling(m, c, msg);
    HandledBelongs(m, c1, msg.root, msg.to, msg.sid, msg.body);
    ConsumeTouches(m, c, msg);
    match msg.body
    case Start(_, _, _) => ServeStartOk(m, c, c1, msg, choice);
    case Forward(_, _) => ServeForwardOk(m, c, c1, msg, choice);
    case End => ServeEndOk(m, c, c1, msg, choice);
  }

  lemma ResumeOk(m: LayerModel, c: State, msg: Msg, post: bool)
    requires Inv(m, c) && Enabled(m, c, Resume(msg, post))
    ensures var c' := ResumeStep(m, c, msg, post); Touches(c, c', msg.root) && RootOk(m, c', msg.root)
  {
    hide Inv, RootOk, Touches, Answered, Serves;
    AnswerFindsCaller(m, c, msg);
    MatchedTouches(m, c, msg);
    var root, c1, a := msg.root, Matched(c, msg), Passing(c, msg, post);
    var up := UpOf(c1.chains[root]);
    AnsweredTouches(c, c1, up, root, a);
    if !a.ok {
      ResumeFails(m, c, msg, post);
    } else if up.Some? {
      ResumeUp(m, c, msg, post);
    } else {
      ResumeRoot(m, c, msg, post);
    }
    assert ResumeStep(m, c, msg, post) == Answered(c1, up, root, a);
  }

  lemma StepTouches(m: LayerModel, c: State, e: Event)
    requires Inv(m, c) && Enabled(m, c, e)
    ensures Touches(c, Step(m, c, e), RootOf(e)) && RootOk(m, Step(m, c, e), RootOf(e))
  {
    hide Inv, RootOk, Touches, BeginStartStep, BeginForwardStep, BeginEndStep, ServeStep, ResumeStep, ChoiceOk,
         CacheReady;
    match e
    case BeginStart(root, n, choice) => BeginStartOk(m, c, root, n, choice);
    case BeginForward(root, pos, x, hooks) => BeginForwardOk(m, c, root, pos, x, hooks);
    case BeginEnd(root, hooks) => BeginEndOk(m, c, root, hooks);
    case Serve(msg, choice) => ServeOk(m, c, msg, choice);
    case Resume(msg, post) => ResumeOk(m, c, msg, post);
  }

  lemma FreshInv(m: LayerModel, c: State)
    requires Fresh(m, c)
    ensures Inv(m, c)
  {
  }

  lemma {:induction false} RunKeepsInv(m: LayerModel, es: seq<Event>, states: seq<State>, n: nat)
    requires IsRun(m, es, states) && Fresh(m, states[0]) && n < |states|
    ensures Inv(m, states[n])
  {
    hide Inv, Step, Enabled, Touches, RootOk, Fresh;
    if n == 0 {
      FreshInv(m, states[0]);
    } else {
      RunKeepsInv(m, es, states, n - 1);
      StepTouches(m, states[n - 1], es[n - 1]);
      TouchKeepsInv(m, states[n - 1], states[n], RootOf(es[n - 1]));
    }
  }
}
