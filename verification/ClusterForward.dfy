/** FORWARD, hop by hop: each worker does its stage of the computation, on its own caches. */
module ClusterForward {
  import opened Options
  import opened RouteTables
  import opened Layers
  import opened ModelServices
  import opened Cluster
  import opened ClusterInv
  import opened ClusterFrame
  import opened ClusterProof

  ghost predicate HoldsAfter(m: LayerModel, c: State, ch: Chain, pos: Pos, x: Tensor, k: nat)
    requires |ch.outputs| <= |ch.inputs|
  {
    forall i :: 0 <= i < |ch.hops| && ch.hops[i].local.Some? ==>
      HoldsCaches(c, ch.hops[i], CachesAfter(m, ch, pos, x, i, k))
  }

  /** What the worker at the hop did: only the session's own caches may differ. */
  ghost predicate Worked1(w0: Worker<Cache>, w: Worker<Cache>, sid: Sid) {
    && w.loaded == w0.loaded && w.sessions == w0.sessions && w.caches.Keys == w0.caches.Keys
    && (forall s :: s in w.caches && s != sid ==> w.caches[s] == w0.caches[s])
  }

  /** The hop whose turn it is has its caches, and takes the embedding one stage further. */
  lemma StageIsDone(m: LayerModel, c: State, root: Sid, n: Node, sid: Sid, req: Body<Tensor>, hooks: Hooks)
    requires Handling(m, c, root, n, sid, req) && c.chains[root].phase.Forwarding?
    ensures CacheReady(c.peers[n].worker, sid)
    ensures var w0, ch := c.peers[n].worker, c.chains[root];
            var (w, out) := OnForward(m, w0, sid, req.pos, req.x, hooks);
            var k := |ch.path|;
            var h, r := ch.hops[k], RemoteOf(ch, k);
            && (!hooks.pre ==> w == w0 && out == Reply(Refused()))
            && (hooks.pre ==>
                  && Worked1(w0, w, sid)
                  && (h.local.Some? ==>
                        sid in w.caches && w.caches[sid] == CachesAfter(m, ch, ch.phase.pos, ch.phase.x, k, k + 1))
                  && var y := Through(m, ch, ch.phase.pos, ch.phase.x, k + 1);
                     out == if r.Some? then Call(r.value.0, r.value.1, Forward(req.pos, y))
                            else Reply(Answer(true, Some(y), NO_SHARES)))
  {
    hide RunLayers, ChainRun, Before, Suspended, RootPlaced, OutputsMatch, MessageMatches, Shaped, Owned;
    var ch := c.chains[root];
    var k, w := |ch.path|, c.peers[n].worker;
    var h := ch.hops[k];
    assert PinnedAt(c, root, ch, k) && PinOk(m, c, h);
    if h.local.Some? {
      assert HoldsCaches(c, h, Expected(m, ch, k));
      assert Expected(m, ch, k) == Before(m, ch)[k];
    }
  }

  /** What holds of the workers when the current hop has worked and its session history has not moved yet. */
  ghost predicate Moved(m: LayerModel, c: State, c2: State, root: Sid) {
    && root in c.chains && c2.chains == c.chains && c2.net == c.net && var ch := c.chains[root];
    && Linked(m, c2, ch) && Owned(c2, root, ch) && Suspended(c2, root, ch) && RootPlaced(c2, root)
    && (forall i :: 0 <= i < |ch.hops| ==> PinnedAt(c2, root, ch, i))
    && (ch.phase.Forwarding? && |ch.outputs| <= |ch.inputs| ==>
          HoldsAfter(m, c2, ch, ch.phase.pos, ch.phase.x, |ch.path| + 1))
  }

  /** The workers after the hop. */
  lemma ForwardMoves(m: LayerModel, c: State, c2: State, root: Sid, n: Node, sid: Sid, req: Body<Tensor>,
                     w: Worker<Cache>)
    requires Handling(m, c, root, n, sid, req) && c.chains[root].phase.Forwarding?
    requires c2 == WithWorker(c, n, w) && Worked1(c.peers[n].worker, w, sid)
    requires var ch := c.chains[root];
             ch.hops[|ch.path|].local.Some? ==>
               && sid in w.caches
               && w.caches[sid] == CachesAfter(m, ch, ch.phase.pos, ch.phase.x, |ch.path|, |ch.path| + 1)
    ensures Moved(m, c, c2, root)
  {
    hide Suspended, Shaped, RootPlaced, NoMessage, PinnedAt, CachesMatch, MessageMatches, OutputsMatch, CachesAfter,
         Owned,
         Pinned, Linked, HoldsCaches;
    var ch := c.chains[root];
    ShapeKept(m, c, c2, root, ch);
    forall i | 0 <= i < |ch.hops| && ch.hops[i].local.Some?
      ensures HoldsCaches(c2, ch.hops[i], CachesAfter(m, ch, ch.phase.pos, ch.phase.x, i, |ch.path| + 1))
    {
      CachesOfHop(m, c, c2, root, n, sid, req, w, i);
    }
    ForwardPlaced(c, c2, root, n, w);
  }

  /** Structure survives a change of cache contents. */
  lemma ShapeKept(m: LayerModel, c: State, c2: State, root: Sid, ch: Chain)
    requires c2.peers.Keys == c.peers.Keys && c2.owner == c.owner
    requires forall n :: n in c.peers ==>
               && c2.peers[n].rpc == c.peers[n].rpc && c2.peers[n].worker.loaded == c.peers[n].worker.loaded
               && c2.peers[n].worker.sessions == c.peers[n].worker.sessions
               && c2.peers[n].worker.caches.Keys == c.peers[n].worker.caches.Keys
    requires Linked(m, c, ch) && Owned(c, root, ch) && Suspended(c, root, ch) && Pinned(c, root, ch)
    requires Removed(ch) == 0 && !Doomed(ch)
    ensures Linked(m, c2, ch) && Owned(c2, root, ch) && Suspended(c2, root, ch)
    ensures forall i :: 0 <= i < |ch.hops| ==> PinnedAt(c2, root, ch, i)
  {
    hide Serves;
    forall i | 0 <= i < |ch.hops|
      ensures PinOk(m, c2, ch.hops[i]) && PinnedAt(c2, root, ch, i)
    {
      assert PinOk(m, c, ch.hops[i]) && PinnedAt(c, root, ch, i);
    }
    forall i | 0 <= i < |ch.path|
      ensures SuspendedAt(c2, root, ch, i)
    {
      assert SuspendedAt(c, root, ch, i);
    }
  }

  lemma CachesOfHop(m: LayerModel, c: State, c2: State, root: Sid, n: Node, sid: Sid, req: Body<Tensor>,
                    w: Worker<Cache>,
                    i: nat)
    requires Handling(m, c, root, n, sid, req) && c.chains[root].phase.Forwarding?
    requires c2 == WithWorker(c, n, w) && Worked1(c.peers[n].worker, w, sid)
    requires i < |c.chains[root].hops| && c.chains[root].hops[i].local.Some?
    requires var ch := c.chains[root];
             i == |ch.path| ==>
               sid in w.caches && w.caches[sid] == CachesAfter(m, ch, ch.phase.pos, ch.phase.x, i, i + 1)
    ensures var ch := c.chains[root];
            HoldsCaches(c2, ch.hops[i], CachesAfter(m, ch, ch.phase.pos, ch.phase.x, i, |ch.path| + 1))
  {
    hide StageAfter, Before, MessageMatches, OutputsMatch, Suspended, Shaped, RootPlaced, NoMessage, PinnedAt;
    var ch := c.chains[root];
    assert c.owner[ch.hops[i].sid] == (root, i) && c.owner[sid] == (root, |ch.path|);
    assert HoldsCaches(c, ch.hops[i], Expected(m, ch, i));
  }

  lemma ForwardPlaced(c: State, c2: State, root: Sid, n: Node, w: Worker<Cache>)
    requires RootPlaced(c, root) && n in c.peers && c2 == WithWorker(c, n, w)
    requires w.sessions == c.peers[n].worker.sessions && w.caches.Keys == c.peers[n].worker.caches.Keys
    ensures RootPlaced(c2, root)
  {
    forall k, s | k in c2.peers && Belongs(c2, s, root)
      ensures s in c2.peers[k].worker.sessions || s in c2.peers[k].worker.caches ==> Located(c2, k, s)
      ensures s in c2.peers[k].worker.caches ==> Cached(c2, s)
    {
      assert Belongs(c, s, root);
      assert s in c.peers[k].worker.sessions || s in c.peers[k].worker.caches ==> Located(c, k, s);
    }
  }

  lemma NextFrom(m: LayerModel, c: State, ch: Chain, k: nat)
    requires Linked(m, c, ch) && k + 1 < |ch.hops|
    ensures ch.hops[k + 1].from == OutLayer(ch.hops[k]) <= m.layers
  {
    assert PinOk(m, c, ch.hops[k + 1]);
  }

  /** What the hops should hold and pass on does not depend on the message in flight. */
  lemma SameBefore(m: LayerModel, ch: Chain, ch': Chain)
    requires ch'.hops == ch.hops && ch'.inputs == ch.inputs && ch'.outputs == ch.outputs && |ch.outputs| <= |ch.inputs|
    ensures Before(m, ch') == Before(m, ch)
    ensures forall pos, x, k :: 0 <= k <= |ch.hops| ==> Through(m, ch', pos, x, k) == Through(m, ch, pos, x, k)
    ensures forall pos, x, i, k: nat :: 0 <= i < |ch.hops| ==>
              CachesAfter(m, ch', pos, x, i, k) == CachesAfter(m, ch, pos, x, i, k)
    ensures OutputsMatch(m, ch') == OutputsMatch(m, ch)
  {
  }

  /** The next hop's turn, or the answer's: the message carries what the chain has computed so far. */
  lemma PassedOn(m: LayerModel, c: State, ch: Chain, ch': Chain, k: nat)
    requires ch.phase.Forwarding? && Counted(ch) && OutputsMatch(m, ch) && k <= |ch.hops|
    requires ch' == ch.(path := ch'.path, msg := ch'.msg) && ch'.msg.Some? && Worked(ch') == k
    requires HoldsAfter(m, c, ch, ch.phase.pos, ch.phase.x, k)
    requires var x := Through(m, ch, ch.phase.pos, ch.phase.x, k);
             match ch'.msg.value
             case Req(_, _, _, body, _) => k < |ch.hops| && body == Forward(ch.phase.pos, x)
             case Res(_, a, _) => a.ok && a.x == Some(x)
    ensures ValuesMatch(m, c, ch')
  {
    SameBefore(m, ch, ch');
    hide Before, Through, CachesAfter, HoldsCaches, OutputsMatch;
    forall i | 0 <= i < |ch'.hops| && ch'.hops[i].local.Some?
      ensures HoldsCaches(c, ch'.hops[i], Expected(m, ch', i))
    {
      assert Expected(m, ch', i) == CachesAfter(m, ch, ch.phase.pos, ch.phase.x, i, k);
    }
  }

  /** The input is done: its output is the chain's, and its caches are what comes before the next input. */
  lemma InputDone(m: LayerModel, c: State, ch: Chain, ch': Chain, y: Tensor)
    requires ch.phase.Forwarding? && Counted(ch) && OutputsMatch(m, ch)
    requires y == Through(m, ch, ch.phase.pos, ch.phase.x, |ch.hops|)
    requires HoldsAfter(m, c, ch, ch.phase.pos, ch.phase.x, |ch.hops|)
    requires ch' == ch.(phase := Idle, msg := None, path := ch'.path, outputs := ch.outputs + [y])
    ensures ValuesMatch(m, c, ch')
  {
    var stages, pos, x := StagesOf(ch.hops), ch.phase.pos, ch.phase.x;
    var init := ch.inputs[..|ch.outputs|];
    assert init + [(pos, x)] == ch.inputs == ch'.inputs[..|ch'.outputs|];
    ChainRunSnoc(m, stages, init, pos, x);
    hide ChainRun, HoldsCaches, ChainThrough, StageAfter;
    forall i | 0 <= i < |ch'.hops| && ch'.hops[i].local.Some?
      ensures HoldsCaches(c, ch'.hops[i], Expected(m, ch', i))
    {
      assert Expected(m, ch', i) == CachesAfter(m, ch, pos, x, i, |ch.hops|);
    }
  }

  /** The embedding goes on to the next hop. */
  lemma ForwardCalls(m: LayerModel, c: State, c2: State, root: Sid, n: Node, sid: Sid, req: Body<Tensor>)
    requires Handling(m, c, root, n, sid, req) && c.chains[root].phase.Forwarding? && Moved(m, c, c2, root)
    requires n in c2.peers && c2.peers[n].rpc == c.peers[n].rpc && RemoteOf(c.chains[root], |c.chains[root].path|).Some?
    ensures var ch := c.chains[root];
            var r, y := RemoteOf(ch, |ch.path|).value, Through(m, ch, ch.phase.pos, ch.phase.x, |ch.path| + 1);
            RootOk(m, Dispatch(c2, n, UpOf(ch), root, req, Call(r.0, r.1, Forward(req.pos, y))), root)
  {
    hide Through, Dispatch, RootOk, PinnedAt, HoldsAfter, CachesMatch, MessageMatches, OutputsMatch, RootPlaced,
         Linked, Owned,
         Suspended, Gathered;
    var ch := c.chains[root];
    var k := |ch.path|;
    var r, y := RemoteOf(ch, k).value, Through(m, ch, ch.phase.pos, ch.phase.x, k + 1);
    var msg := CallMsg(c2, root, n, r.0, r.1, Forward(req.pos, y));
    var ch' := Calling(c2, root, n, msg);
    HopsKept(m, c2, root, ch, ch');
    assert k + 1 < |ch.hops|;
    NextFrom(m, c2, ch, k);
    PinsKept(c2, root, ch, ch');
    PlacedKept(c2, root, ch');
    PassedOn(m, c2, ch, ch', k + 1);
    hide ValuesMatch;
    CallIsOk(m, c2, root, n, req, r.0, r.1, Forward(req.pos, y));
  }

  /** The last hop answers; what it answers is the chain's output. */
  lemma ForwardReplies(m: LayerModel, c: State, c2: State, root: Sid, n: Node, sid: Sid, req: Body<Tensor>)
    requires Handling(m, c, root, n, sid, req) && c.chains[root].phase.Forwarding? && Moved(m, c, c2, root)
    requires RemoteOf(c.chains[root], |c.chains[root].path|).None?
    ensures var ch := c.chains[root];
            var y := Through(m, ch, ch.phase.pos, ch.phase.x, |ch.path| + 1);
            RootOk(m, Answered(c2, UpOf(ch), root, Answer(true, Some(y), NO_SHARES)), root)
  {
    hide Answered, RootOk, SuspendedAt, PinnedAt, HoldsAfter, CachesMatch, RootPlaced, Through, OutputsMatch,
         MessageMatches,
         Linked, Owned, Suspended, Gathered;
    var ch := c.chains[root];
    var y := Through(m, ch, ch.phase.pos, ch.phase.x, |ch.path| + 1);
    var a := Answer(true, Some(y), NO_SHARES);
    var ch' := Replying(c2, root, a);
    assert |ch.path| + 1 == |ch.hops|;
    HopsKept(m, c2, root, ch, ch');
    PinsKept(c2, root, ch, ch');
    PlacedKept(c2, root, ch');
    if UpOf(ch).None? {
      InputDone(m, c2, ch, ch', y);
    } else {
      PassedOn(m, c2, ch, ch', |ch.hops|);
    }
    hide ValuesMatch;
    SuspendedKept(c2, root, ch, ch');
    ReplyIsOk(m, c2, root, a);
  }

  /** The hook refuses the request. */
  lemma ForwardFails(m: LayerModel, c: State, root: Sid, n: Node, sid: Sid, req: Body<Tensor>)
    requires Handling(m, c, root, n, sid, req) && c.chains[root].phase.Forwarding?
    ensures RootOk(m, Answered(c, UpOf(c.chains[root]), root, Refused()), root)
  {
    hide Linked, Shaped, Owned, Pinned, Suspended, RootPlaced, CachesMatch, MessageMatches, OutputsMatch, Answered,
         RootOk;
    FailIsOk(m, c, root, Refused());
  }

  lemma ForwardHop(m: LayerModel, c: State, root: Sid, n: Node, sid: Sid, req: Body<Tensor>, hooks: Hooks)
    requires Handling(m, c, root, n, sid, req) && c.chains[root].phase.Forwarding?
    ensures CacheReady(c.peers[n].worker, sid) && req.Forward?
    ensures var (c2, out) := ForwardHere(m, c, n, sid, req.pos, req.x, hooks);
            RootOk(m, Dispatch(c2, n, UpOf(c.chains[root]), root, req, out), root)
  {
    hide OnForward, Sound, RootOk, RootPlaced, Moved, Linked, Answered, Through, CachesAfter;
    StageIsDone(m, c, root, n, sid, req, hooks);
    var (c2, out) := ForwardHere(m, c, n, sid, req.pos, req.x, hooks);
    var w := OnForward(m, c.peers[n].worker, sid, req.pos, req.x, hooks).0;
    if !hooks.pre {
      assert c2 == c;
      ForwardFails(m, c, root, n, sid, req);
    } else {
      ForwardMoves(m, c, c2, root, n, sid, req, w);
      if RemoteOf(c.chains[root], |c.chains[root].path|).Some? {
        ForwardCalls(m, c, c2, root, n, sid, req);
      } else {
        ForwardReplies(m, c, c2, root, n, sid, req);
      }
    }
  }
}
