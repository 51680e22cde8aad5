/** Every event keeps the cluster invariant. */
module ClusterProof {
  import opened Options
  import opened RouteTables
  import opened Layers
  import opened ModelServices
  import opened Rpc
  import opened Cluster
  import opened ClusterInv
  import opened ClusterFrame

  function UpOf(ch: Chain): Option<Pending> {
    if ch.path == [] then None else Some(ch.path[|ch.path| - 1])
  }

  ghost predicate NoMessage(c: State, root: Sid) {
    forall msg: Msg :: msg in c.net ==> msg.root != root
  }

  /** What holds of a chain and the workers, whatever its message. */
  ghost predicate Sound(m: LayerModel, c: State, root: Sid, ch: Chain) {
    && Linked(m, c, ch) && Shaped(m, ch) && Owned(c, root, ch) && Pinned(c, root, ch) && Suspended(c, root, ch)
    && ValuesMatch(m, c, ch)
  }

  /** Hop `|path|` is at node `n` under session id `sid`. */
  predicate AtHop(ch: Chain, n: Node, sid: Sid) {
    |ch.path| < |ch.hops| && ch.hops[|ch.path|].node == n && ch.hops[|ch.path|].sid == sid
  }

  /** The request `req` of session `root` has just been taken off the wire at node `n`, for session id `sid`. */
  ghost predicate Handling(m: LayerModel, c: State, root: Sid, n: Node, sid: Sid, req: Body<Tensor>) {
    && root in c.chains && n in c.peers && c.peers[n].rpc.Valid() && c.peers[n].worker.loaded.hi <= m.layers
    && NoMessage(c, root) && RootPlaced(c, root)
    && var ch := c.chains[root];
    && Sound(m, c, root, ch) && (ch.msg.Some? ==> ch.msg.value.Req?)
    && match ch.phase
       case Starting =>
         |ch.path| == |ch.hops| && ch.next == Some((n, sid)) && EntryOf(ch) < m.layers
         && req == Start(root, EntryOf(ch), |ch.hops|)
       case Forwarding(pos, x) =>
         AtHop(ch, n, sid) && req.Forward? && req.pos == pos && req.x == Through(m, ch, pos, x, |ch.path|)
       case Ending => AtHop(ch, n, sid) && req == End
       case _ => false
  }

  lemma FlightElsewhere(m: LayerModel, c: State, c': State, root: Sid, ch: Chain)
    requires InFlight(m, c, root, ch) && c'.net == c.net
    ensures InFlight(m, c', root, ch)
  {
    hide Whole, OutLayer, Gathered;
  }

  /** The caches a chain should hold do not depend on who else is in the cluster. */
  lemma CachesElsewhere(m: LayerModel, c: State, c': State, ch: Chain)
    requires |ch.outputs| <= |ch.inputs| && CachesMatch(m, c, ch) && c'.peers.Keys == c.peers.Keys
    requires forall n :: n in c.peers ==> c'.peers[n].worker == c.peers[n].worker
    ensures CachesMatch(m, c', ch)
  {
    hide Expected, Removed, Doomed;
  }

  /** Giving a chain its new history. */
  lemma SettleChain(m: LayerModel, c: State, root: Sid, ch: Chain, net: set<Msg>)
    requires Sound(m, c, root, ch) && InFlight(m, c.(net := net), root, ch)
    requires forall msg: Msg :: msg in net && msg.root == root ==> ch.msg == Some(msg)
    requires RootPlaced(WithChain(c, root, ch), root)
    ensures RootOk(m, WithChain(c, root, ch).(net := net), root)
  {
    hide CachesMatch, MessageMatches, OutputsMatch, Removed, Doomed, InFlight, Serves, Gathered;
    var c' := WithChain(c, root, ch).(net := net);
    FlightElsewhere(m, c.(net := net), c', root, ch);
    CachesElsewhere(m, c, c', ch);
    assert Linked(m, c', ch) && Owned(c', root, ch);
    forall i | 0 <= i < |ch.hops| && PinnedAt(c, root, ch, i)
      ensures PinnedAt(c', root, ch, i)
    {
    }
    forall i | 0 <= i < |ch.path|
      ensures SuspendedAt(c', root, ch, i)
    {
      assert SuspendedAt(c, root, ch, i);
    }
    forall n, sid | n in c'.peers && Belongs(c', sid, root)
      ensures sid in c'.peers[n].worker.sessions || sid in c'.peers[n].worker.caches ==> Located(c', n, sid)
      ensures sid in c'.peers[n].worker.caches ==> Cached(c', sid)
    {
      assert Belongs(WithChain(c, root, ch), sid, root);
    }
  }

  /** The request goes on: the call is suspended here and the chain has one more pending hop. */
  function Calling(c: State, root: Sid, n: Node, msg: Msg): Chain
    requires root in c.chains && msg.Req?
  {
    c.chains[root].(path := c.chains[root].path + [msg.from], msg := Some(msg))
  }

  function CallMsg(c: State, root: Sid, n: Node, dest: Node, sid: Sid, body: Body<Tensor>): Msg
    requires n in c.peers
  {
    Req(dest, Pending(n, c.peers[n].rpc.seed + 1), sid, body, root)
  }

  function Suspending(c: State, root: Sid, n: Node, req: Body<Tensor>): State
    requires n in c.peers && root in c.chains
  {
    var waiter := Waiter(root, UpOf(c.chains[root]), req);
    c.(peers := c.peers[n := c.peers[n].(rpc := Issue(c.peers[n].rpc, waiter).0)])
  }

  lemma SuspendingSuspends(c: State, root: Sid, n: Node, req: Body<Tensor>, ch': Chain)
    requires n in c.peers && root in c.chains && c.peers[n].rpc.Valid() && Suspended(c, root, c.chains[root])
    requires var ch := c.chains[root];
             && |ch.path| < |ch'.hops| && ch'.hops[|ch.path|].node == n && ch.hops <= ch'.hops && ch'.phase == ch.phase
             && ch'.path == ch.path + [Pending(n, c.peers[n].rpc.seed + 1)] && Serves(root, ch', |ch.path|, req)
    ensures Suspended(Suspending(c, root, n, req), root, ch')
  {
    var ch, c' := c.chains[root], Suspending(c, root, n, req);
    forall i | 0 <= i < |ch'.path|
      ensures SuspendedAt(c', root, ch', i)
    {
      if i < |ch.path| {
        assert SuspendedAt(c, root, ch, i);
      }
    }
  }

  /** Suspending a call changes no worker. */
  lemma SuspendingKeeps(m: LayerModel, c: State, root: Sid, n: Node, req: Body<Tensor>, ch: Chain)
    requires n in c.peers && root in c.chains
    requires Linked(m, c, ch) && Owned(c, root, ch) && Pinned(c, root, ch) && ValuesMatch(m, c, ch)
    ensures var c' := Suspending(c, root, n, req);
            Linked(m, c', ch) && Owned(c', root, ch) && Pinned(c', root, ch) && ValuesMatch(m, c', ch)
  {
    hide CachesMatch, MessageMatches, OutputsMatch, Removed, Doomed;
    var c' := Suspending(c, root, n, req);
    forall i | 0 <= i < |ch.hops|
      ensures PinOk(m, c', ch.hops[i]) && (PinnedAt(c, root, ch, i) ==> PinnedAt(c', root, ch, i))
    {
      assert PinOk(m, c, ch.hops[i]);
    }
    CachesElsewhere(m, c, c', ch);
  }

  lemma CallIsOk(m: LayerModel, c: State, root: Sid, n: Node, req: Body<Tensor>, dest: Node, sid: Sid,
                 body: Body<Tensor>)
    requires root in c.chains && n in c.peers && c.peers[n].rpc.Valid() && NoMessage(c, root)
    requires var msg := CallMsg(c, root, n, dest, sid, body);
             var ch, ch' := c.chains[root], Calling(c, root, n, msg);
             && Linked(m, c, ch') && Shaped(m, ch') && Owned(c, root, ch') && Pinned(c, root, ch')
             && ValuesMatch(m, c, ch')
             && Suspended(c, root, ch) && |ch.path| < |ch.hops| && ch.hops[|ch.path|].node == n
             && Serves(root, ch', |ch.path|, req)
             && InFlight(m, c.(net := c.net + {msg}), root, ch') && RootPlaced(WithChain(c, root, ch'), root)
    ensures RootOk(m, Dispatch(c, n, UpOf(c.chains[root]), root, req, Call(dest, sid, body)), root)
  {
    hide Linked, Shaped, Owned, Pinned, ValuesMatch, Located, Cached, Serves, Gathered, RootOk, InFlight, Suspended,
         RootPlaced;
    var msg := CallMsg(c, root, n, dest, sid, body);
    var ch, ch', c' := c.chains[root], Calling(c, root, n, msg), Suspending(c, root, n, req);
    SuspendingSuspends(c, root, n, req, ch');
    SuspendingKeeps(m, c, root, n, req, ch');
    PlacedByWorkers(WithChain(c, root, ch'), WithChain(c', root, ch'), root);
    FlightElsewhere(m, c.(net := c.net + {msg}), c'.(net := c.net + {msg}), root, ch');
    SettleChain(m, c', root, ch', c.net + {msg});
    assert Dispatch(c, n, UpOf(ch), root, req, Call(dest, sid, body))
           == WithChain(c', root, ch').(net := c.net + {msg});
  }

  lemma PlacedByWorkers(c: State, c': State, root: Sid)
    requires RootPlaced(c, root) && c'.peers.Keys == c.peers.Keys && c'.chains == c.chains && c'.owner == c.owner
    requires forall n :: n in c.peers ==> c'.peers[n].worker == c.peers[n].worker
    ensures RootPlaced(c', root)
  {
    forall n, sid | n in c'.peers && Belongs(c', sid, root)
      ensures sid in c'.peers[n].worker.sessions || sid in c'.peers[n].worker.caches ==> Located(c', n, sid)
      ensures sid in c'.peers[n].worker.caches ==> Cached(c', sid)
    {
      assert Belongs(c, sid, root);
      assert sid in c.peers[n].worker.sessions || sid in c.peers[n].worker.caches ==> Located(c, n, sid);
    }
  }

  /** The request ends here: its answer goes up, or to the caller. */
  function Replying(c: State, root: Sid, a: Answer<Tensor>): Chain
    requires root in c.chains
  {
    var ch := c.chains[root];
    if UpOf(ch).None? then Finish(ch, a) else ch.(msg := Some(Res(UpOf(ch).value, a, root)))
  }

  lemma ReplyIsOk(m: LayerModel, c: State, root: Sid, a: Answer<Tensor>)
    requires root in c.chains && NoMessage(c, root)
    requires var ch' := Replying(c, root, a);
             && Sound(m, c, root, ch') && RootPlaced(WithChain(c, root, ch'), root)
             && InFlight(m, c.(net := c.net + if ch'.msg.Some? then {ch'.msg.value} else {}), root, ch')
    requires UpOf(c.chains[root]).None? ==> !Active(Replying(c, root, a))
    ensures RootOk(m, Answered(c, UpOf(c.chains[root]), root, a), root)
  {
    hide Sound, InFlight, RootPlaced, RootOk;
    var ch' := Replying(c, root, a);
    var net := c.net + if ch'.msg.Some? then {ch'.msg.value} else {};
    SettleChain(m, c, root, ch', net);
    if UpOf(c.chains[root]).None? {
      assert net == c.net;
    }
    assert Answered(c, UpOf(c.chains[root]), root, a) == WithChain(c, root, ch').(net := net);
  }

  // ---------- what a change of message or phase keeps ----------

  lemma PinsKept(c: State, root: Sid, ch: Chain, ch': Chain)
    requires ch'.hops == ch.hops && ch'.next == ch.next && forall i :: 0 <= i < |ch.hops| ==> PinnedAt(c, root, ch, i)
    ensures Pinned(c, root, ch')
  {
    forall i | 0 <= i < |ch'.hops|
      ensures PinnedAt(c, root, ch', i)
    {
      assert PinnedAt(c, root, ch, i);
    }
  }

  lemma PlacedKept(c: State, root: Sid, ch': Chain)
    requires root in c.chains && RootPlaced(c, root)
    requires ch'.hops == c.chains[root].hops && Removed(ch') <= Removed(c.chains[root])
    ensures RootPlaced(WithChain(c, root, ch'), root)
  {
    var c' := WithChain(c, root, ch');
    forall k, s | k in c'.peers && Belongs(c', s, root)
      ensures s in c'.peers[k].worker.sessions || s in c'.peers[k].worker.caches ==> Located(c', k, s)
      ensures s in c'.peers[k].worker.caches ==> Cached(c', s)
    {
      assert Belongs(c, s, root);
      assert s in c.peers[k].worker.sessions || s in c.peers[k].worker.caches ==> Located(c, k, s);
    }
  }

  lemma SuspendedKept(c: State, root: Sid, ch: Chain, ch': Chain)
    requires Suspended(c, root, ch) && ch'.path == ch.path && ch'.hops == ch.hops
    requires ch'.phase == ch.phase || ch.path == []
    ensures Suspended(c, root, ch')
  {
    forall i | 0 <= i < |ch'.path|
      ensures SuspendedAt(c, root, ch', i)
    {
      assert SuspendedAt(c, root, ch, i);
    }
  }

  lemma HopsKept(m: LayerModel, c: State, root: Sid, ch: Chain, ch': Chain)
    requires Linked(m, c, ch) && Owned(c, root, ch) && ch'.hops == ch.hops && ch'.next == ch.next
    ensures Linked(m, c, ch') && Owned(c, root, ch')
  {
  }

  /** A refusal, or an answer a hook spoiled, leaves the session failing or failed. */
  lemma FailIsOk(m: LayerModel, c: State, root: Sid, a: Answer<Tensor>)
    requires root in c.chains && NoMessage(c, root) && RootPlaced(c, root) && !a.ok
    requires var ch := c.chains[root];
             && Active(ch) && Linked(m, c, ch) && Shaped(m, ch) && Owned(c, root, ch) && Suspended(c, root, ch)
             && Counted(ch) && OutputsMatch(m, ch)
    ensures RootOk(m, Answered(c, UpOf(c.chains[root]), root, a), root)
  {
    hide RootPlaced, Answered, RootOk, Suspended, Linked, Owned, Gathered, ChainRun;
    var ch, ch' := c.chains[root], Replying(c, root, a);
    HopsKept(m, c, root, ch, ch');
    PlacedKept(c, root, ch');
    SuspendedKept(c, root, ch, ch');
    ReplyIsOk(m, c, root, a);
  }
}
