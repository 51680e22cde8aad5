/** END, hop by hop, and answers on their way back. */
module ClusterEnd {
  import opened Options
  import opened RouteTables
  import opened Layers
  import opened ModelServices
  import opened Rpc
  import opened Cluster
  import opened ClusterInv
  import opened ClusterFrame
  import opened ClusterProof
  import opened ClusterForward

  // ---------- END ----------

  /** The session is gone at this worker; its caches too unless the hook failed. */
  ghost predicate Removes(w0: Worker<Cache>, w: Worker<Cache>, sid: Sid, all: bool) {
    && w.loaded == w0.loaded && w.sessions == w0.sessions - {sid} && (all ==> sid !in w.caches)
    && (forall s :: s != sid ==> (s in w.caches <==> s in w0.caches))
    && (forall s :: s in w.caches ==> s in w0.caches && w.caches[s] == w0.caches[s])
  }

  /** What the hop whose turn it is does with END. */
  lemma HopEnds(m: LayerModel, c: State, root: Sid, n: Node, sid: Sid, hooks: Hooks)
    requires Handling(m, c, root, n, sid, End) && c.chains[root].phase.Ending?
    ensures var (w, out) := OnEnd<Cache, Tensor>(c.peers[n].worker, sid, hooks);
            var r := RemoteOf(c.chains[root], |c.chains[root].path|);
            && Removes(c.peers[n].worker, w, sid, hooks.pre)
            && out == if !hooks.pre then Reply(Refused())
                      else if r.Some? then Call(r.value.0, r.value.1, End)
                      else Reply(Answer(hooks.post, None, NO_SHARES))
  {
    hide NoMessage, ValuesMatch, Suspended;
    var ch := c.chains[root];
    assert PinnedAt(c, root, ch, |ch.path|);
    assert c.owner[sid] == (root, |ch.path|);
    assert Belongs(c, sid, root);
    assert sid in c.peers[n].worker.caches ==> Cached(c, sid);
  }

  /** With `sid` gone, what is left of the session is pinned from the next hop on. */
  lemma EndMoves(m: LayerModel, c: State, root: Sid, n: Node, sid: Sid, w: Worker<Cache>, ch': Chain)
    requires Handling(m, c, root, n, sid, End) && c.chains[root].phase.Ending?
    requires Removes(c.peers[n].worker, w, sid, true)
    requires var ch := c.chains[root];
             && ch'.hops == ch.hops && ch'.next == ch.next && ch'.inputs == ch.inputs && ch'.outputs == ch.outputs
             && ch'.shares == ch.shares && (ch'.phase.Ending? || ch'.phase.Ended?) && Removed(ch') == |ch.path| + 1
    ensures var c2 := WithWorker(c, n, w);
            && Linked(m, c2, ch') && Shaped(m, ch') && Owned(c2, root, ch') && Pinned(c2, root, ch')
            && Suspended(c2, root, c.chains[root]) && ValuesMatch(m, c2, ch')
  {
    hide RootPlaced, NoMessage, Located, ValuesMatch, Removed, Doomed, Serves, Gathered, PinnedAt;
    var ch, c2 := c.chains[root], WithWorker(c, n, w);
    EndingIsShaped(m, c, root, n, sid, ch');
    EndShape(m, c, c2, root, ch, ch');
    forall i | |ch.path| + 1 <= i < |ch.hops|
      ensures PinnedAt(c2, root, ch', i)
    {
      EndPins(m, c, root, n, sid, w, ch', i);
    }
    EndValues(m, c, root, n, sid, w, ch');
  }

  lemma EndingIsShaped(m: LayerModel, c: State, root: Sid, n: Node, sid: Sid, ch': Chain)
    requires Handling(m, c, root, n, sid, End)
    requires ch'.hops == c.chains[root].hops && ch'.next == c.chains[root].next && ch'.shares == c.chains[root].shares
    ensures Shaped(m, ch')
  {
    hide RootPlaced, NoMessage, ValuesMatch, Linked, Owned, Pinned, Suspended, Gathered;
  }

  /** Sessions and caches may go; the rest of the structure stays. */
  lemma EndShape(m: LayerModel, c: State, c2: State, root: Sid, ch: Chain, ch': Chain)
    requires c2.peers.Keys == c.peers.Keys && c2.owner == c.owner
    requires forall n :: n in c.peers ==>
               c2.peers[n].rpc == c.peers[n].rpc && c2.peers[n].worker.loaded == c.peers[n].worker.loaded
    requires Linked(m, c, ch) && Owned(c, root, ch) && Suspended(c, root, ch) && ch'.hops == ch.hops
    requires ch'.next == ch.next
    ensures Linked(m, c2, ch') && Owned(c2, root, ch') && Suspended(c2, root, ch)
  {
    hide Serves;
    forall i | 0 <= i < |ch.hops|
      ensures PinOk(m, c2, ch'.hops[i])
    {
      assert PinOk(m, c, ch.hops[i]);
    }
    forall i | 0 <= i < |ch.path|
      ensures SuspendedAt(c2, root, ch, i)
    {
      assert SuspendedAt(c, root, ch, i);
    }
  }

  lemma EndPins(m: LayerModel, c: State, root: Sid, n: Node, sid: Sid, w: Worker<Cache>, ch': Chain, i: nat)
    requires Handling(m, c, root, n, sid, End) && c.chains[root].phase.Ending?
    requires Removes(c.peers[n].worker, w, sid, true)
    requires ch'.hops == c.chains[root].hops && ch'.next == c.chains[root].next
    requires |c.chains[root].path| < i < |ch'.hops|
    ensures var c2 := WithWorker(c, n, w);
            && PinnedAt(c2, root, ch', i)
            && forall caches :: HoldsCaches(c, ch'.hops[i], caches) ==> HoldsCaches(c2, ch'.hops[i], caches)
  {
    hide RootPlaced, NoMessage, ValuesMatch, Linked, Suspended, Shaped;
    var ch := c.chains[root];
    assert PinnedAt(c, root, ch, i);
    assert c.owner[ch.hops[i].sid] == (root, i) && c.owner[sid] == (root, |ch.path|);
  }

  lemma EndValues(m: LayerModel, c: State, root: Sid, n: Node, sid: Sid, w: Worker<Cache>, ch': Chain)
    requires Handling(m, c, root, n, sid, End) && c.chains[root].phase.Ending?
    requires Removes(c.peers[n].worker, w, sid, true)
    requires var ch := c.chains[root];
             && ch'.hops == ch.hops && ch'.next == ch.next && ch'.inputs == ch.inputs && ch'.outputs == ch.outputs
             && (ch'.phase.Ending? || ch'.phase.Ended?) && Removed(ch') == |ch.path| + 1
    ensures ValuesMatch(m, WithWorker(c, n, w), ch')
  {
    hide RootPlaced, NoMessage, PinnedAt, Suspended, Shaped, Linked, Owned, Pinned, HoldsCaches;
    var ch, c2 := c.chains[root], WithWorker(c, n, w);
    SameBefore(m, ch, ch');
    hide Before, OutputsMatch;
    forall i | |ch.path| + 1 <= i < |ch'.hops| && ch'.hops[i].local.Some?
      ensures HoldsCaches(c2, ch'.hops[i], Expected(m, ch', i))
    {
      EndPins(m, c, root, n, sid, w, ch', i);
      assert HoldsCaches(c, ch.hops[i], Expected(m, ch, i));
    }
  }

  /** Nothing of a torn-down hop is left at any node. */
  lemma EndPlaces(m: LayerModel, c: State, root: Sid, n: Node, sid: Sid, w: Worker<Cache>, ch': Chain)
    requires Handling(m, c, root, n, sid, End) && c.chains[root].phase.Ending?
    requires Removes(c.peers[n].worker, w, sid, true)
    requires ch'.hops == c.chains[root].hops && Removed(ch') == |c.chains[root].path| + 1
    ensures RootPlaced(WithChain(WithWorker(c, n, w), root, ch'), root)
  {
    hide NoMessage, ValuesMatch, Suspended, Linked, Pinned, Shaped;
    var ch, c' := c.chains[root], WithChain(WithWorker(c, n, w), root, ch');
    var k := |ch.path|;
    assert c.owner[sid] == (root, k) && ch.hops[k].node == n && ch.hops[k].sid == sid;
    forall p, s | p in c'.peers && Belongs(c', s, root)
      ensures s in c'.peers[p].worker.sessions || s in c'.peers[p].worker.caches ==> Located(c', p, s)
      ensures s in c'.peers[p].worker.caches ==> Cached(c', s)
    {
      assert Belongs(c, s, root);
      assert s in c.peers[p].worker.sessions || s in c.peers[p].worker.caches ==> Located(c, p, s);
      assert s in c.peers[p].worker.caches ==> Cached(c, s);
    }
  }

  lemma EndCalls(m: LayerModel, c: State, root: Sid, n: Node, sid: Sid, w: Worker<Cache>)
    requires Handling(m, c, root, n, sid, End) && c.chains[root].phase.Ending?
    requires Removes(c.peers[n].worker, w, sid, true)
    requires RemoteOf(c.chains[root], |c.chains[root].path|).Some?
    ensures var ch := c.chains[root];
            var r := RemoteOf(ch, |ch.path|).value;
            RootOk(m, Dispatch(WithWorker(c, n, w), n, UpOf(ch), root, End, Call(r.0, r.1, End)), root)
  {
    hide RootPlaced, RootOk, Dispatch, Linked, Owned, Pinned, Suspended, ValuesMatch, Removes, Gathered;
    var ch, c2 := c.chains[root], WithWorker(c, n, w);
    var k := |ch.path|;
    var r := RemoteOf(ch, k).value;
    var msg := CallMsg(c2, root, n, r.0, r.1, End);
    var ch' := Calling(c2, root, n, msg);
    assert k + 1 < |ch.hops|;
    EndMoves(m, c, root, n, sid, w, ch');
    EndPlaces(m, c, root, n, sid, w, ch');
    CallIsOk(m, c2, root, n, End, r.0, r.1, End);
  }

  lemma EndReplies(m: LayerModel, c: State, root: Sid, n: Node, sid: Sid, w: Worker<Cache>)
    requires Handling(m, c, root, n, sid, End) && c.chains[root].phase.Ending?
    requires Removes(c.peers[n].worker, w, sid, true)
    requires RemoteOf(c.chains[root], |c.chains[root].path|).None?
    ensures RootOk(m, Answered(WithWorker(c, n, w), UpOf(c.chains[root]), root, Answer(true, None, NO_SHARES)), root)
  {
    hide RootPlaced, RootOk, Answered, Linked, Owned, Pinned, Suspended, ValuesMatch, Removes, Gathered;
    var ch, c2, a := c.chains[root], WithWorker(c, n, w), Answer(true, None, NO_SHARES);
    var ch' := Replying(c2, root, a);
    EndMoves(m, c, root, n, sid, w, ch');
    EndPlaces(m, c, root, n, sid, w, ch');
    SuspendedKept(c2, root, ch, ch');
    ReplyIsOk(m, c2, root, a);
  }

  /** A hook fails here: what is torn down so far stays torn down. */
  lemma EndFails(m: LayerModel, c: State, root: Sid, n: Node, sid: Sid, w: Worker<Cache>, all: bool, a: Answer<Tensor>)
    requires Handling(m, c, root, n, sid, End) && c.chains[root].phase.Ending?
    requires Removes(c.peers[n].worker, w, sid, all)
    requires !a.ok
    ensures RootOk(m, Answered(WithWorker(c, n, w), UpOf(c.chains[root]), root, a), root)
  {
    hide Answered, RootOk, Pinned, CachesMatch, MessageMatches, OutputsMatch, RootPlaced, Gathered;
    var ch, c2 := c.chains[root], WithWorker(c, n, w);
    EndShape(m, c, c2, root, ch, ch);
    FewerPlaced(c, c2, root, n, w);
    hide Linked, Owned, Suspended, Removes;
    FailIsOk(m, c2, root, a);
  }

  lemma FewerPlaced(c: State, c2: State, root: Sid, n: Node, w: Worker<Cache>)
    requires RootPlaced(c, root) && n in c.peers && c2 == WithWorker(c, n, w)
    requires w.sessions.Keys <= c.peers[n].worker.sessions.Keys && w.caches.Keys <= c.peers[n].worker.caches.Keys
    ensures RootPlaced(c2, root)
  {
    forall k, s | k in c2.peers && Belongs(c2, s, root)
      ensures s in c2.peers[k].worker.sessions || s in c2.peers[k].worker.caches ==> Located(c2, k, s)
      ensures s in c2.peers[k].worker.caches ==> Cached(c2, s)
    {
      assert Belongs(c, s, root);
      assert s in c.peers[k].worker.sessions || s in c.peers[k].worker.caches ==> Located(c, k, s);
    }
  }

  lemma EndHop(m: LayerModel, c: State, root: Sid, n: Node, sid: Sid, hooks: Hooks)
    requires Handling(m, c, root, n, sid, End) && c.chains[root].phase.Ending?
    ensures var (c2, out) := EndHere(c, n, sid, hooks);
            RootOk(m, Dispatch(c2, n, UpOf(c.chains[root]), root, End, out), root)
  {
    hide RootPlaced, RootOk, Answered, Sound, Removes, OnEnd;
    HopEnds(m, c, root, n, sid, hooks);
    var w := OnEnd<Cache, Tensor>(c.peers[n].worker, sid, hooks).0;
    if !hooks.pre {
      EndFails(m, c, root, n, sid, w, false, Refused());
    } else if RemoteOf(c.chains[root], |c.chains[root].path|).Some? {
      EndCalls(m, c, root, n, sid, w);
    } else if hooks.post {
      EndReplies(m, c, root, n, sid, w);
    } else {
      EndFails(m, c, root, n, sid, w, true, Answer(false, None, NO_SHARES));
    }
  }

  // ---------- answers ----------

  /** The suspended calls of a session are all different. */
  lemma {:induction false} PathDistinct(c: State, root: Sid, ch: Chain, i: nat, j: nat)
    requires Suspended(c, root, ch) && i < j < |ch.path|
    ensures ch.path[i] != ch.path[j]
    decreases i
  {
    assert SuspendedAt(c, root, ch, i) && SuspendedAt(c, root, ch, j);
    if i > 0 {
      PathDistinct(c, root, ch, i - 1, j - 1);
    }
  }

  /** The state in which the answer has been matched with its waiter. */
  function Matched(c: State, msg: Msg): State
    requires msg.Res? && msg.dest.node in c.peers && msg.root in c.chains
  {
    var ch := c.chains[msg.root];
    var rpc := Resolve(c.peers[msg.dest.node].rpc, msg.dest.no).0;
    var peers := c.peers[msg.dest.node := c.peers[msg.dest.node].(rpc := rpc)];
    WithChain(c.(net := c.net - {msg}, peers := peers), msg.root,
              ch.(path := if ch.path == [] then [] else ch.path[..|ch.path| - 1]))
  }

  /** The waiter found under the number of an answer is the caller suspended for that very session and request. */
  lemma AnswerFindsCaller(m: LayerModel, c: State, msg: Msg)
    requires Inv(m, c) && msg in c.net && msg.Res?
    ensures msg.root in c.chains && msg.dest.node in c.peers && c.chains[msg.root].msg == Some(msg)
    ensures Active(c.chains[msg.root])
    ensures msg.dest.no in c.peers[msg.dest.node].rpc.waits
    ensures var ch, w := c.chains[msg.root], c.peers[msg.dest.node].rpc.waits[msg.dest.no];
            && w.root == msg.root && w.up == UpOf(Matched(c, msg).chains[msg.root])
            && 0 < |ch.path| <= |ch.hops| && ch.hops[|ch.path| - 1].node == msg.dest.node
            && Serves(msg.root, ch, |ch.path| - 1, w.req)
  {
    hide ValuesMatch, Linked, Owned, Pinned, Shaped, Located, Cached, Serves, Gathered;
    var ch := c.chains[msg.root];
    assert ChainInv(m, c, msg.root);
    assert SuspendedAt(c, msg.root, ch, |ch.path| - 1);
  }

  lemma MatchedTouches(m: LayerModel, c: State, msg: Msg)
    requires Inv(m, c) && msg in c.net && msg.Res?
    ensures msg.root in c.chains && msg.dest.node in c.peers && Touches(c, Matched(c, msg), msg.root)
  {
    hide ChainInv, Located, Cached, SameAt;
    AnswerFindsCaller(m, c, msg);
    var root, c' := msg.root, Matched(c, msg);
    forall n | n in c.peers
      ensures RpcKept(c.peers[n].rpc, c'.peers[n].rpc, root)
    {
    }
    forall n, sid | n in c.peers
      ensures SameAt(c.peers[n].worker, c'.peers[n].worker, sid)
    {
      SameWorker(c.peers[n].worker, sid);
    }
  }

  lemma SameWorker(w: Worker<Cache>, sid: Sid)
    ensures SameAt(w, w, sid)
  {
  }

  /** After the match the session is as sound as before, one suspended call shorter. */
  lemma MatchedSuspended(m: LayerModel, c: State, msg: Msg)
    requires Inv(m, c) && msg in c.net && msg.Res?
    ensures msg.root in c.chains && msg.dest.node in c.peers
    ensures var c' := Matched(c, msg); Suspended(c', msg.root, c'.chains[msg.root])
  {
    hide ValuesMatch, Linked, Owned, Pinned, Shaped, Located, Cached, Serves, Gathered;
    AnswerFindsCaller(m, c, msg);
    var root, c' := msg.root, Matched(c, msg);
    var ch, ch' := c.chains[root], c'.chains[root];
    assert ChainInv(m, c, root);
    forall i | 0 <= i < |ch'.path|
      ensures SuspendedAt(c', root, ch', i)
    {
      assert SuspendedAt(c, root, ch, i);
      PathDistinct(c, root, ch, i, |ch.path| - 1);
      ServesKept(root, ch, ch', i, c.peers[ch.path[i].node].rpc.waits[ch.path[i].no].req);
    }
  }

  lemma ServesKept(root: Sid, ch: Chain, ch': Chain, i: nat, req: Body<Tensor>)
    requires i < |ch.hops| && ch'.hops == ch.hops && ch'.phase == ch.phase
    ensures Serves(root, ch', i, req) == Serves(root, ch, i, req)
  {
  }

  /** Structure and pins do not look at RPC state, and not at what a session waits for. */
  lemma AnswerPins(m: LayerModel, c: State, c': State, root: Sid, ch: Chain, ch': Chain)
    requires c'.peers.Keys == c.peers.Keys && c'.owner == c.owner
    requires forall n :: n in c.peers ==> c'.peers[n].worker == c.peers[n].worker
    requires Linked(m, c, ch) && Owned(c, root, ch)
    requires ch'.hops == ch.hops && ch'.next == ch.next
    ensures Linked(m, c', ch') && Owned(c', root, ch')
    ensures Pinned(c, root, ch) && !Doomed(ch) && Removed(ch') >= Removed(ch) ==> Pinned(c', root, ch')
  {
    hide Doomed, Removed;
    forall i | 0 <= i < |ch.hops|
      ensures PinOk(m, c', ch'.hops[i])
    {
      assert PinOk(m, c, ch.hops[i]);
    }
    if !Doomed(ch) && Pinned(c, root, ch) && Removed(ch') >= Removed(ch) {
      forall i | Removed(ch') <= i < |ch.hops|
        ensures PinnedAt(c', root, ch', i)
      {
        assert PinnedAt(c, root, ch, i);
      }
    }
  }

  lemma WorkersPlace(c: State, c': State, root: Sid, ch': Chain)
    requires root in c.chains && RootPlaced(c, root) && c'.peers.Keys == c.peers.Keys && c'.owner == c.owner
    requires forall n :: n in c.peers ==> c'.peers[n].worker == c.peers[n].worker
    requires ch'.hops == c.chains[root].hops && Removed(ch') <= Removed(c.chains[root])
    ensures RootPlaced(WithChain(c', root, ch'), root)
  {
    PlacedKept(c, root, ch');
    var d, d' := WithChain(c, root, ch'), WithChain(c', root, ch');
    forall n, sid | n in d'.peers && Belongs(d', sid, root)
      ensures sid in d'.peers[n].worker.sessions || sid in d'.peers[n].worker.caches ==> Located(d', n, sid)
      ensures sid in d'.peers[n].worker.caches ==> Cached(d', sid)
    {
      assert Belongs(d, sid, root);
      assert sid in d.peers[n].worker.sessions || sid in d.peers[n].worker.caches ==> Located(d, n, sid);
    }
  }

  lemma RootChain(m: LayerModel, c: State, root: Sid)
    requires Inv(m, c) && root in c.chains
    ensures ChainInv(m, c, root)
    ensures forall n :: n in c.peers ==> c.peers[n].rpc.Valid() && c.peers[n].worker.loaded.hi <= m.layers
  {
    hide ChainInv, Located, Cached;
  }

  lemma RootIsPlaced(m: LayerModel, c: State, root: Sid)
    requires Inv(m, c)
    ensures RootPlaced(c, root)
  {
    hide ChainInv, Located, Cached;
  }

  lemma OneMessage(m: LayerModel, c: State, msg: Msg)
    requires Inv(m, c) && msg in c.net
    ensures NoMessage(c.(net := c.net - {msg}), msg.root)
  {
    hide ChainInv, Located, Cached;
  }

  /** The answer the resumed call gives in its turn. */
  function Passing(c: State, msg: Msg, post: bool): Answer<Tensor>
    requires msg.Res? && msg.dest.node in c.peers && msg.dest.no in c.peers[msg.dest.node].rpc.waits
  {
    var p := c.peers[msg.dest.node];
    Post(post, p.rpc.waits[msg.dest.no].req, msg.answer, msg.dest.node, p.worker.loaded.hi)
  }

  /** What a successful answer says, and still says once the resumed call has passed it on. */
  lemma PassingSays(m: LayerModel, c: State, msg: Msg, post: bool)
    requires Inv(m, c) && msg in c.net && msg.Res?
    ensures msg.root in c.chains && msg.dest.node in c.peers && msg.dest.no in c.peers[msg.dest.node].rpc.waits
    ensures var ch, a := c.chains[msg.root], Passing(c, msg, post);
            && 0 < |ch.path| <= |ch.hops| && a.x == msg.answer.x
            && (a.ok ==> msg.answer.ok)
            && (ch.phase.Starting? && a.ok ==>
                  && Whole(m, ch) && msg.answer.shares == Gathered(ch.hops, |ch.path| - 1)
                  && a.shares == Gathered(ch.hops, if |ch.path| == 1 then 0 else |ch.path| - 2))
            && (ch.phase.Forwarding? && a.ok ==> a.x.Some?)
  {
    hide Inv;
    AnswerFindsCaller(m, c, msg);
    RootChain(m, c, msg.root);
    hide ValuesMatch, Owned, Pinned, Suspended, Shaped;
    var ch := c.chains[msg.root];
    assert PinOk(m, c, ch.hops[|ch.path| - 1]);
  }

  /** The answer is spoiled on the way, or was a refusal all along. */
  lemma ResumeFails(m: LayerModel, c: State, msg: Msg, post: bool)
    requires Inv(m, c) && msg in c.net && msg.Res?
    ensures msg.root in c.chains && msg.dest.node in c.peers && msg.dest.no in c.peers[msg.dest.node].rpc.waits
    ensures !Passing(c, msg, post).ok ==>
              var c' := Matched(c, msg);
              RootOk(m, Answered(c', UpOf(c'.chains[msg.root]), msg.root, Passing(c, msg, post)), msg.root)
  {
    hide Inv, Linked, Owned, Pinned, Suspended, RootPlaced, Answered, RootOk, CachesMatch, OutputsMatch, Gathered,
         Passing;
    AnswerFindsCaller(m, c, msg);
    MatchedSuspended(m, c, msg);
    var root, c' := msg.root, Matched(c, msg);
    var ch, popped := c.chains[root], c'.chains[root];
    RootChain(m, c, root);
    AnswerPins(m, c, c', root, ch, popped);
    RootIsPlaced(m, c, root);
    hide InFlight;
    RemovedShrinks(ch, popped);
    WorkersPlace(c, c', root, popped);
    assert WithChain(c', root, popped) == c';
    OneMessage(m, c, msg);
    SameOutputs(m, ch, popped);
    if !Passing(c, msg, post).ok {
      FailIsOk(m, c', root, Passing(c, msg, post));
    }
  }

  lemma RemovedShrinks(ch: Chain, popped: Chain)
    requires ch.msg.Some? && ch.msg.value.Res? && popped == ch.(path := popped.path)
    ensures Removed(popped) == Removed(ch)
  {
  }

  lemma SameOutputs(m: LayerModel, ch: Chain, popped: Chain)
    requires popped == ch.(path := popped.path) && |ch.outputs| <= |ch.inputs|
    ensures OutputsMatch(m, popped) == OutputsMatch(m, ch)
  {
  }

  /** The answer goes further up. */
  lemma ResumeUp(m: LayerModel, c: State, msg: Msg, post: bool)
    requires Inv(m, c) && msg in c.net && msg.Res? && msg.root in c.chains && msg.dest.node in c.peers
    requires UpOf(Matched(c, msg).chains[msg.root]).Some? && msg.dest.no in c.peers[msg.dest.node].rpc.waits
    requires Passing(c, msg, post).ok
    ensures var c' := Matched(c, msg);
            RootOk(m, Answered(c', UpOf(c'.chains[msg.root]), msg.root, Passing(c, msg, post)), msg.root)
  {
    hide Inv, ValuesMatch, Linked, Owned, Pinned, Suspended, RootPlaced, Answered, RootOk, Passing, Gathered;
    AnswerFindsCaller(m, c, msg);
    PassingSays(m, c, msg, post);
    MatchedSuspended(m, c, msg);
    var root, c', a := msg.root, Matched(c, msg), Passing(c, msg, post);
    var ch := c.chains[root];
    RootChain(m, c, root);
    var ch' := Replying(c', root, a);
    AnswerPins(m, c, c', root, ch, ch');
    AnswerValues(m, c, c', ch, ch');
    SuspendedKept(c', root, c'.chains[root], ch');
    RootIsPlaced(m, c, root);
    WorkersPlace(c, c', root, ch');
    assert WithChain(c', root, ch') == WithChain(WithChain(c', root, c'.chains[root]), root, ch');
    OneMessage(m, c, msg);
    ReplyIsOk(m, c', root, a);
  }

  /** Passing an answer on changes no cache and no output. */
  lemma AnswerValues(m: LayerModel, c: State, c': State, ch: Chain, ch': Chain)
    requires ValuesMatch(m, c, ch) && c'.peers.Keys == c.peers.Keys
    requires forall n :: n in c.peers ==> c'.peers[n].worker == c.peers[n].worker
    requires Active(ch) && ch.msg.Some? && ch.msg.value.Res? && ch.msg.value.answer.ok
    requires ch' == ch.(path := ch'.path, msg := ch'.msg) && ch'.msg.Some? && ch'.msg.value.Res?
    requires ch'.msg.value.answer.ok
    requires ch'.msg.value.answer.x == ch.msg.value.answer.x
    ensures ValuesMatch(m, c', ch')
  {
    SameBefore(m, ch, ch');
    hide Before, Through, OutputsMatch, CachesAfter, HoldsCaches;
    forall i | Removed(ch') <= i < |ch'.hops| && ch'.hops[i].local.Some?
      ensures HoldsCaches(c', ch'.hops[i], Expected(m, ch', i))
    {
      assert HoldsCaches(c, ch.hops[i], Expected(m, ch, i));
      HeldElsewhere(c, c', ch.hops[i], Expected(m, ch, i));
    }
  }

  lemma HeldElsewhere(c: State, c': State, h: Pin, caches: seq<Cache>)
    requires HoldsCaches(c, h, caches) && c'.peers.Keys == c.peers.Keys
    requires forall n :: n in c.peers ==> c'.peers[n].worker == c.peers[n].worker
    ensures HoldsCaches(c', h, caches)
  {
  }

  /** The answer reaches the caller of the session. */
  lemma FinishValues(m: LayerModel, c: State, c': State, ch: Chain, ch': Chain, a: Answer<Tensor>)
    requires ValuesMatch(m, c, ch) && c'.peers.Keys == c.peers.Keys
    requires forall n :: n in c.peers ==> c'.peers[n].worker == c.peers[n].worker
    requires Active(ch) && ch.msg.Some? && ch.msg.value.Res? && ch.msg.value.answer.ok && a.ok
    requires a.x == ch.msg.value.answer.x && (ch.phase.Forwarding? ==> a.x.Some?)
    requires ch' == Finish(ch.(path := []), a)
    ensures ValuesMatch(m, c', ch')
  {
    hide RunLayers, ChainRun, StageAfter, Through, HoldsCaches, CachesAfter;
    if ch.phase.Forwarding? {
      forall i | 0 <= i < |ch.hops| && ch.hops[i].local.Some?
        ensures HoldsCaches(c', ch.hops[i], CachesAfter(m, ch, ch.phase.pos, ch.phase.x, i, |ch.hops|))
      {
        assert HoldsCaches(c, ch.hops[i], Expected(m, ch, i));
        HeldElsewhere(c, c', ch.hops[i], Expected(m, ch, i));
      }
      InputDone(m, c', ch, ch', a.x.value);
    } else {
      SameBefore(m, ch, ch');
      forall i | Removed(ch') <= i < |ch'.hops| && ch'.hops[i].local.Some?
        ensures HoldsCaches(c', ch'.hops[i], Expected(m, ch', i))
      {
        assert HoldsCaches(c, ch.hops[i], Expected(m, ch, i));
        HeldElsewhere(c, c', ch.hops[i], Expected(m, ch, i));
      }
    }
  }

  lemma ResumeRoot(m: LayerModel, c: State, msg: Msg, post: bool)
    requires Inv(m, c) && msg in c.net && msg.Res? && msg.root in c.chains && msg.dest.node in c.peers
    requires UpOf(Matched(c, msg).chains[msg.root]).None? && msg.dest.no in c.peers[msg.dest.node].rpc.waits
    requires Passing(c, msg, post).ok
    ensures RootOk(m, Answered(Matched(c, msg), None, msg.root, Passing(c, msg, post)), msg.root)
  {
    hide Inv, ValuesMatch, Linked, Owned, Pinned, Suspended, RootPlaced, Answered, RootOk, Passing, Gathered;
    AnswerFindsCaller(m, c, msg);
    PassingSays(m, c, msg, post);
    MatchedSuspended(m, c, msg);
    var root, c', a := msg.root, Matched(c, msg), Passing(c, msg, post);
    var ch, popped := c.chains[root], c'.chains[root];
    RootChain(m, c, root);
    assert popped == ch.(path := []);
    var ch' := Replying(c', root, a);
    AnswerPins(m, c, c', root, ch, ch');
    FinishValues(m, c, c', ch, ch', a);
    SuspendedKept(c', root, popped, ch');
    RootIsPlaced(m, c, root);
    WorkersPlace(c, c', root, ch');
    assert WithChain(c', root, ch') == WithChain(WithChain(c', root, popped), root, ch');
    OneMessage(m, c, msg);
    ReplyIsOk(m, c', root, a);
  }
}
