/** A step of one session touches nothing that belongs to another. */
module ClusterFrame {
  import opened Options
  import opened RouteTables
  import opened Layers
  import opened ModelServices
  import opened Rpc
  import opened Cluster
  import opened ClusterInv

  /** A session id that belongs to session `root`. */
  predicate Belongs(c: State, sid: Sid, root: Sid) {
    sid in c.owner && c.owner[sid].0 == root
  }

  ghost predicate RpcKept(r: Waits<Waiter>, r': Waits<Waiter>, root: Sid) {
    r'.Valid() && forall q :: q in r.waits && r.waits[q].root != root ==> q in r'.waits && r'.waits[q] == r.waits[q]
  }

  /** Only what belongs to session `root` changed. */
  ghost predicate Touches(c: State, c': State, root: Sid) {
    && c'.peers.Keys == c.peers.Keys && c'.chains.Keys == c.chains.Keys + {root}
    && (forall r :: r in c.chains && r != root ==> c'.chains[r] == c.chains[r])
    && (forall n :: n in c.peers ==>
          && c'.peers[n].worker.loaded == c.peers[n].worker.loaded
          && RpcKept(c.peers[n].rpc, c'.peers[n].rpc, root))
    && (forall sid :: sid in c.owner ==> sid in c'.owner && c'.owner[sid] == c.owner[sid])
    && (forall sid :: sid in c'.owner ==> sid in c.owner || c'.owner[sid].0 == root)
    && (forall n, sid :: n in c.peers && !Belongs(c', sid, root) ==> SameAt(c.peers[n].worker, c'.peers[n].worker, sid))
    && (forall msg: Msg :: msg.root != root ==> (msg in c.net <==> msg in c'.net))
  }

  /** What the invariant asks of session `root` itself. */
  ghost predicate RootOk(m: LayerModel, c: State, root: Sid) {
    && ChainInv(m, c, root)
    && (forall msg :: msg in c.net && msg.root == root ==> c.chains[root].msg == Some(msg))
    && RootPlaced(c, root)
  }

  ghost predicate RootPlaced(c: State, root: Sid) {
    forall n, sid :: n in c.peers && Belongs(c, sid, root) ==>
      && (sid in c.peers[n].worker.sessions || sid in c.peers[n].worker.caches ==> Located(c, n, sid))
      && (sid in c.peers[n].worker.caches ==> Cached(c, sid))
  }

  lemma TouchesSame(m: LayerModel, c: State, c': State, root: Sid, r: Sid)
    requires Inv(m, c) && Touches(c, c', root) && r in c.chains && r != root
    ensures SameFor(c, c', r)
  {
    hide ChainInv, SameAt;
    forall sid | sid in c.owner && c.owner[sid].0 == r
      ensures sid in c'.owner && c'.owner[sid] == c.owner[sid]
      ensures forall n :: n in c.peers ==> n in c'.peers && SameAt(c.peers[n].worker, c'.peers[n].worker, sid)
    {
      assert !Belongs(c', sid, root);
    }
    forall n, q | n in c.peers && q in c.peers[n].rpc.waits && c.peers[n].rpc.waits[q].root == r
      ensures n in c'.peers && q in c'.peers[n].rpc.waits && c'.peers[n].rpc.waits[q] == c.peers[n].rpc.waits[q]
    {
      assert RpcKept(c.peers[n].rpc, c'.peers[n].rpc, root);
    }
  }

  lemma OthersPlaced(m: LayerModel, c: State, c': State, root: Sid, n: Node, sid: Sid)
    requires Inv(m, c) && Touches(c, c', root) && n in c.peers && !Belongs(c', sid, root)
    ensures sid in c'.peers[n].worker.sessions || sid in c'.peers[n].worker.caches ==> Located(c', n, sid)
    ensures sid in c'.peers[n].worker.caches ==> Cached(c', sid)
  {
    hide ChainInv, RpcKept;
    assert SameAt(c.peers[n].worker, c'.peers[n].worker, sid);
    if sid in c'.peers[n].worker.sessions || sid in c'.peers[n].worker.caches {
      assert Located(c, n, sid);
    }
    if sid in c'.peers[n].worker.caches {
      assert Cached(c, sid);
    }
  }

  lemma TouchKeepsInv(m: LayerModel, c: State, c': State, root: Sid)
    requires Inv(m, c) && Touches(c, c', root) && RootOk(m, c', root)
    ensures Inv(m, c')
  {
    hide ChainInv, SameAt, Located, Cached;
    forall r | r in c'.chains
      ensures ChainInv(m, c', r)
    {
      if r != root {
        TouchesSame(m, c, c', root, r);
        SameForKeeps(m, c, c', r);
      }
    }
    forall n, sid | n in c'.peers
      ensures sid in c'.peers[n].worker.sessions || sid in c'.peers[n].worker.caches ==> Located(c', n, sid)
      ensures sid in c'.peers[n].worker.caches ==> Cached(c', sid)
    {
      if !Belongs(c', sid, root) {
        OthersPlaced(m, c, c', root, n, sid);
      }
    }
    forall n | n in c'.peers
      ensures c'.peers[n].rpc.Valid() && c'.peers[n].worker.loaded.hi <= m.layers
    {
      assert RpcKept(c.peers[n].rpc, c'.peers[n].rpc, root);
    }
    forall msg | msg in c'.net
      ensures msg.root in c'.chains && c'.chains[msg.root].msg == Some(msg)
    {
    }
  }

  // ---------- the building blocks of a step ----------

  lemma SameTwice(w: Worker<Cache>, w1: Worker<Cache>, w2: Worker<Cache>, sid: Sid)
    requires SameAt(w, w1, sid) && SameAt(w1, w2, sid)
    ensures SameAt(w, w2, sid)
  {
  }

  lemma WorkerTouches(c: State, c1: State, root: Sid, n: Node, w: Worker<Cache>, sid: Sid)
    requires Touches(c, c1, root) && n in c1.peers && w.loaded == c1.peers[n].worker.loaded
    requires Belongs(c1, sid, root) && forall s :: s != sid ==> SameAt(c1.peers[n].worker, w, s)
    ensures Touches(c, WithWorker(c1, n, w), root)
  {
    hide RpcKept, SameAt;
    var c' := WithWorker(c1, n, w);
    forall k, s | k in c.peers && !Belongs(c', s, root)
      ensures SameAt(c.peers[k].worker, c'.peers[k].worker, s)
    {
      assert !Belongs(c1, s, root);
      if k == n {
        SameTwice(c.peers[n].worker, c1.peers[n].worker, w, s);
      }
    }
  }

  lemma OwnerTouches(c: State, c1: State, root: Sid, sid: Sid, i: nat)
    requires Touches(c, c1, root) && sid !in c1.owner
    ensures Touches(c, c1.(owner := c1.owner[sid := (root, i)]), root)
  {
    hide RpcKept, SameAt;
    var c' := c1.(owner := c1.owner[sid := (root, i)]);
    forall k, s | k in c.peers && !Belongs(c', s, root)
      ensures SameAt(c.peers[k].worker, c'.peers[k].worker, s)
    {
      assert !Belongs(c1, s, root);
    }
  }

  lemma ChainTouches(c: State, c1: State, root: Sid, ch: Chain, net: set<Msg>)
    requires Touches(c, c1, root) && forall msg: Msg :: msg.root != root ==> (msg in net <==> msg in c1.net)
    ensures Touches(c, WithChain(c1, root, ch).(net := net), root)
  {
    hide RpcKept, SameAt;
    var c' := WithChain(c1, root, ch).(net := net);
    forall k, s | k in c.peers && !Belongs(c', s, root)
      ensures SameAt(c.peers[k].worker, c'.peers[k].worker, s)
    {
      assert !Belongs(c1, s, root);
    }
  }

  lemma AnsweredTouches(c: State, c1: State, up: Option<Pending>, root: Sid, a: Answer<Tensor>)
    requires Touches(c, c1, root) && root in c1.chains
    ensures Touches(c, Answered(c1, up, root, a), root)
  {
    hide Touches, Finish;
    if up.None? {
      ChainTouches(c, c1, root, Finish(c1.chains[root], a), c1.net);
    } else {
      var m := Res(up.value, a, root);
      ChainTouches(c, c1, root, c1.chains[root].(msg := Some(m)), c1.net + {m});
    }
  }

  lemma IssueKeeps(r: Waits<Waiter>, r1: Waits<Waiter>, root: Sid, w: Waiter)
    requires RpcKept(r, r1, root)
    ensures RpcKept(r, Issue(r1, w).0, root)
  {
  }

  lemma IssueTouches(c: State, c1: State, n: Node, root: Sid, waiter: Waiter)
    requires Touches(c, c1, root) && n in c1.peers && waiter.root == root
    ensures Touches(c, c1.(peers := c1.peers[n := c1.peers[n].(rpc := Issue(c1.peers[n].rpc, waiter).0)]), root)
  {
    IssueKeeps(c.peers[n].rpc, c1.peers[n].rpc, root, waiter);
    RpcTouches(c, c1, n, root, Issue(c1.peers[n].rpc, waiter).0);
  }

  lemma RpcTouches(c: State, c1: State, n: Node, root: Sid, rpc: Waits<Waiter>)
    requires Touches(c, c1, root) && n in c1.peers && RpcKept(c.peers[n].rpc, rpc, root)
    ensures Touches(c, c1.(peers := c1.peers[n := c1.peers[n].(rpc := rpc)]), root)
  {
    hide RpcKept, SameAt;
    var c' := c1.(peers := c1.peers[n := c1.peers[n].(rpc := rpc)]);
    forall k | k in c.peers
      ensures c'.peers[k].worker == c1.peers[k].worker && RpcKept(c.peers[k].rpc, c'.peers[k].rpc, root)
    {
    }
    forall k, s | k in c.peers && !Belongs(c', s, root)
      ensures SameAt(c.peers[k].worker, c'.peers[k].worker, s)
    {
      assert !Belongs(c1, s, root);
    }
  }

  lemma DispatchTouches(c: State, c1: State, n: Node, up: Option<Pending>, root: Sid, req: Body<Tensor>,
                        out: Out<Tensor>)
    requires Touches(c, c1, root) && n in c1.peers && root in c1.chains
    ensures Touches(c, Dispatch(c1, n, up, root, req, out), root)
  {
    hide RpcKept, SameAt, Issue, Touches;
    match out
    case Reply(a) => AnsweredTouches(c, c1, up, root, a);
    case Call(dest, sid, body) =>
      var (rpc, q) := Issue(c1.peers[n].rpc, Waiter(root, up, req));
      IssueTouches(c, c1, n, root, Waiter(root, up, req));
      var c2, c' := c1.(peers := c1.peers[n := c1.peers[n].(rpc := rpc)]), Dispatch(c1, n, up, root, req, out);
      ChainTouches(c, c2, root, c'.chains[root], c'.net);
      assert c' == WithChain(c2, root, c'.chains[root]).(net := c'.net);
  }

  lemma TouchesSelf(m: LayerModel, c: State, root: Sid)
    requires Inv(m, c) && root in c.chains
    ensures Touches(c, c, root)
  {
    hide ChainInv;
  }

  lemma ConsumeTouches(m: LayerModel, c: State, msg: Msg)
    requires Inv(m, c) && msg in c.net
    ensures Touches(c, c.(net := c.net - {msg}), msg.root)
  {
    hide ChainInv, RpcKept;
    TouchesSelf(m, c, msg.root);
  }

  lemma StartDiffers(m: LayerModel, w: Worker<Cache>, self: Node, sid: Sid, req: Body<Tensor>, route: Option<RoutePath>,
                     choice: Choice, s: Sid)
    requires req.Start?
    ensures var w' := OnStart<Cache, Tensor>(m, w, self, sid, req.chat, req.from, req.index, route, choice.cacheOk,
                                             choice.nextSid, choice.hooks).0;
            w'.loaded == w.loaded && (s != sid ==> SameAt(w, w', s))
  {
  }

  lemma ForwardDiffers(m: LayerModel, w: Worker<Cache>, sid: Sid, pos: Pos, x: Tensor, hooks: Hooks, s: Sid)
    requires CacheReady(w, sid)
    ensures var w' := OnForward(m, w, sid, pos, x, hooks).0;
            w'.loaded == w.loaded && (s != sid ==> SameAt(w, w', s))
  {
  }

  lemma EndDiffers(w: Worker<Cache>, sid: Sid, hooks: Hooks, s: Sid)
    ensures var w' := OnEnd<Cache, Tensor>(w, sid, hooks).0;
            w'.loaded == w.loaded && (s != sid ==> SameAt(w, w', s))
  {
  }
}
