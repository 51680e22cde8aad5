/** START, hop by hop: whatever the routers hold, the pinned hops stay linked. */
module ClusterStart {
  import opened Options
  import opened RouteTables
  import opened Layers
  import opened ModelServices
  import opened Cluster
  import opened ClusterInv
  import opened ClusterFrame
  import opened ClusterProof

  /** What a route says, whatever table it comes from. */
  lemma RouteLeadsOn(table: Table, from: nat)
    requires from < |table.remote| && table.local.hi <= |table.remote| && SelectNext(table, from).Some?
    ensures var r, loaded := SelectNext(table, from).value, table.local;
            && (r.local.Some? ==> loaded.Contains(from) && r.local == Some(Range(from, loaded.hi)))
            && var out := if r.local.Some? then r.local.value.hi else from;
            && (r.remote.Some? ==> r.remote.value.layers.lo == out < |table.remote|)
            && (r.remote.None? ==> out == |table.remote|)
  {
  }

  /** The state after the session is inserted and the hop recorded. */
  function PinHere(c: State, root: Sid, n: Node, w: Worker<Cache>, hop: Pin, next: Option<(Node, Sid)>): State
    requires n in c.peers && root in c.chains
  {
    var ch := c.chains[root];
    var owner := if next.Some? then c.owner[next.value.1 := (root, |ch.hops| + 1)] else c.owner;
    WithChain(WithWorker(c, n, w), root, ch.(hops := ch.hops + [hop], next := next)).(owner := owner)
  }

  ghost predicate PinsHop(c: State, w: Worker<Cache>, root: Sid, n: Node, sid: Sid, hop: Pin, next: Option<(Node, Sid)>)
    requires n in c.peers
  {
    && hop.node == n && hop.sid == sid && hop.loaded == w.loaded == c.peers[n].worker.loaded
    && w.sessions == c.peers[n].worker.sessions[sid := Container(root, hop.local, next)]
    && (forall s :: s != sid ==> (s in w.caches <==> s in c.peers[n].worker.caches))
    && (forall s :: s != sid && s in w.caches ==> w.caches[s] == c.peers[n].worker.caches[s])
    && (sid in w.caches ==> hop.local.Some? || sid in c.peers[n].worker.caches)
    && (next.Some? ==> next.value.1 !in c.owner)
  }

  /** What START finds when it comes to the next hop. */
  ghost predicate StartsAt(m: LayerModel, c: State, root: Sid, n: Node, sid: Sid) {
    && root in c.chains && var ch := c.chains[root];
    && Handling(m, c, root, n, sid, Start(root, EntryOf(ch), |ch.hops|)) && ch.phase.Starting?
  }

  lemma PinLinks(m: LayerModel, c: State, root: Sid, n: Node, sid: Sid, w: Worker<Cache>, hop: Pin,
                 next: Option<(Node, Sid)>)
    requires StartsAt(m, c, root, n, sid) && PinsHop(c, w, root, n, sid, hop, next)
    requires hop.from == EntryOf(c.chains[root])
    requires hop.local.Some? ==> w.loaded.Contains(hop.from) && hop.local == Some(Range(hop.from, w.loaded.hi))
    ensures var c2 := PinHere(c, root, n, w, hop, next);
            var ch2 := c2.chains[root];
            Linked(m, c2, ch2) && Owned(c2, root, ch2) && Suspended(c2, root, ch2)
  {
    hide RootPlaced, NoMessage, ValuesMatch, Pinned, Shaped;
    var ch, c2 := c.chains[root], PinHere(c, root, n, w, hop, next);
    var ch2 := c2.chains[root];
    forall i | 0 <= i < |ch2.hops|
      ensures PinOk(m, c2, ch2.hops[i])
    {
      if i < |ch.hops| {
        assert PinOk(m, c, ch.hops[i]);
      }
    }
    forall i | 0 <= i < |ch2.path|
      ensures SuspendedAt(c2, root, ch2, i)
    {
      assert SuspendedAt(c, root, ch, i);
    }
  }

  lemma PinPlaces(m: LayerModel, c: State, root: Sid, n: Node, sid: Sid, w: Worker<Cache>, hop: Pin,
                  next: Option<(Node, Sid)>)
    requires StartsAt(m, c, root, n, sid) && PinsHop(c, w, root, n, sid, hop, next)
    requires next.Some? ==> forall k :: k in c.peers ==>
               && next.value.1 !in c.peers[k].worker.sessions && next.value.1 !in c.peers[k].worker.caches
               && next.value.1 != sid
    ensures RootPlaced(PinHere(c, root, n, w, hop, next), root)
  {
    hide NoMessage, ValuesMatch, Pinned, Shaped, Linked, Suspended;
    var ch, c2 := c.chains[root], PinHere(c, root, n, w, hop, next);
    assert c.owner[sid] == (root, |ch.hops|);
    forall k, s | k in c2.peers && Belongs(c2, s, root)
      ensures s in c2.peers[k].worker.sessions || s in c2.peers[k].worker.caches ==> Located(c2, k, s)
      ensures s in c2.peers[k].worker.caches ==> Cached(c2, s)
    {
      if s in c.owner {
        assert Belongs(c, s, root);
        assert s in c.peers[k].worker.sessions || s in c.peers[k].worker.caches ==> Located(c, k, s);
        assert s in c.peers[k].worker.caches ==> Cached(c, s);
      }
    }
  }

  lemma PinPins(m: LayerModel, c: State, root: Sid, n: Node, sid: Sid, w: Worker<Cache>, hop: Pin, next: Option<(Node,
                Sid)>)
    requires StartsAt(m, c, root, n, sid)
    requires PinsHop(c, w, root, n, sid, hop, next) && (hop.local.Some? ==> sid in w.caches)
    ensures var c2 := PinHere(c, root, n, w, hop, next);
            forall i :: 0 <= i < |c2.chains[root].hops| ==> PinnedAt(c2, root, c2.chains[root], i)
  {
    hide RootPlaced, NoMessage, ValuesMatch, Shaped, Linked, Suspended;
    var ch, c2 := c.chains[root], PinHere(c, root, n, w, hop, next);
    var ch2 := c2.chains[root];
    assert c.owner[sid] == (root, |ch.hops|);
    forall i | 0 <= i < |ch2.hops|
      ensures PinnedAt(c2, root, ch2, i)
    {
      if i < |ch.hops| {
        assert PinnedAt(c, root, ch, i);
        assert c.owner[ch.hops[i].sid] == (root, i);
        assert RemoteOf(ch2, i) == RemoteOf(ch, i);
      }
    }
  }

  /** Every working hop holds the initial caches of its stage. */
  ghost predicate HoldsFresh(m: LayerModel, c: State, ch: Chain) {
    forall i :: 0 <= i < |ch.hops| && ch.hops[i].local.Some? ==>
      HoldsCaches(c, ch.hops[i], StageCaches(m, Stage(ch.hops[i].loaded, ch.hops[i].local)))
  }

  /** While a START is under way nothing has been asked of the session. */
  lemma StartIsFresh(m: LayerModel, c: State, ch: Chain)
    requires ch.phase.Starting? && ValuesMatch(m, c, ch) && !Doomed(ch)
    ensures ch.inputs == [] && ch.outputs == [] && HoldsFresh(m, c, ch)
  {
    assert ch.inputs[..|ch.outputs|] == [];
    forall i | 0 <= i < |ch.hops| && ch.hops[i].local.Some?
      ensures HoldsCaches(c, ch.hops[i], StageCaches(m, Stage(ch.hops[i].loaded, ch.hops[i].local)))
    {
      assert HoldsCaches(c, ch.hops[i], Expected(m, ch, i));
    }
  }

  lemma FreshIsMatch(m: LayerModel, c: State, ch: Chain)
    requires ch.inputs == [] && ch.outputs == [] && (ch.phase.Starting? || ch.phase.Idle?) && HoldsFresh(m, c, ch)
    ensures ValuesMatch(m, c, ch)
  {
    assert ch.inputs[..|ch.outputs|] == [];
    forall i | 0 <= i < |ch.hops| && ch.hops[i].local.Some?
      ensures HoldsCaches(c, ch.hops[i], Expected(m, ch, i))
    {
      assert Expected(m, ch, i) == StageCaches(m, Stage(ch.hops[i].loaded, ch.hops[i].local));
    }
  }

  lemma FreshPin(m: LayerModel, c: State, root: Sid, n: Node, sid: Sid, w: Worker<Cache>, hop: Pin,
                 next: Option<(Node, Sid)>)
    requires StartsAt(m, c, root, n, sid) && PinsHop(c, w, root, n, sid, hop, next)
    requires hop.local.Some? ==> sid in w.caches && w.caches[sid] == StageCaches(m, Stage(w.loaded, hop.local))
    ensures var c2 := PinHere(c, root, n, w, hop, next);
            var ch2 := c2.chains[root];
            ch2.inputs == [] && ch2.outputs == [] && HoldsFresh(m, c2, ch2)
  {
    hide RootPlaced, NoMessage, Shaped, Suspended, Pinned, ValuesMatch, Linked;
    var ch, c2 := c.chains[root], PinHere(c, root, n, w, hop, next);
    var ch2 := c2.chains[root];
    StartIsFresh(m, c, ch);
    assert c.owner[sid] == (root, |ch.hops|);
    forall i | 0 <= i < |ch2.hops| && ch2.hops[i].local.Some?
      ensures HoldsCaches(c2, ch2.hops[i], StageCaches(m, Stage(ch2.hops[i].loaded, ch2.hops[i].local)))
    {
      if i < |ch.hops| {
        assert ch2.hops[i] == ch.hops[i] && c.owner[ch.hops[i].sid] == (root, i);
        assert HoldsCaches(c, ch.hops[i], StageCaches(m, Stage(ch.hops[i].loaded, ch.hops[i].local)));
      }
    }
  }

  /** A hop has just been pinned. */
  ghost predicate JustPinned(m: LayerModel, c: State, root: Sid) {
    && root in c.chains && NoMessage(c, root) && RootPlaced(c, root) && var ch := c.chains[root];
    && ch.phase.Starting? && ch.inputs == [] && ch.outputs == [] && |ch.path| + 1 == |ch.hops|
    && (ch.msg.Some? ==> ch.msg.value.Req?)
    && Linked(m, c, ch) && Owned(c, root, ch) && Suspended(c, root, ch)
  }

  /** START fails here; what it already pinned is left behind. */
  lemma StartFails(m: LayerModel, c: State, root: Sid)
    requires root in c.chains && NoMessage(c, root) && RootPlaced(c, root)
    requires var ch := c.chains[root];
             && ch.phase.Starting? && ch.inputs == [] && ch.outputs == []
             && Linked(m, c, ch) && Owned(c, root, ch) && Suspended(c, root, ch)
    ensures RootOk(m, Answered(c, UpOf(c.chains[root]), root, Refused()), root)
  {
    hide RootPlaced, Answered, RootOk, Suspended, Linked, Owned;
    assert c.chains[root].inputs[..0] == [];
    FailIsOk(m, c, root, Refused());
  }

  /** The last hop is pinned: the chain is whole, and the lists start their way back. */
  lemma StartCompletes(m: LayerModel, c2: State, root: Sid, req: Body<Tensor>, n: Node, post: bool)
    requires JustPinned(m, c2, root) && Whole(m, c2.chains[root])
    requires var ch := c2.chains[root];
             && (forall i :: 0 <= i < |ch.hops| ==> PinnedAt(c2, root, ch, i)) && HoldsFresh(m, c2, ch)
             && var h := ch.hops[|ch.path|];
             h.node == n && req == Start(root, h.from, |ch.path|)
    ensures var ch := c2.chains[root];
            var a := Post(post, req, Answer(true, None, NO_SHARES), n, ch.hops[|ch.path|].loaded.hi);
            RootOk(m, Answered(c2, UpOf(ch), root, a), root)
  {
    hide RootPlaced, Answered, RootOk, Suspended, Linked, Owned, PinnedAt, HoldsFresh;
    var ch := c2.chains[root];
    var a := Post(post, req, Answer(true, None, NO_SHARES), n, ch.hops[|ch.path|].loaded.hi);
    if !a.ok {
      assert ch.inputs[..0] == [];
      FailIsOk(m, c2, root, a);
    } else {
      var ch' := Replying(c2, root, a);
      HopsKept(m, c2, root, ch, ch');
      PlacedKept(c2, root, ch');
      SuspendedKept(c2, root, ch, ch');
      PinsKept(c2, root, ch, ch');
      FreshKept(m, c2, ch, ch');
      FreshIsMatch(m, c2, ch');
      TailShares(ch.hops);
      hide Gathered, ValuesMatch, Pinned;
      ReplyIsOk(m, c2, root, a);
    }
  }

  lemma TailShares(hops: seq<Pin>)
    requires hops != []
    ensures Gathered(hops, |hops| - 1) == NO_SHARES
    ensures |hops| > 1 ==>
              var h := hops[|hops| - 1]; Gathered(hops, |hops| - 2) == Extend(NO_SHARES, h.node, h.loaded.hi, h.from)
  {
  }

  lemma FreshKept(m: LayerModel, c: State, ch: Chain, ch': Chain)
    requires ch'.hops == ch.hops && HoldsFresh(m, c, ch)
    ensures HoldsFresh(m, c, ch')
  {
  }

  /** The request to start goes on to the next hop. */
  lemma StartCalls(m: LayerModel, c2: State, root: Sid, req: Body<Tensor>, n: Node, dest: Node, sid: Sid)
    requires JustPinned(m, c2, root) && n in c2.peers && c2.peers[n].rpc.Valid()
    requires var ch := c2.chains[root];
             && (forall i :: 0 <= i < |ch.hops| ==> PinnedAt(c2, root, ch, i)) && HoldsFresh(m, c2, ch)
             && ch.hops[|ch.path|].node == n && ch.next == Some((dest, sid)) && EntryOf(ch) < m.layers
             && req == Start(root, ch.hops[|ch.path|].from, |ch.path|)
    ensures var ch := c2.chains[root];
            RootOk(m, Dispatch(c2, n, UpOf(ch), root, req, Call(dest, sid, Start(root, EntryOf(ch), |ch.hops|))), root)
  {
    hide RootPlaced, Dispatch, RootOk, Suspended, Linked, Owned, PinnedAt, HoldsFresh, Gathered;
    var ch := c2.chains[root];
    var body: Body<Tensor> := Start(root, EntryOf(ch), |ch.hops|);
    var msg := CallMsg(c2, root, n, dest, sid, body);
    var ch' := Calling(c2, root, n, msg);
    HopsKept(m, c2, root, ch, ch');
    PlacedKept(c2, root, ch');
    PinsKept(c2, root, ch, ch');
    FreshKept(m, c2, ch, ch');
    FreshIsMatch(m, c2, ch');
    hide ValuesMatch, Pinned;
    CallIsOk(m, c2, root, n, req, dest, sid, body);
  }

  lemma StartHop(m: LayerModel, c: State, root: Sid, n: Node, sid: Sid, req: Body<Tensor>, choice: Choice)
    requires Handling(m, c, root, n, sid, req) && c.chains[root].phase.Starting?
    requires ChoiceOk(m, c, n, choice) && choice.nextSid != sid
    requires forall k :: k in c.peers ==>
               choice.nextSid !in c.peers[k].worker.sessions && choice.nextSid !in c.peers[k].worker.caches
    ensures var (c2, out) := StartHere(m, c, n, sid, req, choice, root);
            RootOk(m, Dispatch(c2, n, UpOf(c.chains[root]), root, req, out), root)
  {
    hide SelectNext, RootPlaced, RootOk, Linked, Owned, Suspended, Pinned, ValuesMatch, Shaped, Answered, HoldsFresh,
         Gathered;
    var ch := c.chains[root];
    var route := SelectNext(choice.table, req.from);
    var (c2, out) := StartHere(m, c, n, sid, req, choice, root);
    StartIsFresh(m, c, ch);
    if !choice.hooks.pre || route.None? {
      assert c2 == c;
      StartFails(m, c, root);
    } else {
      PinnedHop(m, c, root, n, sid, req, choice);
      var r := route.value;
      assert UpOf(c2.chains[root]) == UpOf(ch);
      if r.local.Some? && !choice.cacheOk {
        StartFails(m, c2, root);
      } else if r.remote.Some? {
        StartCalls(m, c2, root, req, n, r.remote.value.dest, choice.nextSid);
      } else {
        StartCompletes(m, c2, root, req, n, choice.hooks.post);
      }
    }
  }

  /** The hop is pinned and linked, and unless its caches failed it is ready to go on. */
  lemma PinnedHop(m: LayerModel, c: State, root: Sid, n: Node, sid: Sid, req: Body<Tensor>, choice: Choice)
    requires Handling(m, c, root, n, sid, req) && c.chains[root].phase.Starting?
    requires ChoiceOk(m, c, n, choice) && choice.nextSid != sid
    requires forall k :: k in c.peers ==>
               choice.nextSid !in c.peers[k].worker.sessions && choice.nextSid !in c.peers[k].worker.caches
    requires choice.hooks.pre && SelectNext(choice.table, req.from).Some?
    ensures var r := SelectNext(choice.table, req.from).value;
            var c2 := StartHere(m, c, n, sid, req, choice, root).0;
            && JustPinned(m, c2, root) && var ch2 := c2.chains[root];
            && ch2.path == c.chains[root].path
            && ch2.hops[|ch2.path|] == Pin(n, sid, req.from, c.peers[n].worker.loaded, r.local)
            && n in c2.peers && c2.peers[n].rpc == c.peers[n].rpc
            && (if r.remote.Some? then ch2.next == Some((r.remote.value.dest, choice.nextSid))
                                       && EntryOf(ch2) == r.remote.value.layers.lo < m.layers
                else Whole(m, ch2))
            && (r.local.None? || choice.cacheOk ==>
                  (forall i :: 0 <= i < |ch2.hops| ==> PinnedAt(c2, root, ch2, i)) && HoldsFresh(m, c2, ch2))
  {
    hide SelectNext, RootPlaced, Linked, Owned, Suspended, Pinned, ValuesMatch, Shaped, HoldsFresh, Gathered, PinnedAt;
    var ch, route := c.chains[root], SelectNext(choice.table, req.from);
    var c2 := StartHere(m, c, n, sid, req, choice, root).0;
    StartIsFresh(m, c, ch);
    RouteLeadsOn(choice.table, req.from);
    var r, w0 := route.value, c.peers[n].worker;
    var w := OnStart<Cache, Tensor>(m, w0, n, sid, req.chat, req.from, req.index, route, choice.cacheOk, choice.nextSid,
                                    choice.hooks).0;
    var next := if r.remote.Some? then Some((r.remote.value.dest, choice.nextSid)) else None;
    var hop := Pin(n, sid, req.from, w0.loaded, r.local);
    assert c2 == PinHere(c, root, n, w, hop, next);
    NotCachedYet(m, c, root, n, sid);
    PinLinks(m, c, root, n, sid, w, hop, next);
    PinPlaces(m, c, root, n, sid, w, hop, next);
    if r.local.None? || choice.cacheOk {
      PinPins(m, c, root, n, sid, w, hop, next);
      FreshPin(m, c, root, n, sid, w, hop, next);
    }
  }

  lemma NotCachedYet(m: LayerModel, c: State, root: Sid, n: Node, sid: Sid)
    requires StartsAt(m, c, root, n, sid)
    ensures sid !in c.peers[n].worker.caches
  {
    hide NoMessage, ValuesMatch, Pinned, Shaped, Linked, Suspended;
    assert Belongs(c, sid, root);
  }
}
