/** What every state of a cluster run satisfies, session by session. */
module ClusterInv {
  import opened Options
  import opened RouteTables
  import opened Layers
  import opened ModelServices
  import opened Cluster

  /** The layer a pinned hop hands on. */
  function OutLayer(h: Pin): nat {
    if h.local.Some? then h.local.value.hi else h.from
  }

  /** The layer the next hop is asked to start from. */
  function EntryOf(ch: Chain): nat {
    if ch.hops == [] then 0 else OutLayer(ch.hops[|ch.hops| - 1])
  }

  predicate PinOk(m: LayerModel, c: State, h: Pin) {
    && h.node in c.peers && h.from < m.layers && h.loaded == c.peers[h.node].worker.loaded && h.loaded.hi <= m.layers
    && (h.local.Some? ==> h.loaded.Contains(h.from) && h.local == Some(Range(h.from, h.loaded.hi)))
  }

  /** Each hop was entered at the layer the hop before handed on. */
  predicate Linked(m: LayerModel, c: State, ch: Chain) {
    && (ch.hops != [] ==> ch.hops[0].from == 0)
    && (forall i :: 0 <= i < |ch.hops| ==> PinOk(m, c, ch.hops[i]))
    && (forall i :: 0 < i < |ch.hops| ==> ch.hops[i].from == OutLayer(ch.hops[i - 1]))
  }

  predicate Whole(m: LayerModel, ch: Chain) {
    ch.hops != [] && ch.next.None? && OutLayer(ch.hops[|ch.hops| - 1]) == m.layers
  }

  /** The next hop as pinned at hop `i`. */
  function RemoteOf(ch: Chain, i: nat): Option<(Node, Sid)> {
    if i + 1 < |ch.hops| then Some((ch.hops[i + 1].node, ch.hops[i + 1].sid)) else ch.next
  }

  /** A call that is failing, or has failed: sessions or caches may be left behind. */
  predicate Doomed(ch: Chain) {
    ch.phase.Failed? || (Active(ch) && ch.msg.Some? && ch.msg.value.Res? && !ch.msg.value.answer.ok)
  }

  /** How many hops END has surely torn down. */
  function Removed(ch: Chain): nat {
    if Doomed(ch) then 0
    else if ch.phase.Ended? || (ch.phase.Ending? && ch.msg.Some? && ch.msg.value.Res?) then |ch.hops|
    else if ch.phase.Ending? then |ch.path|
    else 0
  }

  /** The lists hop `i` gets back: those of the hops behind it, each with its own share added; the tail gets none. */
  function Gathered(hops: seq<Pin>, i: nat): Shares
    decreases |hops| - i
  {
    if i + 1 < |hops|
    then Extend(Gathered(hops, i + 1), hops[i + 1].node, hops[i + 1].loaded.hi, hops[i + 1].from)
    else NO_SHARES
  }

  ghost predicate Owned(c: State, root: Sid, ch: Chain) {
    && (forall i :: 0 <= i < |ch.hops| ==> ch.hops[i].sid in c.owner && c.owner[ch.hops[i].sid] == (root, i))
    && (ch.next.Some? ==> ch.next.value.1 in c.owner && c.owner[ch.next.value.1] == (root, |ch.hops|))
  }

  predicate PinnedAt(c: State, root: Sid, ch: Chain, i: nat)
    requires i < |ch.hops|
  {
    var h := ch.hops[i];
    && h.node in c.peers && var w := c.peers[h.node].worker;
    && h.sid in w.sessions && w.sessions[h.sid] == Container(root, h.local, RemoteOf(ch, i))
    && (h.local.Some? ==> h.sid in w.caches)
  }

  ghost predicate Pinned(c: State, root: Sid, ch: Chain) {
    !Doomed(ch) ==> forall i :: Removed(ch) <= i < |ch.hops| ==> PinnedAt(c, root, ch, i)
  }

  /** The request hop `i` serves while the session's call is under way. */
  predicate Serves(root: Sid, ch: Chain, i: nat, req: Body<Tensor>)
    requires i < |ch.hops|
  {
    match ch.phase
    case Starting => req == Start(root, ch.hops[i].from, i)
    case Forwarding(_, _) => req.Forward?
    case _ => req == End
  }

  predicate SuspendedAt(c: State, root: Sid, ch: Chain, i: nat)
    requires i < |ch.path| && i < |ch.hops|
  {
    var p := ch.path[i];
    && p.node == ch.hops[i].node && p.node in c.peers && p.no in c.peers[p.node].rpc.waits
    && var w := c.peers[p.node].rpc.waits[p.no];
    && w.root == root && w.up == (if i == 0 then None else Some(ch.path[i - 1])) && Serves(root, ch, i, w.req)
  }

  ghost predicate Suspended(c: State, root: Sid, ch: Chain) {
    |ch.path| <= |ch.hops| && forall i :: 0 <= i < |ch.path| ==> SuspendedAt(c, root, ch, i)
  }

  predicate Active(ch: Chain) {
    ch.phase.Starting? || ch.phase.Forwarding? || ch.phase.Ending?
  }

  /** The one message of an active call sits at the end of its path. */
  predicate InFlight(m: LayerModel, c: State, root: Sid, ch: Chain) {
    if !Active(ch) then ch.msg.None? && ch.path == []
    else
      && ch.msg.Some? && ch.msg.value in c.net && ch.msg.value.root == root && ch.path != []
      && var last := ch.path[|ch.path| - 1];
      match ch.msg.value
      case Res(dest, answer, _) =>
        && dest == last
        && (ch.phase.Starting? && answer.ok ==> Whole(m, ch) && answer.shares == Gathered(ch.hops, |ch.path| - 1))
        && (ch.phase.Forwarding? && answer.ok ==> answer.x.Some?)
      case Req(to, from, sid, body, _) =>
        && from == last
        && if ch.phase.Starting? then
             && |ch.path| == |ch.hops| && ch.next == Some((to, sid))
             && EntryOf(ch) < m.layers && body == Start(root, EntryOf(ch), |ch.hops|)
           else
             && |ch.path| < |ch.hops| && to == ch.hops[|ch.path|].node && sid == ch.hops[|ch.path|].sid
             && (if ch.phase.Ending? then body == End else body.Forward? && body.pos == ch.phase.pos)
  }

  predicate Shaped(m: LayerModel, ch: Chain) {
    (ch.phase.Idle? || ch.phase.Forwarding? || ch.phase.Ending? || ch.phase.Ended? || ch.inputs != [] ==>
       Whole(m, ch) && ch.shares == Gathered(ch.hops, 0))
  }

  // ---------- values ----------

  /** The hops as stages of a chain. */
  function StagesOf(hops: seq<Pin>): (stages: seq<Stage>)
    ensures |stages| == |hops|
  {
    seq(|hops|, i requires 0 <= i < |hops| => Stage(hops[i].loaded, hops[i].local))
  }

  /** The caches of the chain before the input being worked on. */
  function Before(m: LayerModel, ch: Chain): (caches: seq<seq<Cache>>)
    requires |ch.outputs| <= |ch.inputs|
    ensures |caches| == |ch.hops|
  {
    ChainRun(m, StagesOf(ch.hops), ch.inputs[..|ch.outputs|]).0
  }

  /** How many hops have worked on the current input. */
  function Worked(ch: Chain): nat {
    if ch.msg.Some? && ch.msg.value.Res? then |ch.hops| else |ch.path|
  }

  /** The caches of hop `i` when the first `k` hops have worked on the input. */
  function CachesAfter(m: LayerModel, ch: Chain, pos: Pos, x: Tensor, i: nat, k: nat): seq<Cache>
    requires |ch.outputs| <= |ch.inputs| && i < |ch.hops|
  {
    if i < k then StageAfter(m, StagesOf(ch.hops), Before(m, ch), pos, x, i) else Before(m, ch)[i]
  }

  /** The caches hop `i` should hold. */
  function Expected(m: LayerModel, ch: Chain, i: nat): seq<Cache>
    requires |ch.outputs| <= |ch.inputs| && i < |ch.hops|
  {
    if ch.phase.Forwarding? then CachesAfter(m, ch, ch.phase.pos, ch.phase.x, i, Worked(ch)) else Before(m, ch)[i]
  }

  ghost predicate HoldsCaches(c: State, h: Pin, caches: seq<Cache>) {
    h.node in c.peers && h.sid in c.peers[h.node].worker.caches && c.peers[h.node].worker.caches[h.sid] == caches
  }

  ghost predicate CachesMatch(m: LayerModel, c: State, ch: Chain)
    requires |ch.outputs| <= |ch.inputs|
  {
    !Doomed(ch) ==> forall i :: Removed(ch) <= i < |ch.hops| && ch.hops[i].local.Some? ==>
      HoldsCaches(c, ch.hops[i], Expected(m, ch, i))
  }

  predicate Counted(ch: Chain) {
    match ch.phase
    case Starting => ch.inputs == [] && ch.outputs == []
    case Idle => |ch.inputs| == |ch.outputs|
    case Forwarding(pos, x) => |ch.inputs| == |ch.outputs| + 1 && ch.inputs[|ch.outputs|] == (pos, x)
    case _ => |ch.outputs| <= |ch.inputs|
  }

  /** The embedding after the first `k` hops. */
  function Through(m: LayerModel, ch: Chain, pos: Pos, x: Tensor, k: nat): Tensor
    requires |ch.outputs| <= |ch.inputs| && k <= |ch.hops|
  {
    ChainThrough(m, StagesOf(ch.hops), Before(m, ch), pos, x, k)
  }

  predicate MessageMatches(m: LayerModel, ch: Chain)
    requires Counted(ch)
  {
    ch.phase.Forwarding? && ch.msg.Some? ==>
      match ch.msg.value
      case Res(_, answer, _) => answer.ok ==> answer.x == Some(Through(m, ch, ch.phase.pos, ch.phase.x, |ch.hops|))
      case Req(_, _, _, body, _) =>
        |ch.path| < |ch.hops| && body.Forward? ==> body.x == Through(m, ch, ch.phase.pos, ch.phase.x, |ch.path|)
  }

  /** The outputs so far are those of one stateful chain of the pinned hops. */
  predicate OutputsMatch(m: LayerModel, ch: Chain)
    requires |ch.outputs| <= |ch.inputs|
  {
    ch.outputs == ChainRun(m, StagesOf(ch.hops), ch.inputs[..|ch.outputs|]).1
  }

  ghost predicate ValuesMatch(m: LayerModel, c: State, ch: Chain) {
    Counted(ch) && CachesMatch(m, c, ch) && MessageMatches(m, ch) && OutputsMatch(m, ch)
  }

  // ---------- all of it ----------

  ghost predicate ChainInv(m: LayerModel, c: State, root: Sid) {
    && root in c.chains && var ch := c.chains[root];
    && Linked(m, c, ch) && Shaped(m, ch) && Owned(c, root, ch) && Pinned(c, root, ch) && Suspended(c, root, ch)
    && InFlight(m, c, root, ch) && ValuesMatch(m, c, ch)
  }

  /** A session id known at a node is the one of a hop pinned there and not yet torn down. */
  predicate Located(c: State, n: Node, sid: Sid) {
    && sid in c.owner && var (root, i) := c.owner[sid];
    && root in c.chains && i < |c.chains[root].hops|
    && c.chains[root].hops[i].node == n && c.chains[root].hops[i].sid == sid && Removed(c.chains[root]) <= i
  }

  ghost predicate Inv(m: LayerModel, c: State) {
    && (forall root :: root in c.chains ==> ChainInv(m, c, root))
    && (forall n :: n in c.peers ==> c.peers[n].rpc.Valid() && c.peers[n].worker.loaded.hi <= m.layers)
    && (forall msg :: msg in c.net ==> msg.root in c.chains && c.chains[msg.root].msg == Some(msg))
    && (forall sid :: sid in c.owner ==> c.owner[sid].0 in c.chains)
    && (forall n, sid :: n in c.peers && (sid in c.peers[n].worker.sessions || sid in c.peers[n].worker.caches) ==>
          Located(c, n, sid))
    && (forall n, sid :: n in c.peers && sid in c.peers[n].worker.caches ==> Cached(c, sid))
  }

  /** A session id with caches is the one of a hop with local layers. */
  predicate Cached(c: State, sid: Sid) {
    && sid in c.owner && var (root, i) := c.owner[sid];
    && root in c.chains && i < |c.chains[root].hops| && c.chains[root].hops[i].local.Some?
  }

  // ---------- framing: other sessions ----------

  /** At `sid` the two workers are the same. */
  ghost predicate SameAt(w: Worker<Cache>, w': Worker<Cache>, sid: Sid) {
    && (sid in w.sessions <==> sid in w'.sessions) && (sid in w.sessions ==> w'.sessions[sid] == w.sessions[sid])
    && (sid in w.caches <==> sid in w'.caches) && (sid in w.caches ==> w'.caches[sid] == w.caches[sid])
  }

  /** Nothing that belongs to session `root` differs between two states. */
  ghost predicate SameFor(c: State, c': State, root: Sid) {
    && root in c.chains && root in c'.chains && c'.chains[root] == c.chains[root]
    && (forall n :: n in c.peers ==> n in c'.peers && c'.peers[n].worker.loaded == c.peers[n].worker.loaded)
    && (forall sid :: sid in c.owner && c.owner[sid].0 == root ==>
          && sid in c'.owner && c'.owner[sid] == c.owner[sid]
          && forall n :: n in c.peers ==> n in c'.peers && SameAt(c.peers[n].worker, c'.peers[n].worker, sid))
    && (forall n, q :: n in c.peers && q in c.peers[n].rpc.waits && c.peers[n].rpc.waits[q].root == root ==>
          n in c'.peers && q in c'.peers[n].rpc.waits && c'.peers[n].rpc.waits[q] == c.peers[n].rpc.waits[q])
    && (forall msg :: msg in c.net && msg.root == root ==> msg in c'.net)
  }

  lemma SameForKeeps(m: LayerModel, c: State, c': State, root: Sid)
    requires SameFor(c, c', root) && ChainInv(m, c, root)
    ensures ChainInv(m, c', root)
  {
    hide RunLayers, ChainRun, Expected, MessageMatches, OutputsMatch, SameAt, PinnedAt, InFlight, Serves, Gathered,
         CachesMatch;
    var ch := c.chains[root];
    forall i | 0 <= i < |ch.hops|
      ensures PinOk(m, c', ch.hops[i])
      ensures SameAt(c.peers[ch.hops[i].node].worker, c'.peers[ch.hops[i].node].worker, ch.hops[i].sid)
    {
      assert PinOk(m, c, ch.hops[i]);
      assert ch.hops[i].sid in c.owner && c.owner[ch.hops[i].sid] == (root, i);
    }
    forall i | 0 <= i < |ch.path|
      ensures SuspendedAt(c', root, ch, i)
    {
      assert SuspendedAt(c, root, ch, i);
    }
    SameForPins(m, c, c', root);
    SameForFlight(m, c, c', root);
  }

  lemma SameForFlight(m: LayerModel, c: State, c': State, root: Sid)
    requires SameFor(c, c', root) && InFlight(m, c, root, c.chains[root])
    ensures InFlight(m, c', root, c.chains[root])
  {
    hide Whole, OutLayer, SameAt, Gathered;
  }

  lemma SameForPins(m: LayerModel, c: State, c': State, root: Sid)
    requires root in c.chains && var ch := c.chains[root];
             && Pinned(c, root, ch) && ValuesMatch(m, c, ch)
             && forall i :: 0 <= i < |ch.hops| ==>
                  && ch.hops[i].node in c.peers && ch.hops[i].node in c'.peers
                  && SameAt(c.peers[ch.hops[i].node].worker, c'.peers[ch.hops[i].node].worker, ch.hops[i].sid)
    ensures Pinned(c', root, c.chains[root]) && CachesMatch(m, c', c.chains[root])
  {
    hide RunLayers, ChainRun, Expected, MessageMatches, OutputsMatch;
    var ch := c.chains[root];
    forall i | Removed(ch) <= i < |ch.hops| && !Doomed(ch)
      ensures PinnedAt(c', root, ch, i)
      ensures ch.hops[i].local.Some? ==> HoldsCaches(c', ch.hops[i], Expected(m, ch, i))
    {
      assert PinnedAt(c, root, ch, i);
    }
  }
}
