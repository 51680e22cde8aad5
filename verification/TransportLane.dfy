/**
 One direction of a connection: frames pushed at a sender, cut into data chunks that are queued, put
 on the wire and reassembled at the receiver, whose acks come back.  A lane keeps only what concerns
 this direction; module `Transport` shows that two endpoints are two such lanes.
 */
module TransportLane {
  import opened Sequences
  import opened Chunking
  import opened ConnectionBuffers

  /** Frame number and chunk number. */
  type Key = (nat, nat)

  datatype Lane = Lane(
    pushed: seq<Bytes>,                // every frame pushed so far; its index is its number
    hi: seq<Chunk>,                    // queued data chunks of single-chunk frames
    lo: seq<Chunk>,                    // queued data chunks of longer frames
    wire: seq<Chunk>,                  // data chunks in flight
    out: map<nat, map<nat, nat>>,      // sizes of the chunks not yet acked
    inAir: nat,
    incomings: map<nat, Incoming>,
    arrived: seq<Bytes>,               // frames completed at the receiver, in order
    handed: seq<nat>,                  // the numbers of those frames
    acks: seq<Chunk>,                  // acks queued at the receiver
    back: seq<Chunk>)                  // acks in flight

  const IDLE := Lane([], [], [], [], map[], 0, map[], [], [], [], [])

  predicate Fits(cfg: Config, data: Bytes)
    requires cfg.Valid()
  {
    |Chunks(data, cfg.chunkSize)| < U16_SIZE
  }

  // ---------- steps ----------

  function Without<T>(s: seq<T>, i: nat): seq<T>
    requires i < |s|
  {
    s[..i] + s[i + 1..]
  }

  function LanePush(cfg: Config, l: Lane, data: Bytes): Lane
    requires cfg.Valid()
  {
    var chunks := FrameChunks(|l.pushed|, Chunks(data, cfg.chunkSize));
    var pushed := l.(pushed := l.pushed + [data], out := l.out[|l.pushed| := ChunkSizes(chunks)]);
    if |data| <= cfg.chunkSize then pushed.(hi := l.hi + chunks) else pushed.(lo := l.lo + chunks)
  }

  function LaneSend(l: Lane, fromHi: bool): Lane
    requires if fromHi then l.hi != [] else l.lo != []
  {
    var c := if fromHi then l.hi[0] else l.lo[0];
    var sent := l.(wire := l.wire + [c], inAir := l.inAir + c.AirSize());
    if fromHi then sent.(hi := l.hi[1..]) else sent.(lo := l.lo[1..])
  }

  function LaneArrive(l: Lane, i: nat): Lane
    requires i < |l.wire| && l.wire[i].Data?
  {
    var c := l.wire[i];
    var (incomings, completed) := Reassemble(l.incomings, c);
    l.(wire := Without(l.wire, i), acks := l.acks + [Ack(c.frame, c.id, c.count)], incomings := incomings,
       arrived := l.arrived + completed, handed := l.handed + if completed == [] then [] else [c.frame])
  }

  function LaneAckSend(l: Lane): Lane
    requires l.acks != []
  {
    l.(acks := l.acks[1..], back := l.back + [l.acks[0]])
  }

  function LaneAckArrive(l: Lane, i: nat): Lane
    requires i < |l.back|
  {
    var (out, inAir) := Settle(l.out, l.inAir, l.back[i]);
    l.(back := Without(l.back, i), out := out, inAir := inAir)
  }

  // ---------- where a chunk is ----------

  function KeyOf(c: Chunk): Key {
    (c.frame, c.id)
  }

  function Keys(s: seq<Chunk>): multiset<Key> {
    if s == [] then multiset{} else Keys(s[..|s| - 1]) + multiset{KeyOf(s[|s| - 1])}
  }

  lemma NoKeys()
    ensures Keys([]) == multiset{}
  {
  }

  lemma {:induction false} KeysConcat(s: seq<Chunk>, t: seq<Chunk>)
    ensures Keys(s + t) == Keys(s) + Keys(t)
    decreases |t|
  {
    hide Keys;
    if t == [] {
      NoKeys();
      assert s + t == s;
    } else {
      var init, last := t[..|t| - 1], t[|t| - 1];
      KeysConcat(s, init);
      KeysSnoc(init, last);
      KeysSnoc(s + init, last);
      assert init + [last] == t;
      assert s + init + [last] == s + t;
    }
  }

  lemma KeysSnoc(s: seq<Chunk>, c: Chunk)
    ensures Keys(s + [c]) == Keys(s) + multiset{KeyOf(c)}
  {
    assert (s + [c])[..|s|] == s;
  }

  lemma KeysMiddle(s: seq<Chunk>, c: Chunk, t: seq<Chunk>)
    ensures Keys(s + [c] + t) == Keys(s + t) + multiset{KeyOf(c)}
  {
    hide Keys;
    KeysConcat(s + [c], t);
    KeysSnoc(s, c);
    KeysConcat(s, t);
  }

  lemma KeysWithout(s: seq<Chunk>, i: nat)
    requires i < |s|
    ensures Keys(s) == Keys(Without(s, i)) + multiset{KeyOf(s[i])}
  {
    hide Keys;
    var left, right := s[..i], s[i + 1..];
    assert s == left + [s[i]] + right;
    KeysMiddle(left, s[i], right);
  }

  lemma KeysTail(s: seq<Chunk>)
    requires s != []
    ensures Keys(s) == Keys(s[1..]) + multiset{KeyOf(s[0])}
  {
    hide Keys;
    KeysWithout(s, 0);
    assert Without(s, 0) == s[1..];
  }

  lemma {:induction false} KeysMember(s: seq<Chunk>, k: Key) returns (i: nat)
    requires k in Keys(s)
    ensures i < |s| && KeyOf(s[i]) == k
  {
    i := |s| - 1;
    if KeyOf(s[i]) != k {
      var j := KeysMember(s[..i], k);
      i := j;
    }
  }

  lemma {:induction false} KeysHas(s: seq<Chunk>, i: nat)
    requires i < |s|
    ensures KeyOf(s[i]) in Keys(s)
  {
    hide Keys;
    KeysWithout(s, i);
  }

  /** Chunks still on the sender's side of the wire, or on it. */
  function Pending(l: Lane): multiset<Key> {
    Keys(l.hi) + Keys(l.lo) + Keys(l.wire)
  }

  /** Chunks popped and not yet acked: in flight, or with their ack on the way back. */
  function Flying(l: Lane): multiset<Key> {
    Keys(l.wire) + Keys(l.acks) + Keys(l.back)
  }

  function Pipe(l: Lane): multiset<Key> {
    Keys(l.hi) + Keys(l.lo) + Flying(l)
  }

  predicate Has(out: map<nat, map<nat, nat>>, k: Key) {
    k.0 in out && k.1 in out[k.0]
  }

  // ---------- the invariant ----------

  function Parts(cfg: Config, pushed: seq<Bytes>, f: nat): seq<Bytes>
    requires cfg.Valid() && f < |pushed|
  {
    Chunks(pushed[f], cfg.chunkSize)
  }

  predicate InFrames(cfg: Config, pushed: seq<Bytes>, k: Key)
    requires cfg.Valid()
  {
    k.0 < |pushed| && k.1 < |Parts(cfg, pushed, k.0)|
  }

  function SizeOf(cfg: Config, pushed: seq<Bytes>, k: Key): nat
    requires cfg.Valid()
  {
    if InFrames(cfg, pushed, k) then HEADER + |Parts(cfg, pushed, k.0)[k.1]| else 0
  }

  predicate Genuine(cfg: Config, pushed: seq<Bytes>, c: Chunk)
    requires cfg.Valid()
  {
    && InFrames(cfg, pushed, KeyOf(c))
    && c.count == |Parts(cfg, pushed, c.frame)|
    && (c.Data? ==> c.data == Parts(cfg, pushed, c.frame)[c.id])
  }

  predicate AllGenuine(cfg: Config, pushed: seq<Bytes>, s: seq<Chunk>, data: bool)
    requires cfg.Valid()
  {
    forall i :: 0 <= i < |s| ==> s[i].Data? == data && Genuine(cfg, pushed, s[i])
  }

  /** Total size of the chunks in a bag of keys. */
  ghost function TotalSize(cfg: Config, pushed: seq<Bytes>, m: multiset<Key>): nat
    requires cfg.Valid()
    decreases |m|
  {
    if m == multiset{} then 0
    else
      var k :| k in m;
      SizeOf(cfg, pushed, k) + TotalSize(cfg, pushed, m - multiset{k})
  }

  ghost predicate WellFormed(cfg: Config, l: Lane)
    requires cfg.Valid()
  {
    && (forall f :: 0 <= f < |l.pushed| ==> Fits(cfg, l.pushed[f]))
    && AllGenuine(cfg, l.pushed, l.hi, true) && AllGenuine(cfg, l.pushed, l.lo, true)
    && AllGenuine(cfg, l.pushed, l.wire, true)
    && AllGenuine(cfg, l.pushed, l.acks, false) && AllGenuine(cfg, l.pushed, l.back, false)
    && (forall i :: 0 <= i < |l.hi| ==> l.hi[i].count == 1)
    && (forall i :: 0 <= i < |l.lo| ==> l.lo[i].count > 1)
  }

  /** A chunk is in exactly one place until it is acked, and then nowhere. */
  ghost predicate Tracked(cfg: Config, l: Lane)
    requires cfg.Valid()
  {
    && (forall k: Key :: Pipe(l)[k] == if Has(l.out, k) then 1 else 0)
    && (forall k: Key :: Has(l.out, k) ==> InFrames(cfg, l.pushed, k) && l.out[k.0][k.1] == SizeOf(cfg, l.pushed, k))
    && (forall f :: f in l.out ==> f < |l.pushed| && l.out[f] != map[])
  }

  ghost predicate AirBalanced(cfg: Config, l: Lane)
    requires cfg.Valid()
  {
    l.inAir == TotalSize(cfg, l.pushed, Flying(l)) <= cfg.airLimit
  }

  ghost predicate Complete(pending: multiset<Key>, f: nat, n: nat) {
    forall i :: 0 <= i < n ==> (f, i) !in pending
  }

  /** The receiver holds of frame `f` exactly the chunks that are no longer pending. */
  ghost predicate FrameReceived(parts: seq<Bytes>, incomings: map<nat, Incoming>, handed: seq<nat>,
                                pending: multiset<Key>, f: nat)
  {
    && (f in handed <==> Complete(pending, f, |parts|))
    && (f in incomings <==>
        |parts| > 1 && !Complete(pending, f, |parts|) && exists i :: 0 <= i < |parts| && (f, i) !in pending)
    && (f in incomings ==>
        && incomings[f].count == |parts|
        && (forall i: nat :: i in incomings[f].chunks <==> i < |parts| && (f, i) !in pending)
        && (forall i :: i in incomings[f].chunks ==> incomings[f].chunks[i] == parts[i]))
  }

  ghost predicate Received(cfg: Config, l: Lane)
    requires cfg.Valid()
  {
    && (forall f :: 0 <= f < |l.pushed| ==>
        FrameReceived(Parts(cfg, l.pushed, f), l.incomings, l.handed, Pending(l), f))
    && (forall f :: f in l.incomings ==> f < |l.pushed|)
  }

  ghost predicate HandedUp(l: Lane) {
    && |l.arrived| == |l.handed| && Distinct(l.handed)
    && (forall j :: 0 <= j < |l.handed| ==> l.handed[j] < |l.pushed| && l.arrived[j] == l.pushed[l.handed[j]])
  }

  ghost predicate LaneInv(cfg: Config, l: Lane)
    requires cfg.Valid()
  {
    WellFormed(cfg, l) && Tracked(cfg, l) && AirBalanced(cfg, l) && Received(cfg, l) && HandedUp(l)
  }

  // ---------- sums ----------

  lemma {:induction false} TotalSizeAdd(cfg: Config, pushed: seq<Bytes>, m: multiset<Key>, k: Key)
    requires cfg.Valid()
    ensures TotalSize(cfg, pushed, m + multiset{k}) == TotalSize(cfg, pushed, m) + SizeOf(cfg, pushed, k)
    decreases |m|
  {
    var more := m + multiset{k};
    var pick :| pick in more && TotalSize(cfg, pushed, more)
                == SizeOf(cfg, pushed, pick) + TotalSize(cfg, pushed, more - multiset{pick});
    if pick == k {
      assert more - multiset{k} == m;
    } else {
      var rest := m - multiset{pick};
      assert more - multiset{pick} == rest + multiset{k};
      TotalSizeAdd(cfg, pushed, rest, k);
      TotalSizeAdd(cfg, pushed, rest, pick);
      assert rest + multiset{pick} == m;
    }
  }

  lemma SizeExtends(cfg: Config, pushed: seq<Bytes>, data: Bytes, k: Key)
    requires cfg.Valid() && InFrames(cfg, pushed, k)
    ensures SizeOf(cfg, pushed + [data], k) == SizeOf(cfg, pushed, k)
  {
    hide Chunks;
    assert (pushed + [data])[k.0] == pushed[k.0];
  }

  lemma {:induction false} TotalSizeExtends(cfg: Config, pushed: seq<Bytes>, data: Bytes, m: multiset<Key>)
    requires cfg.Valid()
    requires forall k :: k in m ==> InFrames(cfg, pushed, k)
    ensures TotalSize(cfg, pushed + [data], m) == TotalSize(cfg, pushed, m)
    decreases |m|
  {
    hide SizeOf, InFrames;
    if m != multiset{} {
      var k :| k in m;
      var rest := m - multiset{k};
      assert rest + multiset{k} == m;
      TotalSizeExtends(cfg, pushed, data, rest);
      SizeExtends(cfg, pushed, data, k);
      TotalSizeAdd(cfg, pushed, rest, k);
      TotalSizeAdd(cfg, pushed + [data], rest, k);
    }
  }

  lemma {:induction false} TotalSizeSplit(cfg: Config, pushed: seq<Bytes>, m: multiset<Key>, n: multiset<Key>)
    requires cfg.Valid()
    ensures TotalSize(cfg, pushed, m + n) == TotalSize(cfg, pushed, m) + TotalSize(cfg, pushed, n)
    decreases |n|
  {
    if n == multiset{} {
      assert m + n == m;
    } else {
      var k :| k in n;
      var rest := n - multiset{k};
      TotalSizeSplit(cfg, pushed, m, rest);
      TotalSizeAdd(cfg, pushed, m + rest, k);
      TotalSizeAdd(cfg, pushed, rest, k);
      assert m + rest + multiset{k} == m + n && rest + multiset{k} == n;
    }
  }
}
