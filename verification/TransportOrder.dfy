/** Over wires that deliver in order, each priority class is delivered in the order it was pushed. */
module TransportOrder {
  import opened Sequences
  import opened Chunking
  import opened ConnectionBuffers
  import opened TransportLane
  import opened TransportLaneProof
  import opened Transport

  /** The frames of one class: those that fit in a single chunk, or those that do not. */
  function OfClass(cfg: Config, frames: seq<Bytes>, single: bool): seq<Bytes> {
    if frames == [] then []
    else
      var last := frames[|frames| - 1];
      OfClass(cfg, frames[..|frames| - 1], single) + if (|last| <= cfg.chunkSize) == single then [last] else []
  }

  // ---------- the lane in order ----------

  /** The keys of the chunks of one class, in order. */
  function ClassKeys(s: seq<Chunk>, single: bool): seq<Key> {
    if s == [] then []
    else
      var c := s[|s| - 1];
      ClassKeys(s[..|s| - 1], single) + if (c.count == 1) == single then [KeyOf(c)] else []
  }

  /** The chunks of one class not yet arrived, in the order they will arrive. */
  function Stream(l: Lane, single: bool): seq<Key> {
    ClassKeys(l.wire, single) + ClassKeys(l.hi, single) + ClassKeys(l.lo, single)
  }

  predicate Before(k: Key, m: Key) {
    k.0 < m.0 || (k.0 == m.0 && k.1 < m.1)
  }

  predicate SortedKeys(ks: seq<Key>) {
    forall i, j :: 0 <= i < j < |ks| ==> Before(ks[i], ks[j])
  }

  predicate IsClass(cfg: Config, pushed: seq<Bytes>, f: nat, single: bool) {
    f < |pushed| && (|pushed[f]| <= cfg.chunkSize) == single
  }

  /** The numbers of the class among `ids`, in order. */
  function ClassIds(cfg: Config, pushed: seq<Bytes>, ids: seq<nat>, single: bool): seq<nat> {
    if ids == [] then []
    else
      var f := ids[|ids| - 1];
      ClassIds(cfg, pushed, ids[..|ids| - 1], single) + if IsClass(cfg, pushed, f, single) then [f] else []
  }

  predicate Increasing(s: seq<nat>) {
    forall i, j :: 0 <= i < j < |s| ==> s[i] < s[j]
  }

  ghost predicate Ordered(cfg: Config, l: Lane, single: bool) {
    var done, left := ClassIds(cfg, l.pushed, l.handed, single), Stream(l, single);
    && SortedKeys(left) && Increasing(done)
    && (forall i, j :: 0 <= i < |done| && 0 <= j < |left| ==> done[i] < left[j].0)
  }

  lemma {:induction false} ClassConcat(s: seq<Chunk>, t: seq<Chunk>, single: bool)
    ensures ClassKeys(s + t, single) == ClassKeys(s, single) + ClassKeys(t, single)
    decreases |t|
  {
    hide ClassKeys;
    if t == [] {
      NoClassKeys(single);
      assert s + t == s;
    } else {
      var init, last := t[..|t| - 1], t[|t| - 1];
      ClassConcat(s, init, single);
      ClassSnoc(init, last, single);
      ClassSnoc(s + init, last, single);
      assert init + [last] == t;
      assert s + init + [last] == s + t;
    }
  }

  lemma ClassSnoc(s: seq<Chunk>, c: Chunk, single: bool)
    ensures ClassKeys(s + [c], single) == ClassKeys(s, single) + if (c.count == 1) == single then [KeyOf(c)] else []
  {
    assert (s + [c])[..|s|] == s;
  }

  lemma ClassHead(s: seq<Chunk>, single: bool)
    requires s != []
    ensures ClassKeys(s, single)
            == (if (s[0].count == 1) == single then [KeyOf(s[0])] else []) + ClassKeys(s[1..], single)
  {
    assert s == [s[0]] + s[1..];
    ClassConcat([s[0]], s[1..], single);
    ClassSnoc([], s[0], single);
    assert [] + [KeyOf(s[0])] == [KeyOf(s[0])];
  }

  lemma {:induction false} ClassEmpty(s: seq<Chunk>, single: bool)
    requires forall i :: 0 <= i < |s| ==> (s[i].count == 1) != single
    ensures ClassKeys(s, single) == []
  {
    if s != [] {
      ClassEmpty(s[..|s| - 1], single);
    }
  }

  lemma {:induction false} ClassHas(s: seq<Chunk>, single: bool, i: nat)
    requires i < |s| && (s[i].count == 1) == single
    ensures KeyOf(s[i]) in ClassKeys(s, single)
  {
    if i < |s| - 1 {
      ClassHas(s[..|s| - 1], single, i);
    }
  }

  lemma {:induction false} ClassMember(s: seq<Chunk>, single: bool, k: Key) returns (i: nat)
    requires k in ClassKeys(s, single)
    ensures i < |s| && KeyOf(s[i]) == k && (s[i].count == 1) == single
  {
    i := |s| - 1;
    if !(KeyOf(s[i]) == k && (s[i].count == 1) == single) {
      var j := ClassMember(s[..i], single, k);
      i := j;
    }
  }

  /** Every key of a stream names a pending chunk of a pushed frame. */
  lemma StreamIsPending(cfg: Config, l: Lane, single: bool, k: Key)
    requires cfg.Valid() && WellFormed(cfg, l) && k in Stream(l, single)
    ensures k in Pending(l) && InFrames(cfg, l.pushed, k) && IsClass(cfg, l.pushed, k.0, single)
  {
    hide Keys, ClassKeys, Chunks;
    var s := if k in ClassKeys(l.wire, single) then l.wire else if k in ClassKeys(l.hi, single) then l.hi else l.lo;
    var i := ClassMember(s, single, k);
    KeysHas(s, i);
    assert Genuine(cfg, l.pushed, s[i]);
    ConcatChunks(l.pushed[k.0], cfg.chunkSize);
  }

  lemma PendingIsStream(cfg: Config, l: Lane, single: bool, k: Key)
    requires cfg.Valid() && WellFormed(cfg, l) && k in Pending(l) && IsClass(cfg, l.pushed, k.0, single)
    ensures k in Stream(l, single)
  {
    hide Keys, ClassKeys, Chunks;
    var s := if k in Keys(l.wire) then l.wire else if k in Keys(l.hi) then l.hi else l.lo;
    var i := KeysMember(s, k);
    assert Genuine(cfg, l.pushed, s[i]);
    ConcatChunks(l.pushed[k.0], cfg.chunkSize);
    ClassHas(s, single, i);
  }

  lemma {:induction false} ClassIdsExtend(cfg: Config, pushed: seq<Bytes>, data: Bytes, ids: seq<nat>, single: bool)
    requires forall i :: 0 <= i < |ids| ==> ids[i] < |pushed|
    ensures ClassIds(cfg, pushed + [data], ids, single) == ClassIds(cfg, pushed, ids, single)
    ensures var c := ClassIds(cfg, pushed, ids, single); forall i :: 0 <= i < |c| ==> c[i] < |pushed|
  {
    if ids != [] {
      ClassIdsExtend(cfg, pushed, data, ids[..|ids| - 1], single);
    }
  }

  lemma NoClassKeys(single: bool)
    ensures ClassKeys([], single) == []
  {
  }

  lemma {:induction false} FrameKeys(f: nat, parts: seq<Bytes>, single: bool, m: nat)
    requires m <= |parts| < U16_SIZE
    ensures ClassKeys(FrameChunks(f, parts)[..m], single)
            == if (|parts| == 1) == single then seq(m, i => (f, i)) else []
  {
    hide ClassKeys;
    var chunks := FrameChunks(f, parts);
    if m > 0 {
      var init, last := chunks[..m - 1], chunks[m - 1];
      FrameKeys(f, parts, single, m - 1);
      assert (m - 1) % U16_SIZE == m - 1 && last == Data(f, m - 1, |parts|, parts[m - 1]);
      assert chunks[..m] == init + [last];
      ClassSnoc(init, last, single);
      assert seq(m - 1, i => (f, i)) + [(f, m - 1)] == seq(m, i => (f, i));
    } else {
      NoClassKeys(single);
      assert chunks[..m] == [];
    }
  }

  lemma PushExtendsStream(cfg: Config, l: Lane, data: Bytes, single: bool)
    requires cfg.Valid() && WellFormed(cfg, l) && Fits(cfg, data)
    ensures var n := |Chunks(data, cfg.chunkSize)|;
            Stream(LanePush(cfg, l, data), single)
            == Stream(l, single) + if (n == 1) == single then seq(n, i => (|l.pushed|, i)) else []
  {
    hide Keys, ClassKeys, Chunks, FrameChunks, ChunkSizes, Genuine;
    var parts := Chunks(data, cfg.chunkSize);
    var chunks := FrameChunks(|l.pushed|, parts);
    ConcatChunks(data, cfg.chunkSize);
    FrameKeys(|l.pushed|, parts, single, |parts|);
    ChunkCount(|l.pushed|, parts);
    assert chunks[..|parts|] == chunks;
    ClassConcat(l.hi, chunks, single);
    ClassConcat(l.lo, chunks, single);
    if single {
      ClassEmpty(l.lo, single);
    }
  }

  lemma ChunkCount(f: nat, parts: seq<Bytes>)
    ensures |FrameChunks(f, parts)| == |parts|
  {
  }

  lemma PushKeepsOrdered(cfg: Config, l: Lane, data: Bytes, single: bool)
    requires cfg.Valid() && LaneInv(cfg, l) && Fits(cfg, data) && Ordered(cfg, l, single)
    ensures Ordered(cfg, LanePush(cfg, l, data), single)
  {
    hide Keys, ClassKeys, Chunks, FrameChunks, ChunkSizes, Stream, Pending, Tracked, AirBalanced, Received, ClassIds;
    PushExtendsStream(cfg, l, data, single);
    ClassIdsExtend(cfg, l.pushed, data, l.handed, single);
    forall j | 0 <= j < |Stream(l, single)|
      ensures Stream(l, single)[j].0 < |l.pushed|
    {
      StreamIsPending(cfg, l, single, Stream(l, single)[j]);
    }
  }

  lemma SendKeepsStream(cfg: Config, l: Lane, fromHi: bool, single: bool)
    requires cfg.Valid() && WellFormed(cfg, l)
    requires if fromHi then l.hi != [] else l.lo != []
    ensures Stream(LaneSend(l, fromHi), single) == Stream(l, single)
  {
    hide Keys, ClassKeys, Chunks, Genuine;
    var c := if fromHi then l.hi[0] else l.lo[0];
    ClassHead(if fromHi then l.hi else l.lo, single);
    ClassSnoc(l.wire, c, single);
    if !single {
      ClassEmpty(l.hi, single);
    }
  }

  lemma ArriveShortensStream(l: Lane, single: bool)
    requires l.wire != [] && l.wire[0].Data?
    ensures Stream(l, single)
            == (if (l.wire[0].count == 1) == single then [KeyOf(l.wire[0])] else []) + Stream(LaneArrive(l, 0), single)
  {
    hide ClassKeys, Reassemble;
    ClassHead(l.wire, single);
    assert Without(l.wire, 0) == l.wire[1..];
  }

  /** When an in-order arrival completes its frame, nothing left in the class is of that frame or an earlier one. */
  lemma CompletedIsFirst(cfg: Config, l: Lane, single: bool, j: nat)
    requires cfg.Valid() && LaneInv(cfg, l) && l.wire != [] && l.wire[0].Data? && Ordered(cfg, l, single)
    requires (l.wire[0].count == 1) == single
    requires var l' := LaneArrive(l, 0); LaneInv(cfg, l') && l.wire[0].frame in l'.handed && j < |Stream(l', single)|
    ensures l.wire[0].frame < Stream(LaneArrive(l, 0), single)[j].0
  {
    hide Keys, ClassKeys, Chunks, Stream, Pending, Tracked, AirBalanced, HandedUp, ClassIds, LaneArrive, Genuine;
    var l', f := LaneArrive(l, 0), l.wire[0].frame;
    ArriveShortensStream(l, single);
    var k := Stream(l', single)[j];
    assert Stream(l, single)[j + 1] == k && Before(Stream(l, single)[0], k);
    if k.0 == f {
      StreamIsPending(cfg, l', single, k);
      assert false;
    }
  }

  lemma ArriveKeepsOrdered(cfg: Config, l: Lane, single: bool)
    requires cfg.Valid() && LaneInv(cfg, l) && l.wire != [] && l.wire[0].Data? && Ordered(cfg, l, single)
    ensures Ordered(cfg, LaneArrive(l, 0), single)
  {
    hide Keys, ClassKeys, Chunks, Stream, Pending, ClassIds, LaneArrive, LaneInv;
    var l', c := LaneArrive(l, 0), l.wire[0];
    ArriveKeepsInv(cfg, l, 0);
    ArriveShortensStream(l, single);
    ArriveHands(cfg, l, single);
    var done, done' := ClassIds(cfg, l.pushed, l.handed, single), ClassIds(cfg, l'.pushed, l'.handed, single);
    assert done' == done || (done' == done + [c.frame] && (c.count == 1) == single && c.frame in l'.handed);
    var left, left' := Stream(l, single), Stream(l', single);
    var shift := |left| - |left'|;
    assert forall j :: 0 <= j < |left'| ==> left'[j] == left[j + shift];
    if done' != done {
      assert left[0] == KeyOf(c);
      forall j | 0 <= j < |left'|
        ensures c.frame < left'[j].0
      {
        CompletedIsFirst(cfg, l, single, j);
      }
    }
  }

  lemma ArriveHands(cfg: Config, l: Lane, single: bool)
    requires cfg.Valid() && LaneInv(cfg, l) && l.wire != [] && l.wire[0].Data?
    ensures var l', c := LaneArrive(l, 0), l.wire[0];
            var done, done' := ClassIds(cfg, l.pushed, l.handed, single), ClassIds(cfg, l'.pushed, l'.handed, single);
            done' == done || (done' == done + [c.frame] && (c.count == 1) == single && c.frame in l'.handed)
  {
    hide Keys, Chunks, Pending, Tracked, AirBalanced, Received, HandedUp, Reassemble;
    var l', c := LaneArrive(l, 0), l.wire[0];
    assert Genuine(cfg, l.pushed, c);
    ConcatChunks(l.pushed[c.frame], cfg.chunkSize);
    if l'.handed == l.handed + [c.frame] {
      assert l'.handed[..|l.handed|] == l.handed;
    } else {
      assert l'.handed == l.handed;
    }
  }

  // ---------- the delivered frames ----------

  function Upto(n: nat): seq<nat> {
    seq(n, i => i)
  }

  lemma NoClassIds(cfg: Config, pushed: seq<Bytes>, single: bool)
    ensures ClassIds(cfg, pushed, Upto(0), single) == []
  {
  }

  lemma ClassIdsStep(cfg: Config, pushed: seq<Bytes>, m: nat, single: bool)
    requires m > 0
    ensures ClassIds(cfg, pushed, Upto(m), single)
            == ClassIds(cfg, pushed, Upto(m - 1), single) + if IsClass(cfg, pushed, m - 1, single) then [m - 1] else []
  {
    assert Upto(m)[..m - 1] == Upto(m - 1);
  }

  lemma LargestIsLast(ids: seq<nat>, largest: nat) returns (init: seq<nat>)
    requires Increasing(ids) && largest in ids && forall f :: f in ids ==> f <= largest
    ensures ids == init + [largest] && Increasing(init) && forall f :: f in init ==> f < largest
  {
    var j :| 0 <= j < |ids| && ids[j] == largest;
    assert ids[|ids| - 1] in ids;
    init := ids[..j];
    assert ids == init + [largest];
  }

  /** An increasing list of exactly the class numbers below `m` is the class of 0..m. */
  lemma {:induction false} IncreasingIsAll(cfg: Config, pushed: seq<Bytes>, ids: seq<nat>, m: nat, single: bool)
    requires Increasing(ids) && forall f :: f in ids <==> 0 <= f < m && IsClass(cfg, pushed, f, single)
    ensures ids == ClassIds(cfg, pushed, Upto(m), single)
    decreases m
  {
    hide ClassIds, IsClass;
    if m == 0 {
      NoClassIds(cfg, pushed, single);
      var first := if ids != [] then ids[0] else 0;
      assert first !in ids;
    } else {
      ClassIdsStep(cfg, pushed, m, single);
      if IsClass(cfg, pushed, m - 1, single) {
        var init := LargestIsLast(ids, m - 1);
        forall f
          ensures f in init <==> 0 <= f < m - 1 && IsClass(cfg, pushed, f, single)
        {
          assert f in ids <==> f in init || f == m - 1;
        }
        IncreasingIsAll(cfg, pushed, init, m - 1, single);
      } else {
        IncreasingIsAll(cfg, pushed, ids, m - 1, single);
      }
    }
  }

  lemma {:induction false} ClassFrames(cfg: Config, pushed: seq<Bytes>, ids: seq<nat>, frames: seq<Bytes>, single: bool)
    requires |ids| == |frames| && forall j :: 0 <= j < |ids| ==> ids[j] < |pushed| && frames[j] == pushed[ids[j]]
    ensures var c := ClassIds(cfg, pushed, ids, single);
            && (forall j :: 0 <= j < |c| ==> c[j] in ids && IsClass(cfg, pushed, c[j], single))
            && OfClass(cfg, frames, single) == seq(|c|, j requires 0 <= j < |c| => pushed[c[j]])
  {
    if ids != [] {
      ClassFrames(cfg, pushed, ids[..|ids| - 1], frames[..|ids| - 1], single);
    }
  }

  lemma {:induction false} ClassIdsMember(cfg: Config, pushed: seq<Bytes>, ids: seq<nat>, single: bool, f: nat)
    ensures f in ClassIds(cfg, pushed, ids, single) <==> f in ids && IsClass(cfg, pushed, f, single)
  {
    if ids != [] {
      ClassIdsMember(cfg, pushed, ids[..|ids| - 1], single, f);
      assert ids == ids[..|ids| - 1] + [ids[|ids| - 1]];
    }
  }

  lemma {:induction false} UptoPrefix(cfg: Config, pushed: seq<Bytes>, m: nat, n: nat, single: bool)
    requires m <= n
    ensures ClassIds(cfg, pushed, Upto(m), single) <= ClassIds(cfg, pushed, Upto(n), single)
    decreases n
  {
    if m < n {
      UptoPrefix(cfg, pushed, m, n - 1, single);
      assert Upto(n)[..n - 1] == Upto(n - 1);
    }
  }

  /** A pushed frame of the class below a delivered one is itself delivered. */
  lemma DeliveredIsClosed(cfg: Config, l: Lane, single: bool, f: nat, g: nat)
    requires cfg.Valid() && LaneInv(cfg, l) && Ordered(cfg, l, single)
    requires IsClass(cfg, l.pushed, f, single) && g in ClassIds(cfg, l.pushed, l.handed, single) && f <= g
    ensures f in l.handed
  {
    hide Keys, ClassKeys, Chunks, Stream, Pending, Tracked, AirBalanced, HandedUp, ClassIds;
    if f !in l.handed {
      assert FrameReceived(Parts(cfg, l.pushed, f), l.incomings, l.handed, Pending(l), f);
      var i :| 0 <= i < |Parts(cfg, l.pushed, f)| && (f, i) in Pending(l);
      PendingIsStream(cfg, l, single, (f, i));
      assert false;
    }
  }

  lemma OrderedDelivery(cfg: Config, l: Lane, single: bool)
    requires cfg.Valid() && LaneInv(cfg, l) && Ordered(cfg, l, single)
    ensures OfClass(cfg, l.arrived, single) <= OfClass(cfg, l.pushed, single)
  {
    hide Keys, ClassKeys, Chunks, Stream, WellFormed, Tracked, AirBalanced, Received, ClassIds, OfClass;
    var done, n := ClassIds(cfg, l.pushed, l.handed, single), |l.pushed|;
    var m := if done == [] then 0 else done[|done| - 1] + 1;
    forall f
      ensures f in done <==> 0 <= f < m && IsClass(cfg, l.pushed, f, single)
    {
      if f in done {
        var i :| 0 <= i < |done| && done[i] == f;
        ClassIdsMember(cfg, l.pushed, l.handed, single, f);
      } else if 0 <= f < m && IsClass(cfg, l.pushed, f, single) {
        DeliveredIsClosed(cfg, l, single, f, done[|done| - 1]);
        ClassIdsMember(cfg, l.pushed, l.handed, single, f);
      }
    }
    IncreasingIsAll(cfg, l.pushed, done, m, single);
    if done != [] {
      ClassIdsMember(cfg, l.pushed, l.handed, single, m - 1);
    }
    UptoPrefix(cfg, l.pushed, m, n, single);
    ClassFrames(cfg, l.pushed, l.handed, l.arrived, single);
    ClassFrames(cfg, l.pushed, Upto(n), l.pushed, single);
  }

  // ---------- runs ----------

  predicate InOrder(es: seq<Event>) {
    forall i :: 0 <= i < |es| && es[i].act.Receive? ==> es[i].act.i == 0
  }

  ghost predicate LinkOrdered(cfg: Config, s: Link) {
    forall single :: Ordered(cfg, LaneOf(s.a, s.b), single) && Ordered(cfg, LaneOf(s.b, s.a), single)
  }

  lemma ActKeepsOrdered(cfg: Config, s: Link, act: Action, single: bool)
    requires cfg.Valid() && Inv(cfg, s) && Enabled(cfg, s, act) && (act.Receive? ==> act.i == 0)
    requires Ordered(cfg, LaneOf(s.a, s.b), single) && Ordered(cfg, LaneOf(s.b, s.a), single)
    ensures var s' := Act(cfg, s, act);
            Ordered(cfg, LaneOf(s'.a, s'.b), single) && Ordered(cfg, LaneOf(s'.b, s'.a), single)
  {
    hide LaneInv, Ordered, Pick, Chunks, PushFrame, Reassemble, Settle, LaneOf, Act, Enabled;
    var there, back := LaneOf(s.a, s.b), LaneOf(s.b, s.a);
    match act
    case Push(data) =>
      PushFits(cfg, s, data);
      PushIsLanePush(cfg, s, data);
      PushKeepsOrdered(cfg, there, data, single);
    case Send =>
      LowIsData(cfg, s);
      SendIsLaneStep(cfg, s);
      SendKeepsLane(cfg, s, single);
    case Receive(i) =>
      ReceiveFirst(cfg, s, single);
    case Take =>
      TakeIsNoLaneStep(cfg, s);
  }

  lemma PushFits(cfg: Config, s: Link, data: Bytes)
    requires cfg.Valid() && Enabled(cfg, s, Push(data))
    ensures Fits(cfg, data)
  {
  }

  lemma SendKeepsLane(cfg: Config, s: Link, single: bool)
    requires cfg.Valid() && Inv(cfg, s) && Enabled(cfg, s, Send)
    requires Ordered(cfg, LaneOf(s.a, s.b), single) && Ordered(cfg, LaneOf(s.b, s.a), single)
    ensures var s' := Act(cfg, s, Send);
            Ordered(cfg, LaneOf(s'.a, s'.b), single) && Ordered(cfg, LaneOf(s'.b, s'.a), single)
  {
    hide Pick, Chunks, WellFormed, Tracked, AirBalanced, Received, HandedUp, LaneOf, Act, ClassKeys, SortedKeys,
         Increasing, ClassIds;
    LowIsData(cfg, s);
    SendIsLaneStep(cfg, s);
    if Head(s.a.buf).value.Data? {
      SendKeepsStream(cfg, LaneOf(s.a, s.b), s.a.buf.high != [], single);
    }
  }

  lemma ReceiveFirst(cfg: Config, s: Link, single: bool)
    requires cfg.Valid() && Inv(cfg, s) && Enabled(cfg, s, Receive(0))
    requires Ordered(cfg, LaneOf(s.a, s.b), single) && Ordered(cfg, LaneOf(s.b, s.a), single)
    ensures var s' := Act(cfg, s, Receive(0));
            Ordered(cfg, LaneOf(s'.a, s'.b), single) && Ordered(cfg, LaneOf(s'.b, s'.a), single)
  {
    hide Chunks, WellFormed, Tracked, AirBalanced, Received, HandedUp, LaneOf, Act, ClassKeys, SortedKeys, Increasing,
         ClassIds;
    ReceiveIsLaneStep(cfg, s, 0);
    assert Pick(s.b.wire[..0], s.b.wire[0].Data?) == [];
    if s.b.wire[0].Data? {
      ArriveKeepsOrdered(cfg, LaneOf(s.b, s.a), single);
    }
  }

  lemma StepKeepsOrdered(cfg: Config, s: Link, e: Event)
    requires cfg.Valid() && Inv(cfg, s) && CanStep(cfg, s, e) && LinkOrdered(cfg, s)
    requires e.act.Receive? ==> e.act.i == 0
    ensures LinkOrdered(cfg, Step(cfg, s, e))
  {
    hide LaneInv, LaneOf, Act, Enabled, Ordered;
    forall single
      ensures var s' := Step(cfg, s, e);
              Ordered(cfg, LaneOf(s'.a, s'.b), single) && Ordered(cfg, LaneOf(s'.b, s'.a), single)
    {
      if e.atA {
        ActKeepsOrdered(cfg, s, e.act, single);
      } else {
        ActKeepsOrdered(cfg, Swap(s), e.act, single);
      }
    }
  }

  lemma {:induction false} RunKeepsOrdered(cfg: Config, es: seq<Event>, states: seq<Link>, n: nat)
    requires cfg.Valid() && IsRun(cfg, es, states) && states[0] == START && n < |states| && InOrder(es)
    ensures LinkOrdered(cfg, states[n])
  {
    hide Inv, Step, CanStep;
    if n > 0 {
      RunKeepsOrdered(cfg, es, states, n - 1);
      RunKeepsInv(cfg, es, states, n - 1);
      StepKeepsOrdered(cfg, states[n - 1], es[n - 1]);
    }
  }

  lemma {:induction false} OfClassPrefix(cfg: Config, s: seq<Bytes>, t: seq<Bytes>, single: bool)
    ensures OfClass(cfg, s, single) <= OfClass(cfg, s + t, single)
    decreases |t|
  {
    if t == [] {
      assert s + t == s;
    } else {
      OfClassPrefix(cfg, s, t[..|t| - 1], single);
      assert (s + t)[..|s + t| - 1] == s + t[..|t| - 1];
    }
  }

  /**
   In every run over in-order wires, the frames of a priority class handed up at one end are a prefix of
   the frames of that class pushed at the other.
   */
  lemma ClassOrderInEveryRun(cfg: Config, es: seq<Event>, states: seq<Link>, n: nat, single: bool)
    requires cfg.Valid() && IsRun(cfg, es, states) && states[0] == START && n < |states| && InOrder(es)
    ensures OfClass(cfg, states[n].b.popped, single) <= OfClass(cfg, states[n].a.pushed, single)
    ensures OfClass(cfg, states[n].a.popped, single) <= OfClass(cfg, states[n].b.pushed, single)
  {
    hide IsRun, LaneInv, Ordered, OfClass, Pick;
    var s := states[n];
    RunKeepsInv(cfg, es, states, n);
    RunKeepsOrdered(cfg, es, states, n);
    OrderedDelivery(cfg, LaneOf(s.a, s.b), single);
    OrderedDelivery(cfg, LaneOf(s.b, s.a), single);
    OfClassPrefix(cfg, s.b.popped, s.b.buf.outs, single);
    OfClassPrefix(cfg, s.a.popped, s.a.buf.outs, single);
  }
}
