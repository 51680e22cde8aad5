/** What every run of two endpoints guarantees: exact delivery and window accounting. */
module TransportDelivery {
  import opened Sequences
  import opened Chunking
  import opened ConnectionBuffers
  import opened TransportLane
  import opened Transport

  // ---------- delivery ----------

  /** Some chunk of frame `f` is still queued at `x` or on its wire. */
  ghost predicate StillMoving(x: End, f: nat) {
    exists c :: c in x.buf.high + x.buf.low + x.wire && c.Data? && c.frame == f
  }

  /**
   The frames completed at `y` are frames pushed at `x`, byte for byte and each at most once, and they
   are exactly the pushed frames without a chunk queued or on the wire.
   */
  ghost predicate ExactDelivery(x: End, y: End) {
    && |y.popped + y.buf.outs| == |y.handed| && Distinct(y.handed)
    && (forall j :: 0 <= j < |y.handed| ==>
        y.handed[j] < |x.pushed| && (y.popped + y.buf.outs)[j] == x.pushed[y.handed[j]])
    && (forall f :: 0 <= f < |x.pushed| ==> (f in y.handed <==> !StillMoving(x, f)))
  }

  lemma {:induction false} PickMember(s: seq<Chunk>, data: bool, c: Chunk)
    ensures c in Pick(s, data) <==> c in s && c.Data? == data
  {
    if s != [] {
      var init, last := s[..|s| - 1], s[|s| - 1];
      PickMember(init, data, c);
      assert s == init + [last];
    }
  }

  lemma PendingIsMoving(cfg: Config, x: End, y: End, f: nat)
    requires cfg.Valid() && LaneInv(cfg, LaneOf(x, y)) && f < |x.pushed|
    ensures var l := LaneOf(x, y);
            Complete(Pending(l), f, |Parts(cfg, l.pushed, f)|) <==> !StillMoving(x, f)
  {
    hide Keys, Pick, Chunks, Received, AirBalanced, HandedUp;
    var l := LaneOf(x, y);
    var n := |Parts(cfg, l.pushed, f)|;
    if i :| 0 <= i < n && (f, i) in Pending(l) {
      var s := if (f, i) in Keys(l.hi) then l.hi else if (f, i) in Keys(l.lo) then l.lo else l.wire;
      var j := KeysMember(s, (f, i));
      PickMember(x.buf.high, true, s[j]);
      PickMember(x.wire, true, s[j]);
      assert s[j].Data? && s[j] in x.buf.high + x.buf.low + x.wire;
    }
    if c :| c in x.buf.high + x.buf.low + x.wire && c.Data? && c.frame == f {
      PickMember(x.buf.high, true, c);
      PickMember(x.wire, true, c);
      var s := if c in l.hi then l.hi else if c in l.lo then l.lo else l.wire;
      var j :| 0 <= j < |s| && s[j] == c;
      KeysHas(s, j);
      assert Genuine(cfg, l.pushed, c);
      assert (f, c.id) in Pending(l) && c.id < n;
    }
  }

  lemma LaneDelivers(cfg: Config, x: End, y: End)
    requires cfg.Valid() && LaneInv(cfg, LaneOf(x, y))
    ensures ExactDelivery(x, y)
  {
    hide Keys, Pick, Chunks, StillMoving, Pending, Complete, WellFormed, Tracked, AirBalanced;
    var l := LaneOf(x, y);
    forall f | 0 <= f < |x.pushed|
      ensures f in y.handed <==> !StillMoving(x, f)
    {
      PendingIsMoving(cfg, x, y, f);
      assert FrameReceived(Parts(cfg, l.pushed, f), l.incomings, l.handed, Pending(l), f);
    }
  }

  /** Exact delivery in both directions, after every event of every run. */
  lemma DeliveryInEveryRun(cfg: Config, es: seq<Event>, states: seq<Link>, n: nat)
    requires cfg.Valid() && IsRun(cfg, es, states) && states[0] == START && n < |states|
    ensures ExactDelivery(states[n].a, states[n].b) && ExactDelivery(states[n].b, states[n].a)
  {
    hide LaneInv, LaneOf, ExactDelivery, IsRun;
    RunKeepsInv(cfg, es, states, n);
    LaneDelivers(cfg, states[n].a, states[n].b);
    LaneDelivers(cfg, states[n].b, states[n].a);
  }

  // ---------- the send window ----------

  function AirSum(s: seq<Chunk>): nat {
    if s == [] then 0 else AirSum(s[..|s| - 1]) + s[|s| - 1].AirSize()
  }

  /** The sizes `out` records for the chunks acked by `s`. */
  function AckSum(out: map<nat, map<nat, nat>>, s: seq<Chunk>): nat {
    if s == [] then 0
    else
      var c := s[|s| - 1];
      AckSum(out, s[..|s| - 1]) + if c.Ack? && Has(out, KeyOf(c)) then out[c.frame][c.id] else 0
  }

  ghost function OutKeys(out: map<nat, map<nat, nat>>): set<Key> {
    set f, i | f in out && i in out[f] :: (f, i)
  }

  ghost function StoredSum(out: map<nat, map<nat, nat>>, ks: set<Key>): nat
    requires forall k :: k in ks ==> Has(out, k)
    decreases |ks|
  {
    if ks == {} then 0
    else
      var k :| k in ks;
      assert Has(out, k);
      out[k.0][k.1] + StoredSum(out, ks - {k})
  }

  /** The in-air size of `x` counts exactly its popped, unacked chunks; `y` is the other end. */
  ghost predicate WindowBalanced(cfg: Config, x: End, y: End) {
    var out := x.buf.outgoings;
    && x.buf.inAir == AirSum(x.wire) + AckSum(out, y.buf.high) + AckSum(out, y.wire)
    && x.buf.inAir <= cfg.airLimit
    && StoredSum(out, OutKeys(out)) == x.buf.inAir + AirSum(x.buf.high) + AirSum(x.buf.low)
    && (forall c :: c in y.buf.high + y.wire && c.Ack? ==>
        && Has(out, KeyOf(c)) && out[c.frame][c.id] <= x.buf.inAir
        && !exists d :: d in x.buf.high + x.buf.low && d.Data? && KeyOf(d) == KeyOf(c))
  }

  lemma {:induction false} AirSumPick(s: seq<Chunk>)
    ensures AirSum(Pick(s, true)) == AirSum(s)
  {
    if s != [] {
      var init, last := s[..|s| - 1], s[|s| - 1];
      AirSumPick(init);
      if last.Data? {
        assert (Pick(init, true) + [last])[..|Pick(init, true)|] == Pick(init, true);
      } else {
        assert Pick(s, true) == Pick(init, true);
      }
    }
  }

  lemma AckSumSnoc(out: map<nat, map<nat, nat>>, s: seq<Chunk>, c: Chunk)
    ensures AckSum(out, s + [c]) == AckSum(out, s) + if c.Ack? && Has(out, KeyOf(c)) then out[c.frame][c.id] else 0
  {
    assert (s + [c])[..|s|] == s;
  }

  lemma {:induction false} AckSumPick(out: map<nat, map<nat, nat>>, s: seq<Chunk>)
    ensures AckSum(out, Pick(s, false)) == AckSum(out, s)
  {
    hide Pick, AckSum;
    if s == [] {
      PickNone(false);
    } else {
      var init, last := s[..|s| - 1], s[|s| - 1];
      AckSumPick(out, init);
      assert init + [last] == s;
      PickSnoc(init, last, false);
      AckSumSnoc(out, init, last);
      AckSumSnoc(out, Pick(init, false), last);
      assert Pick(init, false) + [] == Pick(init, false);
    }
  }

  lemma {:induction false} AirSumIsTotal(cfg: Config, pushed: seq<Bytes>, s: seq<Chunk>)
    requires cfg.Valid() && AllGenuine(cfg, pushed, s, true)
    ensures AirSum(s) == TotalSize(cfg, pushed, Keys(s))
  {
    hide TotalSize, Chunks;
    if s == [] {
      EmptyTotal(cfg, pushed);
    } else {
      var init, last := s[..|s| - 1], s[|s| - 1];
      AirSumIsTotal(cfg, pushed, init);
      TotalSizeAdd(cfg, pushed, Keys(init), KeyOf(last));
    }
  }

  lemma EmptyTotal(cfg: Config, pushed: seq<Bytes>)
    requires cfg.Valid()
    ensures TotalSize(cfg, pushed, multiset{}) == 0
  {
  }

  lemma {:induction false} AckSumIsTotal(cfg: Config, pushed: seq<Bytes>, out: map<nat, map<nat, nat>>, s: seq<Chunk>)
    requires cfg.Valid()
    requires forall i :: 0 <= i < |s| ==>
               s[i].Ack? && Has(out, KeyOf(s[i])) && out[s[i].frame][s[i].id] == SizeOf(cfg, pushed, KeyOf(s[i]))
    ensures AckSum(out, s) == TotalSize(cfg, pushed, Keys(s))
  {
    hide TotalSize, Chunks, SizeOf;
    if s == [] {
      EmptyTotal(cfg, pushed);
    } else {
      var init, last := s[..|s| - 1], s[|s| - 1];
      AckSumIsTotal(cfg, pushed, out, init);
      TotalSizeAdd(cfg, pushed, Keys(init), KeyOf(last));
    }
  }

  lemma {:induction false} StoredIsTotal(cfg: Config, pushed: seq<Bytes>, out: map<nat, map<nat, nat>>, ks: set<Key>)
    requires cfg.Valid()
    requires forall k :: k in ks ==> Has(out, k) && out[k.0][k.1] == SizeOf(cfg, pushed, k)
    ensures StoredSum(out, ks) == TotalSize(cfg, pushed, multiset(ks))
    decreases |ks|
  {
    hide TotalSize, SizeOf;
    if ks == {} {
      EmptyTotal(cfg, pushed);
      assert multiset(ks) == multiset{};
    } else {
      var k :| k in ks && StoredSum(out, ks) == out[k.0][k.1] + StoredSum(out, ks - {k});
      StoredIsTotal(cfg, pushed, out, ks - {k});
      TotalSizeAdd(cfg, pushed, multiset(ks - {k}), k);
      assert multiset(ks - {k}) + multiset{k} == multiset(ks);
    }
  }

  /** The keys of a chunk list, each recorded in `out` with its size. */
  lemma RecordedAcks(cfg: Config, l: Lane, s: seq<Chunk>)
    requires cfg.Valid() && WellFormed(cfg, l) && Tracked(cfg, l) && (s == l.acks || s == l.back)
    ensures forall i :: 0 <= i < |s| ==>
              && s[i].Ack? && Has(l.out, KeyOf(s[i])) && KeyOf(s[i]) !in Keys(l.hi) + Keys(l.lo)
              && l.out[s[i].frame][s[i].id] == SizeOf(cfg, l.pushed, KeyOf(s[i]))
  {
    hide Keys, Chunks, SizeOf, Genuine;
    forall i | 0 <= i < |s|
      ensures s[i].Ack? && Has(l.out, KeyOf(s[i])) && KeyOf(s[i]) !in Keys(l.hi) + Keys(l.lo)
    {
      KeysHas(s, i);
      assert Pipe(l)[KeyOf(s[i])] <= 1;
    }
  }

  lemma LaneAir(cfg: Config, l: Lane)
    requires cfg.Valid() && LaneInv(cfg, l)
    ensures l.inAir == AirSum(l.wire) + AckSum(l.out, l.acks) + AckSum(l.out, l.back)
  {
    hide Keys, Chunks, SizeOf, TotalSize, Received, HandedUp;
    AirSumIsTotal(cfg, l.pushed, l.wire);
    RecordedAcks(cfg, l, l.acks);
    RecordedAcks(cfg, l, l.back);
    AckSumIsTotal(cfg, l.pushed, l.out, l.acks);
    AckSumIsTotal(cfg, l.pushed, l.out, l.back);
    TotalSizeSplit(cfg, l.pushed, Keys(l.wire) + Keys(l.acks), Keys(l.back));
    TotalSizeSplit(cfg, l.pushed, Keys(l.wire), Keys(l.acks));
  }

  lemma LaneStored(cfg: Config, l: Lane)
    requires cfg.Valid() && LaneInv(cfg, l)
    ensures StoredSum(l.out, OutKeys(l.out)) == l.inAir + AirSum(l.hi) + AirSum(l.lo)
  {
    hide Keys, Chunks, SizeOf, TotalSize, Received, HandedUp, Flying;
    var ks := OutKeys(l.out);
    StoredIsTotal(cfg, l.pushed, l.out, ks);
    assert multiset(ks) == Pipe(l);
    AirSumIsTotal(cfg, l.pushed, l.hi);
    AirSumIsTotal(cfg, l.pushed, l.lo);
    TotalSizeSplit(cfg, l.pushed, Keys(l.hi) + Keys(l.lo), Flying(l));
    TotalSizeSplit(cfg, l.pushed, Keys(l.hi), Keys(l.lo));
  }

  lemma AckedIsPopped(cfg: Config, x: End, y: End, c: Chunk)
    requires cfg.Valid() && LaneInv(cfg, LaneOf(x, y)) && c in y.buf.high + y.wire && c.Ack?
    ensures Has(x.buf.outgoings, KeyOf(c)) && x.buf.outgoings[c.frame][c.id] <= x.buf.inAir
    ensures !exists d :: d in x.buf.high + x.buf.low && d.Data? && KeyOf(d) == KeyOf(c)
  {
    hide Keys, Chunks, SizeOf, TotalSize, Received, HandedUp, Pick;
    var l := LaneOf(x, y);
    PickMember(y.buf.high, false, c);
    PickMember(y.wire, false, c);
    var s := if c in l.acks then l.acks else l.back;
    var i :| 0 <= i < |s| && s[i] == c;
    RecordedAcks(cfg, l, s);
    FlyingIsCounted(cfg, l, KeyOf(c)) by {
      KeysHas(s, i);
    }
    forall d | d in x.buf.high + x.buf.low && d.Data?
      ensures KeyOf(d) in Keys(l.hi) + Keys(l.lo)
    {
      PickMember(x.buf.high, true, d);
      var q := if d in l.hi then l.hi else l.lo;
      var j :| 0 <= j < |q| && q[j] == d;
      KeysHas(q, j);
    }
  }

  lemma FlyingIsCounted(cfg: Config, l: Lane, k: Key)
    requires cfg.Valid() && AirBalanced(cfg, l) && k in Flying(l)
    ensures SizeOf(cfg, l.pushed, k) <= l.inAir
  {
    hide Keys, SizeOf;
    TotalSizeAdd(cfg, l.pushed, Flying(l) - multiset{k}, k);
    assert Flying(l) - multiset{k} + multiset{k} == Flying(l);
  }

  lemma LaneWindow(cfg: Config, x: End, y: End)
    requires cfg.Valid() && LaneInv(cfg, LaneOf(x, y))
    ensures WindowBalanced(cfg, x, y)
  {
    hide Pick, AirSum, AckSum, StoredSum, OutKeys, WellFormed, Tracked, Received, HandedUp, Keys;
    var l := LaneOf(x, y);
    LaneAir(cfg, l);
    LaneStored(cfg, l);
    AirSumPick(x.wire);
    AirSumPick(x.buf.high);
    AckSumPick(l.out, y.buf.high);
    AckSumPick(l.out, y.wire);
    forall c | c in y.buf.high + y.wire && c.Ack?
      ensures Has(l.out, KeyOf(c)) && l.out[c.frame][c.id] <= x.buf.inAir
      ensures !exists d :: d in x.buf.high + x.buf.low && d.Data? && KeyOf(d) == KeyOf(c)
    {
      AckedIsPopped(cfg, x, y, c);
    }
  }

  /**
    Which ends of a link can send: those whose first queued chunk fits; it goes onto the wire, the rest stays queued.
   */
  lemma SendInEveryState(cfg: Config, s: Link, atA: bool)
    requires cfg.Valid()
    ensures var x, e := if atA then s.a else s.b, Event(atA, Send);
            var queue := x.buf.high + x.buf.low;
            && (CanStep(cfg, s, e) <==> queue != [] && queue[0].AirSize() + x.buf.inAir <= cfg.airLimit)
            && (CanStep(cfg, s, e) ==>
                  var s' := Step(cfg, s, e);
                  var x' := if atA then s'.a else s'.b;
                  x'.wire == x.wire + [queue[0]] && x'.buf.high + x'.buf.low == queue[1..])
  {
    SendLaw(cfg, if atA then s.a.buf else s.b.buf);
  }

  /** The window is balanced in both directions, after every event of every run. */
  lemma WindowInEveryRun(cfg: Config, es: seq<Event>, states: seq<Link>, n: nat)
    requires cfg.Valid() && IsRun(cfg, es, states) && states[0] == START && n < |states|
    ensures WindowBalanced(cfg, states[n].a, states[n].b) && WindowBalanced(cfg, states[n].b, states[n].a)
  {
    hide LaneInv, LaneOf, WindowBalanced, IsRun;
    RunKeepsInv(cfg, es, states, n);
    LaneWindow(cfg, states[n].a, states[n].b);
    LaneWindow(cfg, states[n].b, states[n].a);
  }
}
