/** When a link makes progress: termination of every run, and exactly which states are stuck. */
module TransportProgress {
  import opened Sequences
  import opened Chunking
  import opened ConnectionBuffers
  import opened TransportLane
  import opened TransportLaneProof
  import opened Transport
  import opened TransportDelivery

  /** Data is still queued at `x`, or not yet acked. */
  predicate Outstanding(x: End) {
    (exists i :: 0 <= i < |x.buf.high| && x.buf.high[i].Data?) || x.buf.low != [] || x.buf.outgoings != map[]
  }

  /** The high-priority queue starts with a single-chunk frame that does not fit, and an ack waits behind it. */
  predicate Blocked(cfg: Config, x: End) {
    && x.buf.high != [] && x.buf.high[0].Data? && x.buf.high[0].count == 1
    && x.buf.high[0].AirSize() + x.buf.inAir > cfg.airLimit
    && exists j :: 0 < j < |x.buf.high| && x.buf.high[j].Ack?
  }

  predicate WiresEmpty(s: Link) {
    s.a.wire == [] && s.b.wire == []
  }

  predicate CanSendEither(cfg: Config, s: Link) {
    CanSend(cfg, s.a.buf) || CanSend(cfg, s.b.buf)
  }

  // ---------- who waits for whom ----------

  lemma {:induction false} PickSome(s: seq<Chunk>, data: bool) returns (j: nat)
    requires Pick(s, data) != []
    ensures j < |s| && s[j].Data? == data
  {
    j := |s| - 1;
    if s[j].Data? != data {
      var i := PickSome(s[..j], data);
      j := i;
    }
  }

  /** With empty wires, whatever `x` has in the air or unacked but not queued waits as an ack at `y`. */
  lemma AckWaits(cfg: Config, x: End, y: End) returns (j: nat)
    requires cfg.Valid() && LaneInv(cfg, LaneOf(x, y)) && x.wire == [] && y.wire == []
    requires x.buf.inAir > 0 || (Pick(x.buf.high, true) == [] && x.buf.low == [] && x.buf.outgoings != map[])
    ensures j < |y.buf.high| && y.buf.high[j].Ack?
  {
    hide Pick, Chunks, WellFormed, Received, HandedUp;
    var l := LaneOf(x, y);
    assert l.wire == [] && l.back == [] by {
      PickAll([], true);
      PickAll([], false);
    }
    if l.acks == [] {
      EmptyTotal(cfg, l.pushed);
      assert Flying(l) == multiset{};
      var f :| f in l.out;
      var i :| i in l.out[f];
      RecordedIsPiped(cfg, l, (f, i));
      assert false;
    }
    j := PickSome(y.buf.high, false);
  }

  lemma RecordedIsPiped(cfg: Config, l: Lane, k: Key)
    requires cfg.Valid() && Tracked(cfg, l)
    ensures Has(l.out, k) <==> k in Pipe(l)
  {
    hide Keys;
    assert Pipe(l)[k] == if Has(l.out, k) then 1 else 0;
  }

  lemma QueueHead(cfg: Config, x: End, y: End)
    requires cfg.Valid() && LaneInv(cfg, LaneOf(x, y)) && x.buf.low != []
    ensures x.buf.low[0].Data? && x.buf.low[0].AirSize() <= cfg.airLimit
  {
    hide Pick, Chunks, Tracked, AirBalanced, Received, HandedUp;
    var c := LaneOf(x, y).lo[0];
    assert Genuine(cfg, x.pushed, c);
    ConcatChunks(x.pushed[c.frame], cfg.chunkSize);
  }

  lemma HighHead(cfg: Config, x: End, y: End)
    requires cfg.Valid() && LaneInv(cfg, LaneOf(x, y)) && x.buf.high != [] && x.buf.high[0].Data?
    ensures x.buf.high[0].count == 1 && x.buf.high[0].AirSize() <= cfg.airLimit
  {
    hide Pick, Chunks, Tracked, AirBalanced, Received, HandedUp;
    var c := x.buf.high[0];
    PickHead(x.buf.high, true);
    assert LaneOf(x, y).hi[0] == c && Genuine(cfg, x.pushed, c);
    ConcatChunks(x.pushed[c.frame], cfg.chunkSize);
  }

  /** An endpoint with something queued that cannot send is held up by a data chunk and has bytes in the air. */
  lemma HeldUp(cfg: Config, x: End, y: End)
    requires cfg.Valid() && LaneInv(cfg, LaneOf(x, y)) && Head(x.buf).Some? && !CanSend(cfg, x.buf)
    ensures x.buf.inAir > 0 && Head(x.buf).value.Data? && (x.buf.high != [] ==> x.buf.high[0].count == 1)
  {
    hide Pick, Chunks, WellFormed, Tracked, Received, HandedUp;
    if x.buf.high != [] {
      if x.buf.high[0].Data? {
        HighHead(cfg, x, y);
      }
    } else {
      QueueHead(cfg, x, y);
    }
  }

  lemma AckForces(cfg: Config, x: End, y: End, i: nat) returns (j: nat)
    requires cfg.Valid() && LaneInv(cfg, LaneOf(x, y)) && x.wire == [] && y.wire == [] && !CanSend(cfg, x.buf)
    requires i < |x.buf.high| && x.buf.high[i].Ack?
    ensures j < |y.buf.high| && y.buf.high[j].Ack? && Blocked(cfg, x)
  {
    hide LaneInv, LaneOf, Pick;
    HeldUp(cfg, x, y);
    j := AckWaits(cfg, x, y);
    assert i > 0;
  }

  lemma OutstandingForces(cfg: Config, x: End, y: End) returns (j: nat)
    requires cfg.Valid() && LaneInv(cfg, LaneOf(x, y)) && x.wire == [] && y.wire == [] && !CanSend(cfg, x.buf)
    requires Outstanding(x)
    ensures j < |y.buf.high| && y.buf.high[j].Ack?
  {
    hide LaneInv, LaneOf;
    if Head(x.buf).Some? {
      HeldUp(cfg, x, y);
    } else {
      assert x.buf.high == [];
    }
    j := AckWaits(cfg, x, y);
  }

  /** With empty wires and work left, neither end can send exactly when both are blocked. */
  lemma StuckIff(cfg: Config, s: Link)
    requires cfg.Valid() && Inv(cfg, s) && WiresEmpty(s) && (Outstanding(s.a) || Outstanding(s.b))
    ensures !CanSendEither(cfg, s) <==> Blocked(cfg, s.a) && Blocked(cfg, s.b)
  {
    hide LaneInv, LaneOf, Pick, Outstanding, Blocked;
    if !CanSendEither(cfg, s) {
      if Outstanding(s.a) {
        var j := OutstandingForces(cfg, s.a, s.b);
        var i := AckForces(cfg, s.b, s.a, j);
        var k := AckForces(cfg, s.a, s.b, i);
      } else {
        var j := OutstandingForces(cfg, s.b, s.a);
        var i := AckForces(cfg, s.a, s.b, j);
        var k := AckForces(cfg, s.b, s.a, i);
      }
    } else {
      BlockedCannotSend(cfg, s.a);
      BlockedCannotSend(cfg, s.b);
    }
  }

  lemma BlockedCannotSend(cfg: Config, x: End)
    ensures Blocked(cfg, x) ==> !CanSend(cfg, x.buf)
  {
  }

  // ---------- every run without pushes ends ----------

  function LaneWeight(l: Lane): nat {
    5 * |l.hi| + 5 * |l.lo| + 4 * |l.wire| + 2 * |l.acks| + |l.back|
  }

  function Weight(s: Link): nat {
    LaneWeight(LaneOf(s.a, s.b)) + LaneWeight(LaneOf(s.b, s.a)) + |s.a.buf.outs| + |s.b.buf.outs|
  }

  lemma ReceiveShrinks(cfg: Config, s: Link, i: nat)
    requires cfg.Valid() && Enabled(cfg, s, Receive(i))
    ensures Weight(Act(cfg, s, Receive(i))) < Weight(s)
  {
    hide Pick, LaneOf, Settle, Gather;
    ReceiveIsLaneStep(cfg, s, i);
  }

  lemma ActShrinks(cfg: Config, s: Link, act: Action)
    requires cfg.Valid() && Inv(cfg, s) && Enabled(cfg, s, act) && !act.Push?
    ensures Weight(Act(cfg, s, act)) < Weight(s)
  {
    hide LaneInv, Pick, LaneOf, OnReceived;
    match act
    case Send =>
      LowIsData(cfg, s);
      SendIsLaneStep(cfg, s);
    case Receive(i) =>
      ReceiveShrinks(cfg, s, i);
    case Take =>
      TakeIsNoLaneStep(cfg, s);
  }

  lemma StepShrinks(cfg: Config, s: Link, e: Event)
    requires cfg.Valid() && Inv(cfg, s) && CanStep(cfg, s, e) && !e.act.Push?
    ensures Weight(Step(cfg, s, e)) < Weight(s)
  {
    hide LaneInv, LaneOf, Act, Enabled;
    if e.atA {
      ActShrinks(cfg, s, e.act);
    } else {
      ActShrinks(cfg, Swap(s), e.act);
    }
  }

  /** Without further pushes a run takes at most `Weight` steps, from any reachable state. */
  lemma {:induction false} RunsEnd(cfg: Config, es: seq<Event>, states: seq<Link>)
    requires cfg.Valid() && IsRun(cfg, es, states) && Inv(cfg, states[0])
    requires forall i :: 0 <= i < |es| ==> !es[i].act.Push?
    ensures |es| <= Weight(states[0]) && Inv(cfg, states[|es|])
    ensures |es| + Weight(states[|es|]) <= Weight(states[0])
  {
    hide Inv, Step, CanStep, Weight;
    if es != [] {
      var n := |es| - 1;
      RunsEnd(cfg, es[..n], states[..n + 1]);
      StepShrinks(cfg, states[n], es[n]);
      StepKeepsInv(cfg, states[n], es[n]);
    }
  }

  // ---------- where a run can end ----------

  /** No event but a push is possible. */
  ghost predicate Quiescent(cfg: Config, s: Link)
    requires cfg.Valid()
  {
    forall e: Event :: !e.act.Push? ==> !CanStep(cfg, s, e)
  }

  /** Every frame pushed at `x` was handed up at `y` exactly once, and nothing is recorded as unacked. */
  ghost predicate AllDelivered(x: End, y: End) {
    && |y.popped| == |x.pushed| == |y.handed| && Distinct(y.handed)
    && (forall j :: 0 <= j < |y.handed| ==> y.handed[j] < |x.pushed| && y.popped[j] == x.pushed[y.handed[j]])
    && x.buf.high == [] && x.buf.low == [] && x.buf.outgoings == map[] && x.buf.inAir == 0
  }

  lemma QuiescentMeans(cfg: Config, s: Link)
    requires cfg.Valid() && Quiescent(cfg, s)
    ensures WiresEmpty(s) && !CanSendEither(cfg, s) && s.a.buf.outs == [] && s.b.buf.outs == []
  {
    assert !CanStep(cfg, s, Event(true, Send)) && !CanStep(cfg, s, Event(false, Send));
    assert !CanStep(cfg, s, Event(true, Take)) && !CanStep(cfg, s, Event(false, Take));
    assert !CanStep(cfg, s, Event(true, Receive(0))) && !CanStep(cfg, s, Event(false, Receive(0)));
  }

  lemma DistinctCovers(s: seq<nat>, n: nat)
    requires Distinct(s) && forall f: nat :: f in s <==> f < n
    ensures |s| == n
  {
    FewElements(s);
    FullSet(Elements(s), n);
  }

  lemma NothingLeft(cfg: Config, x: End, y: End)
    requires cfg.Valid() && LaneInv(cfg, LaneOf(x, y)) && !Outstanding(x) && x.wire == [] && y.buf.outs == []
    requires x.buf.high == [] && y.buf.high == [] && y.wire == []
    ensures AllDelivered(x, y)
  {
    hide Pick, Keys, WellFormed, Tracked, Received, HandedUp;
    LaneDelivers(cfg, x, y);
    assert y.popped + y.buf.outs == y.popped;
    forall f | 0 <= f < |x.pushed|
      ensures f in y.handed
    {
      assert !StillMoving(x, f);
    }
    DistinctCovers(y.handed, |x.pushed|);
    var l := LaneOf(x, y);
    PickAll([], true);
    PickAll([], false);
    assert Flying(l) == multiset{} by {
      NoKeys();
    }
    EmptyTotal(cfg, l.pushed);
  }

  /** Nothing outstanding anywhere and no one able to send: the queues hold no ack either. */
  lemma NoAckLeft(cfg: Config, x: End)
    requires cfg.Valid() && x.buf.inAir <= cfg.airLimit && !Outstanding(x) && !CanSend(cfg, x.buf)
    ensures x.buf.high == []
  {
  }

  lemma AirBounded(cfg: Config, x: End, y: End)
    requires cfg.Valid() && LaneInv(cfg, LaneOf(x, y))
    ensures x.buf.inAir <= cfg.airLimit
  {
  }

  /** A run that can only go on by pushing has delivered everything, unless both ends are blocked. */
  lemma QuiescentIff(cfg: Config, s: Link)
    requires cfg.Valid() && Inv(cfg, s) && Quiescent(cfg, s)
    ensures AllDelivered(s.a, s.b) && AllDelivered(s.b, s.a) <==> !(Blocked(cfg, s.a) && Blocked(cfg, s.b))
  {
    hide LaneInv, LaneOf, Outstanding, AllDelivered, CanSend, Quiescent;
    QuiescentMeans(cfg, s);
    if Outstanding(s.a) || Outstanding(s.b) {
      StuckIff(cfg, s);
      DeliveredIsEmpty(s.a, s.b);
      DeliveredIsEmpty(s.b, s.a);
    } else {
      AirBounded(cfg, s.a, s.b);
      AirBounded(cfg, s.b, s.a);
      NoAckLeft(cfg, s.a);
      NoAckLeft(cfg, s.b);
      NothingLeft(cfg, s.a, s.b);
      NothingLeft(cfg, s.b, s.a);
    }
  }

  lemma DeliveredIsEmpty(x: End, y: End)
    ensures AllDelivered(x, y) ==> x.buf.high == [] && !Outstanding(x)
  {
  }

  // ---------- one-way traffic ----------

  predicate OnlyAPushes(es: seq<Event>) {
    forall i :: 0 <= i < |es| && es[i].act.Push? ==> es[i].atA
  }

  lemma {:induction false} NothingPushedAtB(cfg: Config, es: seq<Event>, states: seq<Link>, n: nat)
    requires cfg.Valid() && IsRun(cfg, es, states) && states[0] == START && n < |states| && OnlyAPushes(es)
    ensures states[n].b.pushed == []
  {
    if n > 0 {
      NothingPushedAtB(cfg, es, states, n - 1);
    }
  }

  lemma NoDataWithoutPush(cfg: Config, x: End, y: End)
    requires cfg.Valid() && LaneInv(cfg, LaneOf(x, y)) && x.pushed == []
    ensures Pick(x.buf.high, true) == []
  {
    hide Pick;
    if Pick(x.buf.high, true) != [] {
      GenuineAt(cfg, x.pushed, Pick(x.buf.high, true), true, 0);
      assert false;
    }
  }

  lemma GenuineAt(cfg: Config, pushed: seq<Bytes>, s: seq<Chunk>, data: bool, i: nat)
    requires cfg.Valid() && AllGenuine(cfg, pushed, s, data) && i < |s|
    ensures s[i].frame < |pushed|
  {
  }

  /** With pushes at one end only, every run that has nothing left to do has delivered every frame. */
  lemma OneWayDelivers(cfg: Config, es: seq<Event>, states: seq<Link>)
    requires cfg.Valid() && IsRun(cfg, es, states) && states[0] == START && OnlyAPushes(es)
    requires Quiescent(cfg, states[|es|])
    ensures AllDelivered(states[|es|].a, states[|es|].b)
  {
    var s := states[|es|];
    hide IsRun, OnlyAPushes, Quiescent, Pick, AllDelivered;
    RunKeepsInv(cfg, es, states, |es|);
    NothingPushedAtB(cfg, es, states, |es|);
    assert !Blocked(cfg, s.b) by {
      if Blocked(cfg, s.b) {
        PickHead(s.b.buf.high, true);
        NoDataWithoutPush(cfg, s.b, s.a);
        assert false;
      }
    }
    QuiescentIff(cfg, s);
  }

  // ---------- two-way traffic can stick ----------

  const TINY := Config(1, 21)
  const ONE: map<nat, nat> := map[0 := 21]

  function Single(frame: nat): Chunk {
    Data(frame, 0, 1, [0])
  }

  lemma PushOne(b: Buffer)
    ensures TINY.Valid()
    ensures PushFrame(TINY, b, [0])
            == b.(seed := (b.seed + 1) % U32_SIZE, high := b.high + [Single(b.seed)],
                  outgoings := b.outgoings[b.seed := ONE])
  {
    assert FrameChunks(b.seed, [[0]]) == [Single(b.seed)];
    ChunkSizesStep([], Single(b.seed));
  }

  /** The states an endpoint goes through: push, send, push, receive the peer's first frame, hand it up. */
  const E1 := End(Buffer(1, [Single(0)], [], map[], map[0 := ONE], [], 0), [], [[0]], [], [])
  const E2 := E1.(buf := E1.buf.(high := [], inAir := 21), wire := [Single(0)])
  const E3 := E2.(buf := E2.buf.(seed := 2, high := [Single(1)], outgoings := map[0 := ONE, 1 := ONE]),
                  pushed := [[0], [0]])
  const E4 := E3.(buf := E3.buf.(high := [Single(1), Ack(0, 0, 1)], outs := [[0]]), handed := [0])
  const E5 := E4.(buf := E4.buf.(outs := []), popped := [[0]])

  lemma StickPushes(b: End)
    ensures TINY.Valid()
    ensures Enabled(TINY, Link(FRESH, b), Push([0])) && Act(TINY, Link(FRESH, b), Push([0])) == Link(E1, b)
    ensures Enabled(TINY, Link(E1, b), Send) && Act(TINY, Link(E1, b), Send) == Link(E2, b)
    ensures Enabled(TINY, Link(E2, b), Push([0])) && Act(TINY, Link(E2, b), Push([0])) == Link(E3, b)
  {
    PushOne(EMPTY);
    PushOne(E2.buf);
    hide PushFrame;
    assert map[0 := ONE][1 := ONE] == map[0 := ONE, 1 := ONE];
  }

  lemma StickReceives(b: End)
    requires b.wire == [Single(0)]
    ensures TINY.Valid()
    ensures var s := Link(E3, b);
            Enabled(TINY, s, Receive(0)) && Act(TINY, s, Receive(0)) == Link(E4, b.(wire := []))
    ensures var s := Link(E3.(wire := []), b);
            Enabled(TINY, s, Receive(0)) && Act(TINY, s, Receive(0)) == Link(E4.(wire := []), b.(wire := []))
  {
    assert Without(b.wire, 0) == [];
  }

  lemma StickTakes(b: End)
    ensures TINY.Valid()
    ensures var s := Link(E4.(wire := []), b); Enabled(TINY, s, Take) && Act(TINY, s, Take) == Link(E5.(wire := []), b)
  {
  }

  lemma StickEnds()
    ensures TINY.Valid() && Quiescent(TINY, Link(E5.(wire := []), E5.(wire := [])))
  {
  }

  /** A tiny window, and two pushes at each end: both ends end up blocked with both wires empty. */
  lemma TwoWayCanStick(es: seq<Event>, states: seq<Link>)
    requires es == [Event(true, Push([0])), Event(true, Send), Event(true, Push([0])),
                    Event(false, Push([0])), Event(false, Send), Event(false, Push([0])),
                    Event(true, Receive(0)), Event(false, Receive(0)), Event(true, Take), Event(false, Take)]
    requires var f := E5.(wire := []);
             states == [START, Link(E1, FRESH), Link(E2, FRESH), Link(E3, FRESH), Link(E3, E1), Link(E3, E2),
                        Link(E3, E3), Link(E4, E3.(wire := [])), Link(E4.(wire := []), E4.(wire := [])),
                        Link(f, E4.(wire := [])), Link(f, f)]
    ensures TINY.Valid() && IsRun(TINY, es, states) && Quiescent(TINY, states[10])
    ensures !AllDelivered(states[10].a, states[10].b)
  {
    hide Act, Enabled, Quiescent;
    StickPushes(FRESH);
    StickPushes(E3);
    StickReceives(E3);
    StickReceives(E4);
    StickTakes(E4.(wire := []));
    StickTakes(E5.(wire := []));
    StickEnds();
  }
}
