/**
 Two connection buffers joined by two wires that neither lose nor duplicate a chunk but may deliver in
 any order.  Every interleaving of pushes, sends, deliveries and hand-ups is a run.
 */
module Transport {
  import opened Sequences
  import opened Chunking
  import opened ConnectionBuffers
  import opened TransportLane
  import opened TransportLaneProof

  /** An endpoint: its buffer, the wire that leaves it, and what happened at it so far. */
  datatype End = End(
    buf: Buffer,
    wire: seq<Chunk>,
    pushed: seq<Bytes>,    // frames pushed here
    popped: seq<Bytes>,    // the peer's frames handed up here
    handed: seq<nat>)      // numbers of the peer's frames completed here, in order

  datatype Link = Link(a: End, b: End)

  datatype Action = Push(data: Bytes) | Send | Receive(i: nat) | Take

  /** An action at the first or the second endpoint. */
  datatype Event = Event(atA: bool, act: Action)

  const FRESH := End(EMPTY, [], [], [], [])
  const START := Link(FRESH, FRESH)

  function Swap(s: Link): Link {
    Link(s.b, s.a)
  }

  predicate Enabled(cfg: Config, s: Link, act: Action)
    requires cfg.Valid()
  {
    match act
    case Push(data) => Fits(cfg, data) && |s.a.pushed| + 1 < U32_SIZE
    case Send => CanSend(cfg, s.a.buf)
    case Receive(i) => i < |s.b.wire|
    case Take => s.a.buf.outs != []
  }

  /** The action at endpoint `a`. */
  function Act(cfg: Config, s: Link, act: Action): Link
    requires cfg.Valid() && Enabled(cfg, s, act)
  {
    var a := s.a;
    match act
    case Push(data) =>
      s.(a := a.(buf := PushFrame(cfg, a.buf, data), pushed := a.pushed + [data]))
    case Send =>
      s.(a := a.(buf := PopSend(cfg, a.buf), wire := a.wire + [Head(a.buf).value]))
    case Receive(i) =>
      var c := s.b.wire[i];
      var buf := OnReceived(a.buf, c);
      var completed := if |buf.outs| > |a.buf.outs| then [c.frame] else [];
      Link(a.(buf := buf, handed := a.handed + completed), s.b.(wire := Without(s.b.wire, i)))
    case Take =>
      s.(a := a.(buf := PopRecv(a.buf), popped := a.popped + [a.buf.outs[0]]))
  }

  predicate CanStep(cfg: Config, s: Link, e: Event)
    requires cfg.Valid()
  {
    Enabled(cfg, if e.atA then s else Swap(s), e.act)
  }

  function Step(cfg: Config, s: Link, e: Event): Link
    requires cfg.Valid() && CanStep(cfg, s, e)
  {
    if e.atA then Act(cfg, s, e.act) else Swap(Act(cfg, Swap(s), e.act))
  }

  /** `states` is a run of the events `es`. */
  predicate IsRun(cfg: Config, es: seq<Event>, states: seq<Link>)
    requires cfg.Valid()
  {
    && |states| == |es| + 1
    && forall i :: 0 <= i < |es| ==> CanStep(cfg, states[i], es[i]) && states[i + 1] == Step(cfg, states[i], es[i])
  }

  // ---------- the two lanes of a link ----------

  /** The data chunks, or the acks, of a queue in order. */
  function Pick(s: seq<Chunk>, data: bool): seq<Chunk> {
    if s == [] then []
    else Pick(s[..|s| - 1], data) + if s[|s| - 1].Data? == data then [s[|s| - 1]] else []
  }

  /** The lane from `x` to `y`. */
  function LaneOf(x: End, y: End): Lane {
    Lane(x.pushed, Pick(x.buf.high, true), x.buf.low, Pick(x.wire, true), x.buf.outgoings, x.buf.inAir,
         y.buf.incomings, y.popped + y.buf.outs, y.handed, Pick(y.buf.high, false), Pick(y.wire, false))
  }

  ghost predicate Inv(cfg: Config, s: Link)
    requires cfg.Valid()
  {
    && s.a.buf.seed == |s.a.pushed| < U32_SIZE && s.b.buf.seed == |s.b.pushed| < U32_SIZE
    && LaneInv(cfg, LaneOf(s.a, s.b)) && LaneInv(cfg, LaneOf(s.b, s.a))
  }

  lemma PickNone(data: bool)
    ensures Pick([], data) == []
  {
  }

  lemma {:induction false} PickConcat(s: seq<Chunk>, t: seq<Chunk>, data: bool)
    ensures Pick(s + t, data) == Pick(s, data) + Pick(t, data)
    decreases |t|
  {
    hide Pick;
    if t == [] {
      PickNone(data);
      assert s + t == s;
    } else {
      var init, last := t[..|t| - 1], t[|t| - 1];
      PickConcat(s, init, data);
      PickSnoc(init, last, data);
      PickSnoc(s + init, last, data);
      assert init + [last] == t;
      assert s + init + [last] == s + t;
    }
  }

  lemma PickSnoc(s: seq<Chunk>, c: Chunk, data: bool)
    ensures Pick(s + [c], data) == Pick(s, data) + if c.Data? == data then [c] else []
  {
    assert (s + [c])[..|s|] == s;
  }

  lemma PickHead(s: seq<Chunk>, data: bool)
    requires s != []
    ensures Pick(s, data) == (if s[0].Data? == data then [s[0]] else []) + Pick(s[1..], data)
  {
    assert s == [s[0]] + s[1..];
    PickConcat([s[0]], s[1..], data);
    PickSnoc([], s[0], data);
    assert [] + [s[0]] == [s[0]];
  }

  lemma {:induction false} PickAll(s: seq<Chunk>, data: bool)
    requires forall i :: 0 <= i < |s| ==> s[i].Data? == data
    ensures Pick(s, data) == s && Pick(s, !data) == []
  {
    if s != [] {
      PickAll(s[..|s| - 1], data);
    }
  }

  lemma PickWithout(s: seq<Chunk>, i: nat, data: bool)
    requires i < |s|
    ensures s[i].Data? != data ==> Pick(Without(s, i), data) == Pick(s, data)
    ensures s[i].Data? == data ==>
              var j := |Pick(s[..i], data)|;
              j < |Pick(s, data)| && Pick(s, data)[j] == s[i] && Pick(Without(s, i), data) == Without(Pick(s, data), j)
  {
    hide Pick;
    var left, right := s[..i], s[i + 1..];
    PickConcat(left, right, data);
    PickConcat(left + [s[i]], right, data);
    PickSnoc(left, s[i], data);
    assert s == left + [s[i]] + right;
  }

  lemma FrameChunksAreData(f: nat, parts: seq<Bytes>)
    ensures Pick(FrameChunks(f, parts), true) == FrameChunks(f, parts) && Pick(FrameChunks(f, parts), false) == []
  {
    PickAll(FrameChunks(f, parts), true);
  }

  // ---------- each action is a step of one lane and no step of the other ----------

  lemma PushIsLanePush(cfg: Config, s: Link, data: Bytes)
    requires cfg.Valid() && Enabled(cfg, s, Push(data)) && s.a.buf.seed == |s.a.pushed|
    ensures var s' := Act(cfg, s, Push(data));
            LaneOf(s'.a, s'.b) == LanePush(cfg, LaneOf(s.a, s.b), data) && LaneOf(s'.b, s'.a) == LaneOf(s.b, s.a)
  {
    hide Chunks, FrameChunks, ChunkSizes, Pick;
    var chunks := FrameChunks(|s.a.pushed|, Chunks(data, cfg.chunkSize));
    FrameChunksAreData(|s.a.pushed|, Chunks(data, cfg.chunkSize));
    PickConcat(s.a.buf.high, chunks, true);
    PickConcat(s.a.buf.high, chunks, false);
  }

  lemma SendIsLaneStep(cfg: Config, s: Link)
    requires cfg.Valid() && Enabled(cfg, s, Send)
    requires forall i :: 0 <= i < |s.a.buf.low| ==> s.a.buf.low[i].Data?
    ensures var s', c, hi := Act(cfg, s, Send), Head(s.a.buf).value, s.a.buf.high != [];
            var there, back := LaneOf(s.a, s.b), LaneOf(s.b, s.a);
            if c.Data? then
              && (if hi then there.hi != [] else there.lo != [])
              && LaneOf(s'.a, s'.b) == LaneSend(there, hi) && LaneOf(s'.b, s'.a) == back
            else
              LaneOf(s'.a, s'.b) == there && back.acks != [] && LaneOf(s'.b, s'.a) == LaneAckSend(back)
  {
    hide Pick;
    var buf, c := s.a.buf, Head(s.a.buf).value;
    if buf.high != [] {
      PickHead(buf.high, true);
      PickHead(buf.high, false);
    }
    PickSnoc(s.a.wire, c, true);
    PickSnoc(s.a.wire, c, false);
  }

  lemma ReceiveIsLaneStep(cfg: Config, s: Link, i: nat)
    requires cfg.Valid() && Enabled(cfg, s, Receive(i))
    ensures var s', c := Act(cfg, s, Receive(i)), s.b.wire[i];
            var there, back := LaneOf(s.a, s.b), LaneOf(s.b, s.a);
            var j := |Pick(s.b.wire[..i], c.Data?)|;
            if c.Data? then
              && LaneOf(s'.a, s'.b) == there
              && j < |back.wire| && back.wire[j] == c && LaneOf(s'.b, s'.a) == LaneArrive(back, j)
            else
              && j < |there.back| && there.back[j] == c && LaneOf(s'.a, s'.b) == LaneAckArrive(there, j)
              && LaneOf(s'.b, s'.a) == back
  {
    hide Pick, Reassemble, Settle;
    var c := s.b.wire[i];
    PickWithout(s.b.wire, i, true);
    PickWithout(s.b.wire, i, false);
    PickSnoc(s.a.buf.high, Ack(c.frame, c.id, c.count), true);
    PickSnoc(s.a.buf.high, Ack(c.frame, c.id, c.count), false);
    if c.Data? {
      var completed := Reassemble(s.a.buf.incomings, c).1;
      assert s.a.popped + (s.a.buf.outs + completed) == s.a.popped + s.a.buf.outs + completed;
    }
  }

  lemma TakeIsNoLaneStep(cfg: Config, s: Link)
    requires cfg.Valid() && Enabled(cfg, s, Take)
    ensures var s' := Act(cfg, s, Take);
            LaneOf(s'.a, s'.b) == LaneOf(s.a, s.b) && LaneOf(s'.b, s'.a) == LaneOf(s.b, s.a)
  {
    hide Pick;
    var a := s.a;
    assert a.popped + [a.buf.outs[0]] + a.buf.outs[1..] == a.popped + a.buf.outs;
  }

  lemma ActKeepsInv(cfg: Config, s: Link, act: Action)
    requires cfg.Valid() && Inv(cfg, s) && Enabled(cfg, s, act)
    ensures Inv(cfg, Act(cfg, s, act))
  {
    hide LaneInv, Pick, Chunks, PushFrame, Reassemble, Settle;
    var there, back := LaneOf(s.a, s.b), LaneOf(s.b, s.a);
    match act
    case Push(data) =>
      PushIsLanePush(cfg, s, data);
      PushKeepsInv(cfg, there, data);
      SeedCounts(cfg, s, data);
    case Send =>
      LowIsData(cfg, s);
      SendIsLaneStep(cfg, s);
      if Head(s.a.buf).value.Data? {
        SendKeepsInv(cfg, there, s.a.buf.high != []);
      } else {
        AckSendKeepsInv(cfg, back);
      }
    case Receive(i) =>
      ReceiveIsLaneStep(cfg, s, i);
      var j := |Pick(s.b.wire[..i], s.b.wire[i].Data?)|;
      if s.b.wire[i].Data? {
        ArriveKeepsInv(cfg, back, j);
      } else {
        AckArriveKeepsInv(cfg, there, j);
      }
    case Take =>
      TakeIsNoLaneStep(cfg, s);
  }

  lemma SeedCounts(cfg: Config, s: Link, data: Bytes)
    requires cfg.Valid() && Enabled(cfg, s, Push(data)) && s.a.buf.seed == |s.a.pushed|
    ensures var a' := Act(cfg, s, Push(data)).a; a'.buf.seed == |a'.pushed| < U32_SIZE
  {
  }

  lemma LowIsData(cfg: Config, s: Link)
    requires cfg.Valid() && Inv(cfg, s)
    ensures forall i :: 0 <= i < |s.a.buf.low| ==> s.a.buf.low[i].Data?
  {
    hide Pick, Tracked, AirBalanced, Received, HandedUp, Genuine;
  }

  lemma StepKeepsInv(cfg: Config, s: Link, e: Event)
    requires cfg.Valid() && Inv(cfg, s) && CanStep(cfg, s, e)
    ensures Inv(cfg, Step(cfg, s, e))
  {
    hide LaneInv, LaneOf, Act, Enabled;
    if e.atA {
      ActKeepsInv(cfg, s, e.act);
    } else {
      ActKeepsInv(cfg, Swap(s), e.act);
    }
  }

  lemma StartInv(cfg: Config)
    requires cfg.Valid()
    ensures Inv(cfg, START)
  {
  }

  /** The invariant holds after every event of every run from two fresh buffers. */
  lemma {:induction false} RunKeepsInv(cfg: Config, es: seq<Event>, states: seq<Link>, n: nat)
    requires cfg.Valid() && IsRun(cfg, es, states) && states[0] == START && n < |states|
    ensures Inv(cfg, states[n])
  {
    hide Inv, Step, CanStep;
    if n == 0 {
      StartInv(cfg);
    } else {
      RunKeepsInv(cfg, es, states, n - 1);
      StepKeepsInv(cfg, states[n - 1], es[n - 1]);
    }
  }
}
