/** The framed transport buffer of one peer connection. */
module ConnectionBuffers {
  import opened Sequences
  import opened Chunking
  import opened Options

  /** bincode's fixed part of a data chunk: variant 4, frame 4, chunk 2, count 2, length 8. */
  const HEADER := 20

  /** Number of values of the 64-bit `usize` that holds the in-air size. */
  const USIZE_SIZE := 0x1_0000_0000_0000_0000

  datatype Config = Config(chunkSize: nat, airLimit: nat)
  {
    predicate Valid() {
      chunkSize > 0 && HEADER + chunkSize <= airLimit
    }
  }

  datatype Chunk =
    | Data(frame: nat, id: nat, count: nat, data: Bytes)
    | Ack(frame: nat, id: nat, count: nat)
  {
    function AirSize(): nat {
      if Data? then HEADER + |data| else 0
    }
  }

  datatype Incoming = Incoming(count: nat, chunks: map<nat, Bytes>)

  /** The value of a buffer: what the class below holds between two calls. */
  datatype Buffer = Buffer(
    seed: nat,
    high: seq<Chunk>,
    low: seq<Chunk>,
    incomings: map<nat, Incoming>,
    outgoings: map<nat, map<nat, nat>>,
    outs: seq<Bytes>,
    inAir: nat)

  const EMPTY := Buffer(0, [], [], map[], map[], [], 0)

  /** Data chunk `i` of a frame cut into `parts`; both 16-bit casts truncate. */
  function ChunkAt(frame: nat, parts: seq<Bytes>, i: nat): Chunk
    requires i < |parts|
  {
    Data(frame, i % U16_SIZE, |parts| % U16_SIZE, parts[i])
  }

  function FrameChunks(frame: nat, parts: seq<Bytes>): seq<Chunk> {
    seq(|parts|, i requires 0 <= i < |parts| => ChunkAt(frame, parts, i))
  }

  /** The per-chunk sizes recorded for a frame, inserted in chunk order. */
  function ChunkSizes(chunks: seq<Chunk>): map<nat, nat> {
    if chunks == [] then map[]
    else
      var last := chunks[|chunks| - 1];
      ChunkSizes(chunks[..|chunks| - 1])[last.id := last.AirSize()]
  }

  function PushFrame(cfg: Config, b: Buffer, data: Bytes): Buffer
    requires cfg.Valid()
  {
    var chunks := FrameChunks(b.seed, Chunks(data, cfg.chunkSize));
    var pushed := b.(seed := (b.seed + 1) % U32_SIZE, outgoings := b.outgoings[b.seed := ChunkSizes(chunks)]);
    if |data| <= cfg.chunkSize then pushed.(high := b.high + chunks) else pushed.(low := b.low + chunks)
  }

  /** One arriving chunk of a frame: the reassembly map after it, and the frame it completes, if any. */
  function Reassemble(incomings: map<nat, Incoming>, c: Chunk): (map<nat, Incoming>, seq<Bytes>)
    requires c.Data?
  {
    if c.count == 1 then (incomings, [c.data])
    else
      var entry := if c.frame in incomings then incomings[c.frame] else Incoming(c.count, map[]);
      var filled := entry.(chunks := entry.chunks[c.id := c.data]);
      if |filled.chunks| == filled.count
      then (incomings - {c.frame}, [Gather(filled.chunks, 0)])
      else (incomings[c.frame := filled], [])
  }

  /** Machine subtraction on the in-air counter: it would wrap below zero. */
  function AirMinus(inAir: nat, size: nat): nat {
    if size <= inAir then inAir - size else inAir + (if size <= USIZE_SIZE then USIZE_SIZE - size else 0)
  }

  /** One arriving ack: the sizes still outstanding and the in-air size after it. */
  function Settle(outgoings: map<nat, map<nat, nat>>, inAir: nat, c: Chunk): (map<nat, map<nat, nat>>, nat) {
    if c.frame in outgoings && c.id in outgoings[c.frame] then
      var left := outgoings[c.frame] - {c.id};
      (if left == map[] then outgoings - {c.frame} else outgoings[c.frame := left],
       AirMinus(inAir, outgoings[c.frame][c.id]))
    else (outgoings, inAir)
  }

  function OnReceived(b: Buffer, c: Chunk): Buffer {
    if c.Data? then
      var (incomings, completed) := Reassemble(b.incomings, c);
      b.(high := b.high + [Ack(c.frame, c.id, c.count)], incomings := incomings, outs := b.outs + completed)
    else
      var (outgoings, inAir) := Settle(b.outgoings, b.inAir, c);
      b.(outgoings := outgoings, inAir := inAir)
  }

  /** The chunk `pop_send` looks at first. */
  function Head(b: Buffer): Option<Chunk> {
    if b.high != [] then Some(b.high[0])
    else if b.low != [] then Some(b.low[0])
    else None
  }

  predicate CanSend(cfg: Config, b: Buffer) {
    Head(b).Some? && Head(b).value.AirSize() + b.inAir <= cfg.airLimit
  }

  function PopSend(cfg: Config, b: Buffer): Buffer
    requires CanSend(cfg, b)
  {
    var sent := b.(inAir := b.inAir + Head(b).value.AirSize());
    if b.high != [] then sent.(high := b.high[1..]) else sent.(low := b.low[1..])
  }

  function PopRecv(b: Buffer): Buffer
    requires b.outs != []
  {
    b.(outs := b.outs[1..])
  }

  lemma NoSizes()
    ensures ChunkSizes([]) == map[]
  {
  }

  lemma {:induction false} ChunkSizesStep(chunks: seq<Chunk>, c: Chunk)
    ensures ChunkSizes(chunks + [c]) == ChunkSizes(chunks)[c.id := c.AirSize()]
  {
    assert (chunks + [c])[..|chunks|] == chunks;
  }

  // ---------- what the operations promise, without saying how ----------

  /** The chunks carry the frame's bytes in order, all full but the last, under their numbers and their count. */
  ghost predicate CutInto(chunks: seq<Chunk>, frame: nat, data: Bytes, size: nat) {
    && chunks != []
    && (forall i :: 0 <= i < |chunks| ==> chunks[i].Data? && chunks[i].frame == frame)
    && (forall i :: 0 <= i < |chunks| ==> chunks[i].id == i % 65536 && chunks[i].count == |chunks| % 65536)
    && (forall i :: 0 <= i < |chunks| - 1 ==> |chunks[i].data| == size) && |chunks[|chunks| - 1].data| <= size
    && Concat(DataOf(chunks)) == data
  }

  function DataOf(chunks: seq<Chunk>): seq<Bytes> {
    seq(|chunks|, i requires 0 <= i < |chunks| => if chunks[i].Data? then chunks[i].data else [])
  }

  lemma CutLaw(frame: nat, data: Bytes, size: nat)
    requires size > 0
    ensures CutInto(FrameChunks(frame, Chunks(data, size)), frame, data, size)
  {
    hide Chunks, Concat;
    var parts := Chunks(data, size);
    ConcatChunks(data, size);
    ChunksAreFull(data, size);
    assert DataOf(FrameChunks(frame, parts)) == parts;
  }

  /** A recorded chunk is struck off and its size leaves the air; any other ack changes nothing. */
  ghost predicate Settled(out: map<nat, map<nat, nat>>, inAir: nat, out': map<nat, map<nat, nat>>, inAir': nat,
                          frame: nat, id: nat) {
    if frame in out && id in out[frame] then
      && (out[frame][id] <= inAir ==> inAir' == inAir - out[frame][id])
      && out' - {frame} == out - {frame}
      && (if out[frame].Keys == {id} then frame !in out' else frame in out' && out'[frame] == out[frame] - {id})
    else out' == out && inAir' == inAir
  }

  lemma PushLaw(cfg: Config, b: Buffer, data: Bytes)
    requires cfg.Valid()
    ensures var b' := PushFrame(cfg, b, data);
            && b'.seed == (b.seed + 1) % 0x1_0000_0000
            && b'.incomings == b.incomings && b'.outs == b.outs && b'.inAir == b.inAir
            && (|data| <= cfg.chunkSize ==> b'.high == b.high + [Data(b.seed, 0, 1, data)] && b'.low == b.low)
            && (|data| > cfg.chunkSize ==>
                  && b'.high == b.high && b.low <= b'.low
                  && CutInto(b'.low[|b.low|..], b.seed, data, cfg.chunkSize))
            && b'.outgoings.Keys == b.outgoings.Keys + {b.seed}
            && (forall f :: f in b.outgoings && f != b.seed ==> b'.outgoings[f] == b.outgoings[f])
  {
    hide Chunks, ChunkSizes, CutInto;
    var chunks := FrameChunks(b.seed, Chunks(data, cfg.chunkSize));
    CutLaw(b.seed, data, cfg.chunkSize);
    if |data| <= cfg.chunkSize {
      WholeIsOneChunk(data, cfg.chunkSize);
      assert chunks == [Data(b.seed, 0, 1, data)];
    } else {
      assert (b.low + chunks)[|b.low|..] == chunks;
    }
  }

  lemma LastOne(m: map<nat, nat>, k: nat)
    requires k in m
    ensures m - {k} == map[] <==> m.Keys == {k}
  {
    var left := m - {k};
    if left == map[] {
      assert forall x :: x in m && x != k ==> x in left;
    } else {
      var x :| x in left;
      assert x in m && x != k;
    }
  }

  lemma SettleLaw(out: map<nat, map<nat, nat>>, inAir: nat, c: Chunk)
    ensures var (out', inAir') := Settle(out, inAir, c); Settled(out, inAir, out', inAir', c.frame, c.id)
  {
    if c.frame in out && c.id in out[c.frame] {
      LastOne(out[c.frame], c.id);
    }
  }

  lemma ReceiveLaw(b: Buffer, c: Chunk)
    ensures var b' := OnReceived(b, c);
            && b'.seed == b.seed && b'.low == b.low
            && b'.high == b.high + (if c.Data? then [Ack(c.frame, c.id, c.count)] else [])
            && (c.Data? ==> b'.outgoings == b.outgoings && b'.inAir == b.inAir && b.outs <= b'.outs)
            && (c.Data? && c.count == 1 ==> b'.incomings == b.incomings && b'.outs == b.outs + [c.data])
            && (c.Data? && c.count != 1 ==> b'.incomings - {c.frame} == b.incomings - {c.frame})
            && (c.Ack? ==> b'.incomings == b.incomings && b'.outs == b.outs)
            && (c.Ack? ==> Settled(b.outgoings, b.inAir, b'.outgoings, b'.inAir, c.frame, c.id))
  {
    hide Gather, Settled, Settle;
    if c.Ack? {
      SettleLaw(b.outgoings, b.inAir, c);
    }
  }

  /** What can be sent and what is sent first: the queues one after the other. */
  lemma SendLaw(cfg: Config, b: Buffer)
    ensures var queue := b.high + b.low;
            && (CanSend(cfg, b) <==> queue != [] && queue[0].AirSize() + b.inAir <= cfg.airLimit)
            && (CanSend(cfg, b) ==>
                  && Head(b) == Some(queue[0]) && PopSend(cfg, b).high + PopSend(cfg, b).low == queue[1..]
                  && PopSend(cfg, b).inAir == b.inAir + queue[0].AirSize())
  {
  }

  /** The buffer itself, updated in place. */
  class ConnectionBuffer {
    const cfg: Config
    var frameIdSeed: nat
    var highPriority: seq<Chunk>
    var lowPriority: seq<Chunk>
    var incomings: map<nat, Incoming>
    var outgoings: map<nat, map<nat, nat>>
    var outs: seq<Bytes>
    var inAirSize: nat

    ghost function State(): Buffer
      reads this
    {
      Buffer(frameIdSeed, highPriority, lowPriority, incomings, outgoings, outs, inAirSize)
    }

    constructor (cfg: Config)
      requires cfg.Valid()
      ensures this.cfg == cfg && State() == EMPTY
    {
      this.cfg := cfg;
      frameIdSeed, highPriority, lowPriority := 0, [], [];
      incomings, outgoings, outs, inAirSize := map[], map[], [], 0;
    }

    method Push(data: Bytes)
      requires cfg.Valid()
      modifies this
      ensures State() == PushFrame(cfg, old(State()), data)
      ensures frameIdSeed == (old(frameIdSeed) + 1) % U32_SIZE
      ensures incomings == old(incomings) && outs == old(outs) && inAirSize == old(inAirSize)
      ensures |data| <= cfg.chunkSize ==>
                && highPriority == old(highPriority) + [Data(old(frameIdSeed), 0, 1, data)]
                && lowPriority == old(lowPriority)
      ensures |data| > cfg.chunkSize ==>
                && highPriority == old(highPriority) && old(lowPriority) <= lowPriority
                && CutInto(lowPriority[|old(lowPriority)|..], old(frameIdSeed), data, cfg.chunkSize)
      ensures outgoings.Keys == old(outgoings).Keys + {old(frameIdSeed)}
      ensures forall f :: f in old(outgoings) && f != old(frameIdSeed) ==> outgoings[f] == old(outgoings)[f]
    {
      hide ChunkSizes, Chunks;
      var frameId := frameIdSeed;
      frameIdSeed := (frameIdSeed + 1) % U32_SIZE;
      var parts := Chunks(data, cfg.chunkSize);
      ghost var all := FrameChunks(frameId, parts);
      ConcatChunks(data, cfg.chunkSize);
      if |data| <= cfg.chunkSize {
        var chunk := Data(frameId, 0, 1, data);
        WholeIsOneChunk(data, cfg.chunkSize);
        assert all == [chunk];
        NoSizes();
        ChunkSizesStep([], chunk);
        assert [] + [chunk] == [chunk];
        var sizes: map<nat, nat> := map[0 := chunk.AirSize()];
        outgoings := outgoings[frameId := sizes];
        highPriority := highPriority + [chunk];
      } else {
        var sizes: map<nat, nat> := map[];
        NoSizes();
        for i := 0 to |parts|
          invariant sizes == ChunkSizes(all[..i])
          invariant lowPriority == old(lowPriority) + all[..i]
          invariant State() == old(State()).(seed := (frameId + 1) % U32_SIZE, low := lowPriority)
        {
          var chunk := Data(frameId, i % U16_SIZE, |parts| % U16_SIZE, parts[i]);
          ChunkSizesStep(all[..i], chunk);
          assert all[..i + 1] == all[..i] + [chunk];
          sizes := sizes[chunk.id := chunk.AirSize()];
          lowPriority := lowPriority + [chunk];
        }
        assert all[..|parts|] == all;
        outgoings := outgoings[frameId := sizes];
      }
      PushLaw(cfg, old(State()), data);
      hide PushFrame, CutInto;
    }

    method Receive(c: Chunk)
      modifies this
      ensures State() == OnReceived(old(State()), c)
      ensures frameIdSeed == old(frameIdSeed) && lowPriority == old(lowPriority)
      ensures highPriority == old(highPriority) + if c.Data? then [Ack(c.frame, c.id, c.count)] else []
      ensures c.Data? ==> outgoings == old(outgoings) && inAirSize == old(inAirSize)
      ensures c.Data? && c.count == 1 ==> incomings == old(incomings) && outs == old(outs) + [c.data]
      ensures c.Data? && c.count != 1 ==> incomings - {c.frame} == old(incomings) - {c.frame} && old(outs) <= outs
      ensures c.Ack? ==> incomings == old(incomings) && outs == old(outs)
      ensures c.Ack? ==> Settled(old(outgoings), old(inAirSize), outgoings, inAirSize, c.frame, c.id)
    {
      hide Gather, Settled;
      match c {
        case Data(frame, id, count, data) =>
          highPriority := highPriority + [Ack(frame, id, count)];
          if count == 1 {
            outs := outs + [data];
          } else {
            var entry := if frame in incomings then incomings[frame] else Incoming(count, map[]);
            entry := entry.(chunks := entry.chunks[id := data]);
            if |entry.chunks| == entry.count {
              incomings := incomings - {frame};
              outs := outs + [Gather(entry.chunks, 0)];
            } else {
              incomings := incomings[frame := entry];
            }
          }
        case Ack(frame, id, _) =>
          if frame in outgoings && id in outgoings[frame] {
            var size := outgoings[frame][id];
            var left := outgoings[frame] - {id};
            inAirSize := AirMinus(inAirSize, size);
            if left == map[] {
              outgoings := outgoings - {frame};
            } else {
              outgoings := outgoings[frame := left];
            }
          }
      }
      assert State() == OnReceived(old(State()), c);
      hide OnReceived;
      ReceiveLaw(old(State()), c);
    }

    method Send() returns (out: Option<Chunk>)
      modifies this
      ensures out.Some? <==> CanSend(cfg, old(State()))
      ensures out.Some? ==> out == Head(old(State())) && State() == PopSend(cfg, old(State()))
      ensures var queue := old(highPriority + lowPriority);
              && (out.Some? <==> queue != [] && queue[0].AirSize() + old(inAirSize) <= cfg.airLimit)
              && (out.Some? ==> out.value == queue[0] && highPriority + lowPriority == queue[1..])
              && (out.Some? ==> inAirSize == old(inAirSize) + queue[0].AirSize())
      ensures highPriority == if old(highPriority) == [] || out.None? then old(highPriority) else old(highPriority)[1..]
      ensures outgoings == old(outgoings) && incomings == old(incomings)
      ensures outs == old(outs) && frameIdSeed == old(frameIdSeed)
      ensures out.None? ==> State() == old(State())
    {
      var first := if highPriority != [] then Some(highPriority[0])
                   else if lowPriority != [] then Some(lowPriority[0]) else None;
      if first.None? {
        return None;
      }
      var size := first.value.AirSize();
      if size + inAirSize <= cfg.airLimit {
        if highPriority != [] {
          highPriority := highPriority[1..];
        } else {
          lowPriority := lowPriority[1..];
        }
        inAirSize := inAirSize + size;
        return first;
      }
      return None;
    }

    method Take() returns (frame: Option<Bytes>)
      modifies this
      ensures old(outs) == [] ==> frame.None? && State() == old(State())
      ensures old(outs) != [] ==> frame == Some(old(outs)[0]) && State() == old(State()).(outs := old(outs)[1..])
    {
      if outs == [] {
        return None;
      }
      frame := Some(outs[0]);
      outs := outs[1..];
    }
  }
}
