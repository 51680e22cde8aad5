/** Every step of a lane keeps its invariant. */
module TransportLaneProof {
  import opened Sequences
  import opened Chunking
  import opened ConnectionBuffers
  import opened TransportLane

  // ---------- pushing a frame ----------

  lemma {:induction false} FramePrefix(f: nat, parts: seq<Bytes>, m: nat)
    requires m <= |parts| < U16_SIZE
    ensures forall k: Key :: Keys(FrameChunks(f, parts)[..m])[k] == if k.0 == f && k.1 < m then 1 else 0
    ensures forall i :: i in ChunkSizes(FrameChunks(f, parts)[..m]) <==> 0 <= i < m
    ensures forall i :: 0 <= i < m ==> ChunkSizes(FrameChunks(f, parts)[..m])[i] == HEADER + |parts[i]|
  {
    hide Keys, ChunkSizes;
    var chunks := FrameChunks(f, parts);
    if m > 0 {
      var init, last := chunks[..m - 1], chunks[m - 1];
      FramePrefix(f, parts, m - 1);
      assert (m - 1) % U16_SIZE == m - 1 && last == Data(f, m - 1, |parts|, parts[m - 1]);
      assert chunks[..m] == init + [last];
      KeysSnoc(init, last);
      ChunkSizesStep(init, last);
      assert ChunkSizes(chunks[..m]) == ChunkSizes(init)[m - 1 := HEADER + |parts[m - 1]|];
    } else {
      NoKeys();
      NoSizes();
      assert chunks[..m] == [];
    }
  }

  lemma FrameWhole(f: nat, parts: seq<Bytes>)
    requires |parts| < U16_SIZE
    ensures forall k: Key :: Keys(FrameChunks(f, parts))[k] == if k.0 == f && k.1 < |parts| then 1 else 0
    ensures forall i :: i in ChunkSizes(FrameChunks(f, parts)) <==> 0 <= i < |parts|
    ensures forall i :: 0 <= i < |parts| ==> ChunkSizes(FrameChunks(f, parts))[i] == HEADER + |parts[i]|
  {
    FramePrefix(f, parts, |parts|);
    assert FrameChunks(f, parts)[..|parts|] == FrameChunks(f, parts);
  }

  lemma GenuineExtends(cfg: Config, pushed: seq<Bytes>, data: Bytes, s: seq<Chunk>, isData: bool)
    requires cfg.Valid() && AllGenuine(cfg, pushed, s, isData)
    ensures AllGenuine(cfg, pushed + [data], s, isData)
  {
    forall i | 0 <= i < |s|
      ensures s[i].Data? == isData && Genuine(cfg, pushed + [data], s[i])
    {
      assert Genuine(cfg, pushed, s[i]);
      assert (pushed + [data])[s[i].frame] == pushed[s[i].frame];
    }
  }

  lemma PushKeepsWellFormed(cfg: Config, l: Lane, data: Bytes)
    requires cfg.Valid() && WellFormed(cfg, l) && Fits(cfg, data)
    ensures WellFormed(cfg, LanePush(cfg, l, data))
  {
    hide Genuine, Chunks, FrameChunks, ChunkSizes;
    var l' := LanePush(cfg, l, data);
    GenuineExtends(cfg, l.pushed, data, l.hi, true);
    GenuineExtends(cfg, l.pushed, data, l.lo, true);
    GenuineExtends(cfg, l.pushed, data, l.wire, true);
    GenuineExtends(cfg, l.pushed, data, l.acks, false);
    GenuineExtends(cfg, l.pushed, data, l.back, false);
    NewChunksGenuine(cfg, l.pushed, data);
  }

  lemma NewChunksGenuine(cfg: Config, pushed: seq<Bytes>, data: Bytes)
    requires cfg.Valid() && Fits(cfg, data)
    ensures var chunks := FrameChunks(|pushed|, Chunks(data, cfg.chunkSize));
            && AllGenuine(cfg, pushed + [data], chunks, true)
            && (forall i :: 0 <= i < |chunks| ==>
                  if |data| <= cfg.chunkSize then chunks[i].count == 1 else chunks[i].count > 1)
  {
    hide Chunks;
    ConcatChunks(data, cfg.chunkSize);
    assert (pushed + [data])[|pushed|] == data;
  }

  lemma PushKeys(cfg: Config, l: Lane, data: Bytes)
    requires cfg.Valid() && Fits(cfg, data)
    ensures var l' := LanePush(cfg, l, data);
            var added := Keys(FrameChunks(|l.pushed|, Chunks(data, cfg.chunkSize)));
            Pending(l') == Pending(l) + added && Flying(l') == Flying(l) && Pipe(l') == Pipe(l) + added
  {
    hide Keys, Chunks, FrameChunks, ChunkSizes;
    var chunks := FrameChunks(|l.pushed|, Chunks(data, cfg.chunkSize));
    KeysConcat(l.hi, chunks);
    KeysConcat(l.lo, chunks);
    if |data| <= cfg.chunkSize {
      assert LanePush(cfg, l, data).hi == l.hi + chunks;
    } else {
      assert LanePush(cfg, l, data).lo == l.lo + chunks;
    }
  }

  lemma PushTracksChunk(cfg: Config, l: Lane, data: Bytes, k: Key)
    requires cfg.Valid() && Tracked(cfg, l) && Fits(cfg, data)
    ensures var l' := LanePush(cfg, l, data);
            && Pipe(l')[k] == (if Has(l'.out, k) then 1 else 0)
            && (Has(l'.out, k) ==> InFrames(cfg, l'.pushed, k) && l'.out[k.0][k.1] == SizeOf(cfg, l'.pushed, k))
  {
    hide Keys, Chunks, FrameChunks, ChunkSizes, Pipe;
    var l', f := LanePush(cfg, l, data), |l.pushed|;
    FrameWhole(f, Chunks(data, cfg.chunkSize));
    PushKeys(cfg, l, data);
    assert Pipe(l)[k] == if Has(l.out, k) then 1 else 0;
    assert Has(l.out, k) ==> InFrames(cfg, l.pushed, k);
    if k.0 == f {
      assert l'.pushed[f] == data;
    } else if Has(l.out, k) {
      assert l'.pushed[k.0] == l.pushed[k.0];
    }
  }

  lemma PushKeepsTracked(cfg: Config, l: Lane, data: Bytes)
    requires cfg.Valid() && Tracked(cfg, l) && Fits(cfg, data)
    ensures Tracked(cfg, LanePush(cfg, l, data))
  {
    hide Keys, Chunks, FrameChunks, ChunkSizes, Pipe;
    var l' := LanePush(cfg, l, data);
    forall k: Key
      ensures Pipe(l')[k] == if Has(l'.out, k) then 1 else 0
      ensures Has(l'.out, k) ==> InFrames(cfg, l'.pushed, k) && l'.out[k.0][k.1] == SizeOf(cfg, l'.pushed, k)
    {
      PushTracksChunk(cfg, l, data, k);
    }
    FrameWhole(|l.pushed|, Chunks(data, cfg.chunkSize));
    assert 0 in l'.out[|l.pushed|];
  }

  lemma PushKeepsAir(cfg: Config, l: Lane, data: Bytes)
    requires cfg.Valid() && Tracked(cfg, l) && AirBalanced(cfg, l) && Fits(cfg, data)
    ensures AirBalanced(cfg, LanePush(cfg, l, data))
  {
    hide Keys, Chunks, FrameChunks, ChunkSizes;
    PushKeys(cfg, l, data);
    forall k | k in Flying(l)
      ensures InFrames(cfg, l.pushed, k)
    {
      assert Pipe(l)[k] > 0;
      assert Has(l.out, k);
    }
    TotalSizeExtends(cfg, l.pushed, data, Flying(l));
  }

  lemma PushKeepsReceived(cfg: Config, l: Lane, data: Bytes)
    requires cfg.Valid() && Received(cfg, l) && HandedUp(l) && Fits(cfg, data)
    ensures Received(cfg, LanePush(cfg, l, data))
  {
    hide Keys, Chunks, FrameChunks, ChunkSizes;
    var l', n := LanePush(cfg, l, data), |l.pushed|;
    var parts := Chunks(data, cfg.chunkSize);
    FrameWhole(n, parts);
    PushKeys(cfg, l, data);
    forall f | 0 <= f < |l'.pushed|
      ensures FrameReceived(Parts(cfg, l'.pushed, f), l'.incomings, l'.handed, Pending(l'), f)
    {
      if f < n {
        assert FrameReceived(Parts(cfg, l.pushed, f), l.incomings, l.handed, Pending(l), f);
        assert forall i: nat :: (f, i) in Pending(l') <==> (f, i) in Pending(l);
      } else {
        assert Parts(cfg, l'.pushed, f) == parts;
        assert (f, 0) in Pending(l');
        assert forall i :: 0 <= i < |parts| ==> (f, i) in Pending(l');
      }
    }
  }

  lemma PushKeepsInv(cfg: Config, l: Lane, data: Bytes)
    requires cfg.Valid() && LaneInv(cfg, l) && Fits(cfg, data)
    ensures LaneInv(cfg, LanePush(cfg, l, data))
  {
    hide Keys, Chunks, FrameChunks, ChunkSizes;
    PushKeepsWellFormed(cfg, l, data);
    PushKeepsTracked(cfg, l, data);
    PushKeepsAir(cfg, l, data);
    PushKeepsReceived(cfg, l, data);
  }

  // ---------- putting a chunk on the wire ----------

  lemma SendKeys(l: Lane, fromHi: bool)
    requires if fromHi then l.hi != [] else l.lo != []
    ensures var l' := LaneSend(l, fromHi);
            && Pipe(l') == Pipe(l) && Pending(l') == Pending(l)
            && Flying(l') == Flying(l) + multiset{KeyOf(l'.wire[|l.wire|])}
  {
    hide Keys;
    var l' := LaneSend(l, fromHi);
    KeysTail(if fromHi then l.hi else l.lo);
    KeysSnoc(l.wire, l'.wire[|l.wire|]);
  }

  lemma SendKeepsWellFormed(cfg: Config, l: Lane, fromHi: bool)
    requires cfg.Valid() && WellFormed(cfg, l)
    requires if fromHi then l.hi != [] else l.lo != []
    ensures WellFormed(cfg, LaneSend(l, fromHi))
  {
    hide Genuine;
  }

  lemma SendKeepsInv(cfg: Config, l: Lane, fromHi: bool)
    requires cfg.Valid() && LaneInv(cfg, l)
    requires if fromHi then l.hi != [] else l.lo != []
    requires LaneSend(l, fromHi).inAir <= cfg.airLimit
    ensures LaneInv(cfg, LaneSend(l, fromHi))
  {
    hide Keys, Chunks, Pipe, Pending, Flying, FrameReceived, TotalSize;
    var c := if fromHi then l.hi[0] else l.lo[0];
    SendKeys(l, fromHi);
    SendKeepsWellFormed(cfg, l, fromHi);
    assert Genuine(cfg, l.pushed, c) && c.Data?;
    TotalSizeAdd(cfg, l.pushed, Flying(l), KeyOf(c));
    hide WellFormed;
  }

  // ---------- a data chunk arrives ----------

  /** A set of numbers below n has n elements exactly when it has them all. */
  lemma {:induction false} FullSet(s: set<nat>, n: nat)
    requires forall i :: i in s ==> i < n
    ensures |s| == n <==> forall i :: 0 <= i < n ==> i in s
    ensures |s| <= n
  {
    if n > 0 {
      var rest := s - {n - 1};
      FullSet(rest, n - 1);
      if n - 1 in s {
        assert s == rest + {n - 1};
      } else {
        assert s == rest;
      }
    } else {
      assert s == {};
    }
  }

  lemma ArriveKeys(l: Lane, i: nat)
    requires i < |l.wire| && l.wire[i].Data?
    ensures var l', k := LaneArrive(l, i), KeyOf(l.wire[i]);
            Pending(l) == Pending(l') + multiset{k} && Flying(l') == Flying(l) && Pipe(l') == Pipe(l)
  {
    hide Keys, Chunks, FrameChunks, ChunkSizes;
    var c := l.wire[i];
    KeysWithout(l.wire, i);
    KeysSnoc(l.acks, Ack(c.frame, c.id, c.count));
  }

  lemma ArriveKeepsWellFormed(cfg: Config, l: Lane, i: nat)
    requires cfg.Valid() && WellFormed(cfg, l) && i < |l.wire|
    ensures l.wire[i].Data? && WellFormed(cfg, LaneArrive(l, i))
  {
    assert Genuine(cfg, l.pushed, l.wire[i]);
  }

  /** What one chunk of frame `f` does to the receiver's record of that frame. */
  lemma ArriveOwnFrame(parts: seq<Bytes>, inc: map<nat, Incoming>, handed: seq<nat>, pending: multiset<Key>,
                       c: Chunk, after: multiset<Key>)
    requires c.Data? && c.id < |parts| == c.count < U16_SIZE && c.data == parts[c.id]
    requires FrameReceived(parts, inc, handed, pending, c.frame)
    requires pending == after + multiset{KeyOf(c)} && KeyOf(c) !in after
    ensures var (inc', done) := Reassemble(inc, c);
            FrameReceived(parts, inc', handed + (if done == [] then [] else [c.frame]), after, c.frame)
    ensures var (inc', done) := Reassemble(inc, c);
            done != [] ==> done == [if |parts| == 1 then parts[0] else Gather(map i | 0 <= i < |parts| :: parts[i], 0)]
    ensures c.frame !in handed
  {
    hide Gather, Reassemble, FrameReceived;
    assert FrameReceived(parts, inc, handed, pending, c.frame);
    if |parts| == 1 {
      ArriveSingle(parts, inc, handed, pending, c, after);
    } else {
      ArriveMulti(parts, inc, handed, pending, c, after);
    }
  }

  lemma ArriveSingle(parts: seq<Bytes>, inc: map<nat, Incoming>, handed: seq<nat>, pending: multiset<Key>,
                     c: Chunk, after: multiset<Key>)
    requires c.Data? && c.id < |parts| == c.count == 1 && c.data == parts[c.id]
    requires FrameReceived(parts, inc, handed, pending, c.frame)
    requires pending == after + multiset{KeyOf(c)} && KeyOf(c) !in after
    ensures c.frame !in handed && Reassemble(inc, c) == (inc, [parts[0]])
    ensures FrameReceived(parts, inc, handed + [c.frame], after, c.frame)
  {
    assert KeyOf(c) in pending;
    assert !Complete(pending, c.frame, 1);
    assert Complete(after, c.frame, 1);
  }

  lemma ArriveMulti(parts: seq<Bytes>, inc: map<nat, Incoming>, handed: seq<nat>, pending: multiset<Key>,
                    c: Chunk, after: multiset<Key>)
    requires c.Data? && c.id < |parts| == c.count && 1 < |parts| < U16_SIZE && c.data == parts[c.id]
    requires FrameReceived(parts, inc, handed, pending, c.frame)
    requires pending == after + multiset{KeyOf(c)} && KeyOf(c) !in after
    ensures var (inc', done) := Reassemble(inc, c);
            && FrameReceived(parts, inc', handed + (if done == [] then [] else [c.frame]), after, c.frame)
            && (done != [] ==> done == [Gather(map i | 0 <= i < |parts| :: parts[i], 0)])
    ensures c.frame !in handed
  {
    hide Gather;
    var f, n := c.frame, |parts|;
    assert KeyOf(c) in pending;
    assert !Complete(pending, f, n);
    assert forall i: nat :: (f, i) in pending <==> (f, i) in after || i == c.id;
    var entry := if f in inc then inc[f] else Incoming(n, map[]);
    var filled := entry.chunks[c.id := c.data];
    assert forall i: nat :: i in filled <==> i < n && (f, i) !in after;
    FullSet(filled.Keys, n);
    if |filled| == n {
      assert Complete(after, f, n);
      assert filled == map i | 0 <= i < n :: parts[i];
    } else {
      assert !Complete(after, f, n);
      assert (f, c.id) !in after;
    }
  }

  lemma ArriveOtherFrame(parts: seq<Bytes>, inc: map<nat, Incoming>, handed: seq<nat>, pending: multiset<Key>,
                         c: Chunk, after: multiset<Key>, f: nat)
    requires c.Data? && f != c.frame
    requires FrameReceived(parts, inc, handed, pending, f)
    requires pending == after + multiset{KeyOf(c)}
    ensures var (inc', done) := Reassemble(inc, c);
            FrameReceived(parts, inc', handed + (if done == [] then [] else [c.frame]), after, f)
  {
    assert forall i: nat :: (f, i) in pending <==> (f, i) in after;
    assert Complete(pending, f, |parts|) <==> Complete(after, f, |parts|);
  }

  lemma ReassembleKeys(inc: map<nat, Incoming>, c: Chunk)
    requires c.Data?
    ensures Reassemble(inc, c).0.Keys <= inc.Keys + {c.frame}
  {
    hide Gather;
  }

  lemma ArriveKeepsReceived(cfg: Config, l: Lane, i: nat)
    requires cfg.Valid() && WellFormed(cfg, l) && Tracked(cfg, l) && Received(cfg, l) && i < |l.wire| && l.wire[i].Data?
    ensures var l', c := LaneArrive(l, i), l.wire[i];
            && Received(cfg, l') && Genuine(cfg, l.pushed, c) && c.frame !in l.handed
            && ((l'.handed == l.handed && l'.arrived == l.arrived)
                || (l'.handed == l.handed + [c.frame] && l'.arrived == l.arrived + [l.pushed[c.frame]]))
  {
    hide Keys, Chunks, Pipe, Pending, Flying, FrameReceived, Reassemble, Tracked, Gather;
    ArriveKeys(l, i);
    var l', c := LaneArrive(l, i), l.wire[i];
    ReassembleKeys(l.incomings, c);
    assert KeyOf(c) !in Pending(l') by {
      PendingOnce(cfg, l, KeyOf(c));
    }
    assert Genuine(cfg, l.pushed, c) && Fits(cfg, l.pushed[c.frame]);
    var parts := Parts(cfg, l.pushed, c.frame);
    ArriveOwnFrame(parts, l.incomings, l.handed, Pending(l), c, Pending(l'));
    forall f | 0 <= f < |l.pushed|
      ensures FrameReceived(Parts(cfg, l.pushed, f), l'.incomings, l'.handed, Pending(l'), f)
    {
      if f != c.frame {
        ArriveOtherFrame(Parts(cfg, l.pushed, f), l.incomings, l.handed, Pending(l), c, Pending(l'), f);
      }
    }
    WholeFrame(parts, l.pushed[c.frame], cfg.chunkSize);
  }

  lemma WholeFrame(parts: seq<Bytes>, data: Bytes, size: nat)
    requires size > 0 && parts == Chunks(data, size) && |parts| < U16_SIZE
    ensures (if |parts| == 1 then parts[0] else Gather(map i | 0 <= i < |parts| :: parts[i], 0)) == data
  {
    ConcatChunks(data, size);
    GatherRestoresFrame(map i | 0 <= i < |parts| :: parts[i], data, size);
  }

  lemma PendingOnce(cfg: Config, l: Lane, k: Key)
    requires cfg.Valid() && Tracked(cfg, l)
    ensures Pending(l)[k] <= 1
  {
    hide Keys;
    assert Pipe(l)[k] <= 1;
  }

  lemma ArriveKeepsInv(cfg: Config, l: Lane, i: nat)
    requires cfg.Valid() && LaneInv(cfg, l) && i < |l.wire|
    ensures l.wire[i].Data? && LaneInv(cfg, LaneArrive(l, i))
  {
    hide Keys, Chunks, Pipe, Pending, Flying, Received;
    ArriveKeepsWellFormed(cfg, l, i);
    ArriveKeys(l, i);
    ArriveKeepsReceived(cfg, l, i);
  }

  // ---------- an ack is sent, an ack arrives ----------

  lemma AckSendKeepsInv(cfg: Config, l: Lane)
    requires cfg.Valid() && LaneInv(cfg, l) && l.acks != []
    ensures LaneInv(cfg, LaneAckSend(l))
  {
    hide Keys, Chunks, Pipe, Pending, Flying, FrameReceived, TotalSize;
    AckSendKeys(l);
    AckSendKeepsWellFormed(cfg, l);
    hide WellFormed;
  }

  lemma AckSendKeys(l: Lane)
    requires l.acks != []
    ensures var l' := LaneAckSend(l);
            Pipe(l') == Pipe(l) && Pending(l') == Pending(l) && Flying(l') == Flying(l)
  {
    hide Keys;
    KeysTail(l.acks);
    KeysSnoc(l.back, l.acks[0]);
  }

  lemma AckSendKeepsWellFormed(cfg: Config, l: Lane)
    requires cfg.Valid() && WellFormed(cfg, l) && l.acks != []
    ensures WellFormed(cfg, LaneAckSend(l))
  {
    hide Genuine;
  }

  /** An ack in flight names a popped, still recorded chunk, whose size is part of the in-air size. */
  lemma AckNamesPoppedChunk(cfg: Config, l: Lane, i: nat)
    requires cfg.Valid() && LaneInv(cfg, l) && i < |l.back|
    ensures var k := KeyOf(l.back[i]);
            && Has(l.out, k) && k !in Pending(l)
            && l.out[k.0][k.1] == SizeOf(cfg, l.pushed, k) <= l.inAir
            && l.inAir == SizeOf(cfg, l.pushed, k) + TotalSize(cfg, l.pushed, Flying(LaneAckArrive(l, i)))
  {
    hide Keys, Chunks, FrameChunks, ChunkSizes;
    var k, left := KeyOf(l.back[i]), Flying(LaneAckArrive(l, i));
    AckArriveKeys(l, i);
    assert Pipe(l)[k] <= 1;
    assert k in Keys(l.back) by {
      KeysHas(l.back, i);
    }
    TotalSizeAdd(cfg, l.pushed, left, k);
  }

  lemma SettleHas(out: map<nat, map<nat, nat>>, inAir: nat, c: Chunk, k: Key)
    requires Has(out, KeyOf(c))
    ensures var out' := Settle(out, inAir, c).0;
            && (Has(out', k) <==> Has(out, k) && k != KeyOf(c))
            && (Has(out', k) ==> out'[k.0][k.1] == out[k.0][k.1])
  {
    var left := out[c.frame] - {c.id};
    if k.0 == c.frame && k.1 != c.id && Has(out, k) {
      assert k.1 in left;
    }
  }

  lemma AckArriveKeys(l: Lane, i: nat)
    requires i < |l.back|
    ensures var l', gone := LaneAckArrive(l, i), KeyOf(l.back[i]);
            && Pipe(l) == Pipe(l') + multiset{gone} && Flying(l) == Flying(l') + multiset{gone}
            && Pending(l') == Pending(l)
  {
    hide Keys, Settle;
    KeysWithout(l.back, i);
  }

  lemma AckArriveKeepsTracked(cfg: Config, l: Lane, i: nat)
    requires cfg.Valid() && Tracked(cfg, l) && i < |l.back| && Has(l.out, KeyOf(l.back[i]))
    ensures Tracked(cfg, LaneAckArrive(l, i))
  {
    hide Keys, Chunks, Pipe, Pending, Flying;
    var l', gone := LaneAckArrive(l, i), KeyOf(l.back[i]);
    AckArriveKeys(l, i);
    forall k: Key
      ensures Pipe(l')[k] == if Has(l'.out, k) then 1 else 0
      ensures Has(l'.out, k) ==> InFrames(cfg, l'.pushed, k) && l'.out[k.0][k.1] == SizeOf(cfg, l'.pushed, k)
    {
      SettleHas(l.out, l.inAir, l.back[i], k);
      assert Pipe(l)[k] == if Has(l.out, k) then 1 else 0;
    }
  }

  lemma AckArriveKeepsWellFormed(cfg: Config, l: Lane, i: nat)
    requires cfg.Valid() && WellFormed(cfg, l) && i < |l.back|
    ensures WellFormed(cfg, LaneAckArrive(l, i))
  {
    hide Genuine, Settle;
  }

  lemma AckArriveKeepsInv(cfg: Config, l: Lane, i: nat)
    requires cfg.Valid() && LaneInv(cfg, l) && i < |l.back|
    ensures LaneInv(cfg, LaneAckArrive(l, i))
  {
    hide Keys, Chunks, Pipe, Pending, Flying, FrameReceived, TotalSize;
    AckNamesPoppedChunk(cfg, l, i);
    AckArriveKeepsTracked(cfg, l, i);
    AckArriveKeys(l, i);
    AckArriveKeepsWellFormed(cfg, l, i);
    hide WellFormed, Tracked;
  }
}
