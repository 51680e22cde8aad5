/** Frames of more chunks than a 16-bit count can say, and what becomes of them even on an orderly wire. */
module OversizedFrames {
  import opened Sequences
  import opened Chunking
  import opened ConnectionBuffers

  /** Data chunks arriving in order: the reassembly map after them, and the frames they completed. */
  function ReceiveAll(incomings: map<nat, Incoming>, chunks: seq<Chunk>): (map<nat, Incoming>, seq<Bytes>)
    requires forall i :: 0 <= i < |chunks| ==> chunks[i].Data?
  {
    if chunks == [] then (incomings, [])
    else
      var n := |chunks| - 1;
      var (before, completed) := ReceiveAll(incomings, chunks[..n]);
      var (after, more) := Reassemble(before, chunks[n]);
      (after, completed + more)
  }

  /** The first `k` chunks of frame `f`, arrived in order. */
  function Arrived(incomings: map<nat, Incoming>, f: nat, parts: seq<Bytes>, k: nat): (map<nat, Incoming>, seq<Bytes>)
    requires k <= |parts|
  {
    ReceiveAll(incomings, FrameChunks(f, parts)[..k])
  }

  lemma ArrivedStep(incomings: map<nat, Incoming>, f: nat, parts: seq<Bytes>, k: nat)
    requires 0 < k <= |parts|
    ensures var (before, completed) := Arrived(incomings, f, parts, k - 1);
            var (after, more) := Reassemble(before, ChunkAt(f, parts, k - 1));
            && Arrived(incomings, f, parts, k) == (after, completed + more)
            && (completed == [] ==> completed + more == more)
  {
    assert FrameChunks(f, parts)[..k][..k - 1] == FrameChunks(f, parts)[..k - 1];
  }

  /** Frames once handed up stay handed up. */
  lemma {:induction false} CompletedGrow(incomings: map<nat, Incoming>, f: nat, parts: seq<Bytes>, j: nat, k: nat)
    requires j <= k <= |parts|
    ensures Arrived(incomings, f, parts, j).1 <= Arrived(incomings, f, parts, k).1
    decreases k
  {
    hide Arrived;
    if j < k {
      CompletedGrow(incomings, f, parts, j, k - 1);
      ArrivedStep(incomings, f, parts, k);
    }
  }

  // ---------- the count read back ----------

  /** A count of one: every chunk is taken for a frame of its own. */
  lemma {:induction false} CountOne(incomings: map<nat, Incoming>, f: nat, parts: seq<Bytes>, k: nat)
    requires |parts| % U16_SIZE == 1 && k <= |parts|
    ensures Arrived(incomings, f, parts, k) == (incomings, parts[..k])
    decreases k
  {
    if k > 0 {
      CountOne(incomings, f, parts, k - 1);
      ArrivedStep(incomings, f, parts, k);
      assert parts[..k - 1] + [parts[k - 1]] == parts[..k];
    }
  }

  /** A count of zero: the frame is never complete. */
  lemma {:induction false} CountZero(incomings: map<nat, Incoming>, f: nat, parts: seq<Bytes>, k: nat)
    requires |parts| % U16_SIZE == 0 && k <= |parts| && f !in incomings
    ensures var (after, completed) := Arrived(incomings, f, parts, k);
            completed == [] && (k == 0 ==> after == incomings) && (k > 0 ==> f in after && after[f].count == 0)
    decreases k
  {
    hide Gather;
    if k > 0 {
      CountZero(incomings, f, parts, k - 1);
      ArrivedStep(incomings, f, parts, k);
    }
  }

  function FirstParts(parts: seq<Bytes>, k: nat): (m: map<nat, Bytes>)
    requires k <= |parts|
    ensures |m| == k && forall i :: i in m <==> 0 <= i < k
    ensures forall i :: 0 <= i < k ==> m[i] == parts[i]
  {
    if k == 0 then map[] else FirstParts(parts, k - 1)[k - 1 := parts[k - 1]]
  }

  /** The reassembly map with the first `k` chunks of a frame. */
  function Holding(incomings: map<nat, Incoming>, f: nat, parts: seq<Bytes>, k: nat): map<nat, Incoming>
    requires k <= |parts|
  {
    if k == 0 then incomings else incomings[f := Incoming(|parts| % U16_SIZE, FirstParts(parts, k))]
  }

  lemma FirstPartsStep(parts: seq<Bytes>, k: nat)
    requires 0 < k <= |parts|
    ensures FirstParts(parts, k) == FirstParts(parts, k - 1)[k - 1 := parts[k - 1]]
  {
  }

  lemma PutAndDrop(m: map<nat, Incoming>, f: nat, e: Incoming)
    requires f !in m
    ensures m[f := e] - {f} == m && m - {f} == m
  {
  }

  lemma PutTwice(m: map<nat, Incoming>, f: nat, e: Incoming, e': Incoming)
    ensures m[f := e][f := e'] == m[f := e']
  {
  }

  lemma NoParts(parts: seq<Bytes>)
    ensures FirstParts(parts, 0) == map[]
  {
  }

  lemma EntryHeld(incomings: map<nat, Incoming>, f: nat, parts: seq<Bytes>, k: nat)
    requires k <= |parts| && f !in incomings
    ensures var held := Holding(incomings, f, parts, k);
            && held - {f} == incomings
            && (if f in held then held[f] else Incoming(|parts| % U16_SIZE, map[]))
               == Incoming(|parts| % U16_SIZE, FirstParts(parts, k))
            && (k < |parts| ==>
                  held[f := Incoming(|parts| % U16_SIZE, FirstParts(parts, k + 1))]
                  == Holding(incomings, f, parts, k + 1))
  {
    hide FirstParts;
    var held, n := Holding(incomings, f, parts, k), |parts| % U16_SIZE;
    NoParts(parts);
    PutAndDrop(incomings, f, Incoming(n, FirstParts(parts, k)));
    if k < |parts| {
      PutTwice(incomings, f, Incoming(n, FirstParts(parts, k)), Incoming(n, FirstParts(parts, k + 1)));
    }
  }

  lemma OneChunkMore(incomings: map<nat, Incoming>, f: nat, parts: seq<Bytes>, k: nat)
    requires |parts| % U16_SIZE > 1 && 0 < k <= |parts| % U16_SIZE && f !in incomings
    ensures k <= |parts|
    ensures Reassemble(Holding(incomings, f, parts, k - 1), ChunkAt(f, parts, k - 1))
            == if k == |parts| % U16_SIZE then (incomings, [Gather(FirstParts(parts, k), 0)])
               else (Holding(incomings, f, parts, k), [])
  {
    hide Gather, FirstParts, Holding;
    assert (k - 1) % U16_SIZE == k - 1;
    EntryHeld(incomings, f, parts, k - 1);
    FirstPartsStep(parts, k);
  }

  /** Any other count: chunks gather until as many are there as the count says. */
  lemma {:induction false} Filling(incomings: map<nat, Incoming>, f: nat, parts: seq<Bytes>, k: nat)
    requires |parts| % U16_SIZE > 1 && k < |parts| % U16_SIZE && f !in incomings
    ensures k <= |parts| && Arrived(incomings, f, parts, k) == (Holding(incomings, f, parts, k), [])
    decreases k
  {
    hide Reassemble;
    if k > 0 {
      Filling(incomings, f, parts, k - 1);
      ArrivedStep(incomings, f, parts, k);
      OneChunkMore(incomings, f, parts, k);
    }
  }

  lemma Filled(incomings: map<nat, Incoming>, f: nat, parts: seq<Bytes>)
    requires |parts| % U16_SIZE > 1 && f !in incomings
    ensures Arrived(incomings, f, parts, |parts| % U16_SIZE) == (incomings, [Concat(parts[..|parts| % U16_SIZE])])
  {
    hide Gather, Concat, Arrived, Reassemble, FirstParts, Holding;
    var k := |parts| % U16_SIZE;
    Filling(incomings, f, parts, k - 1);
    ArrivedStep(incomings, f, parts, k);
    OneChunkMore(incomings, f, parts, k);
    var list := parts[..k];
    GatherSuffix(FirstParts(parts, k), list, 0);
    assert list[0..] == list;
  }

  // ---------- sizes ----------

  lemma {:induction false} PartsHaveBytes(data: Bytes, size: nat)
    requires size > 0 && data != []
    ensures forall i :: 0 <= i < |Chunks(data, size)| ==> Chunks(data, size)[i] != []
    decreases |data|
  {
    if |data| > size {
      PartsHaveBytes(data[size..], size);
    }
  }

  /** Some chunks are not the whole frame. */
  lemma PrefixIsNotWhole(data: Bytes, size: nat, k: nat)
    requires size > 0 && data != [] && k < |Chunks(data, size)|
    ensures Concat(Chunks(data, size)[..k]) != data
  {
    var parts := Chunks(data, size);
    ConcatChunks(data, size);
    PartsHaveBytes(data, size);
    ConcatSplit(parts[..k], parts[k..]);
    assert parts == parts[..k] + parts[k..];
    assert |Concat(parts[k..])| >= |parts[k]| > 0;
  }

  /**
   A frame received in order on a connection that has nothing else of its number comes out whole, once, and with
   nothing left over, exactly when its number of chunks is below 2 to the 16th.
   */
  lemma DeliveredIntactIff(incomings: map<nat, Incoming>, f: nat, data: Bytes, size: nat)
    requires size > 0 && f !in incomings
    ensures Arrived(incomings, f, Chunks(data, size), |Chunks(data, size)|) == (incomings, [data])
            <==> |Chunks(data, size)| < U16_SIZE
  {
    hide Arrived, Concat, Chunks;
    var parts := Chunks(data, size);
    var n := |parts|;
    var count := n % U16_SIZE;
    ConcatChunks(data, size);
    assert parts[..n] == parts;
    if count == 1 {
      CountOne(incomings, f, parts, n);
      if n == 1 {
        OnePart(data, size);
      }
    } else if count == 0 {
      CountZero(incomings, f, parts, n);
    } else {
      Filled(incomings, f, parts);
      if count < n {
        CompletedGrow(incomings, f, parts, count, n);
        PrefixIsNotWhole(data, size, count);
        assert Arrived(incomings, f, parts, n).1[0] == Arrived(incomings, f, parts, count).1[0] != data;
      }
    }
  }

  lemma OnePart(data: Bytes, size: nat)
    requires size > 0 && |Chunks(data, size)| == 1
    ensures Chunks(data, size) == [data]
  {
  }

  // ---------- any order of arrival ----------

  /** Every chunk received is one of the frame's, in any order, some perhaps missing. */
  ghost predicate OfFrame(chunks: seq<Chunk>, f: nat, parts: seq<Bytes>) {
    forall j :: 0 <= j < |chunks| ==> IsChunkOf(chunks[j], f, parts)
  }

  ghost predicate IsChunkOf(c: Chunk, f: nat, parts: seq<Bytes>) {
    c.Data? && exists i :: 0 <= i < |parts| && c == ChunkAt(f, parts, i)
  }

  /** What is held of frame `f`: pieces of at most `size` bytes, under the count its chunks carry. */
  ghost predicate HeldPieces(incomings: map<nat, Incoming>, f: nat, count: nat, size: nat) {
    f in incomings ==>
      incomings[f].count == count && forall i :: i in incomings[f].chunks ==> |incomings[f].chunks[i]| <= size
  }

  lemma {:induction false} GatherSize(parts: map<nat, Bytes>, from: nat, size: nat)
    requires from <= U16_SIZE && forall i :: i in parts ==> |parts[i]| <= size
    ensures |Gather(parts, from)| <= |Keeping(parts, from)| * size
    decreases U16_SIZE - from
  {
    if from < U16_SIZE {
      GatherSize(parts, from + 1, size);
      KeepingStep(parts, from);
      OneFewer(|Keeping(parts, from)|, |Keeping(parts, from + 1)|, size, from in parts);
    } else {
      NothingTimes(|Keeping(parts, from)|, size);
    }
  }

  /** The keys from `from` on. */
  function Keeping(parts: map<nat, Bytes>, from: nat): set<nat> {
    set i | i in parts && i >= from
  }

  lemma KeepingStep(parts: map<nat, Bytes>, from: nat)
    ensures |Keeping(parts, from)| == |Keeping(parts, from + 1)| + if from in parts then 1 else 0
  {
    assert Keeping(parts, from) == Keeping(parts, from + 1) + if from in parts then {from} else {};
  }

  lemma OneFewer(n: nat, m: nat, size: nat, more: bool)
    requires n == m + if more then 1 else 0
    ensures m * size + (if more then size else 0) <= n * size
  {
  }

  lemma NothingTimes(n: nat, size: nat)
    ensures 0 <= n * size
  {
  }

  /** One more chunk of an oversized frame: what is held stays small, and what comes out is too short. */
  lemma ShortOfWhole(incomings: map<nat, Incoming>, f: nat, parts: seq<Bytes>, i: nat, size: nat)
    requires i < |parts| && HeldPieces(incomings, f, |parts| % U16_SIZE, size)
    requires forall j :: 0 <= j < |parts| ==> |parts[j]| <= size
    ensures var (after, completed) := Reassemble(incomings, ChunkAt(f, parts, i));
            && HeldPieces(after, f, |parts| % U16_SIZE, size)
            && forall k :: 0 <= k < |completed| ==> |completed[k]| <= (|parts| % U16_SIZE) * size
  {
    hide Gather;
    var c, count := ChunkAt(f, parts, i), |parts| % U16_SIZE;
    if count != 1 {
      var entry := if f in incomings then incomings[f] else Incoming(count, map[]);
      var filled := entry.chunks[c.id := c.data];
      if |filled| == count {
        GatherSize(filled, 0, size);
        assert Keeping(filled, 0) == filled.Keys;
        assert |filled.Keys| == |filled|;
      }
    }
  }

  lemma {:induction false} PiecesStayShort(incomings: map<nat, Incoming>, f: nat, parts: seq<Bytes>,
                                           chunks: seq<Chunk>, size: nat)
    requires f !in incomings && OfFrame(chunks, f, parts) && forall j :: 0 <= j < |parts| ==> |parts[j]| <= size
    ensures var (after, completed) := ReceiveAll(incomings, chunks);
            && HeldPieces(after, f, |parts| % U16_SIZE, size)
            && forall k :: 0 <= k < |completed| ==> |completed[k]| <= (|parts| % U16_SIZE) * size
    decreases |chunks|
  {
    hide Reassemble, HeldPieces;
    if chunks != [] {
      var n := |chunks| - 1;
      PiecesStayShort(incomings, f, parts, chunks[..n], size);
      assert IsChunkOf(chunks[n], f, parts);
      var i :| 0 <= i < |parts| && chunks[n] == ChunkAt(f, parts, i);
      ShortOfWhole(ReceiveAll(incomings, chunks[..n]).0, f, parts, i, size);
    } else {
      NothingHeld(incomings, f, |parts| % U16_SIZE, size);
    }
  }

  lemma NothingHeld(incomings: map<nat, Incoming>, f: nat, count: nat, size: nat)
    requires f !in incomings
    ensures HeldPieces(incomings, f, count, size)
  {
  }

  /** All chunks but the last are full. */
  lemma {:induction false} ManyBytes(data: Bytes, size: nat)
    requires size > 0 && data != []
    ensures |data| > (|Chunks(data, size)| - 1) * size
    decreases |data|
  {
    if |data| > size {
      var n := |Chunks(data[size..], size)|;
      ManyBytes(data[size..], size);
      assert n * size == (n - 1) * size + size;
    }
  }

  /** A frame of 65536 chunks or more is never handed up whole, in whatever order its chunks arrive. */
  lemma NeverWhole(incomings: map<nat, Incoming>, f: nat, data: Bytes, chunks: seq<Chunk>, size: nat)
    requires size > 0 && f !in incomings && |Chunks(data, size)| >= U16_SIZE
    requires OfFrame(chunks, f, Chunks(data, size))
    ensures data !in ReceiveAll(incomings, chunks).1
  {
    hide Chunks, ReceiveAll, OfFrame;
    var parts := Chunks(data, size);
    ConcatChunks(data, size);
    ManyBytes(data, size);
    PiecesStayShort(incomings, f, parts, chunks, size);
    Fewer(|parts| % U16_SIZE, |parts| - 1, size);
  }

  lemma Fewer(n: nat, m: nat, size: nat)
    requires n <= m
    ensures n * size <= m * size
  {
  }

  /** There are such frames: 65536 bytes in chunks of one byte, and it is lost for good. */
  lemma OversizedExample(f: nat)
    ensures var data: Bytes := seq(U16_SIZE, _ => 0);
            |Chunks(data, 1)| == U16_SIZE && Arrived(map[], f, Chunks(data, 1), U16_SIZE).1 == []
  {
    hide Arrived, Chunks;
    var data: Bytes := seq(U16_SIZE, _ => 0);
    SingleBytes(data);
    CountZero(map[], f, Chunks(data, 1), U16_SIZE);
  }

  lemma {:induction false} SingleBytes(data: Bytes)
    requires data != []
    ensures |Chunks(data, 1)| == |data|
    decreases |data|
  {
    if |data| > 1 {
      SingleBytes(data[1..]);
    }
  }
}
