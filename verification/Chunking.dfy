/** Cutting a frame into chunks of bounded size, and putting it together again. */
module Chunking {
  import opened Sequences

  /** Number of values of the source's 16-bit and 32-bit unsigned integers. */
  const U16_SIZE := 0x1_0000
  const U32_SIZE := 0x1_0000_0000

  /** The chunks of a frame: one chunk when the frame fits, else full chunks and a rest. */
  function Chunks(data: Bytes, size: nat): (parts: seq<Bytes>)
    requires size > 0
    ensures |parts| >= 1
    decreases |data|
  {
    if |data| <= size then [data] else [data[..size]] + Chunks(data[size..], size)
  }

  lemma {:induction false} ConcatChunks(data: Bytes, size: nat)
    requires size > 0
    ensures Concat(Chunks(data, size)) == data
    ensures forall i :: 0 <= i < |Chunks(data, size)| ==> |Chunks(data, size)[i]| <= size
    ensures |Chunks(data, size)| == 1 <==> |data| <= size
    decreases |data|
  {
    if |data| > size {
      ConcatChunks(data[size..], size);
      var rest := Chunks(data[size..], size);
      assert Chunks(data, size)[1..] == rest;
      assert data == data[..size] + data[size..];
      forall i | 0 <= i < |Chunks(data, size)|
        ensures |Chunks(data, size)[i]| <= size
      {
        if i > 0 {
          assert Chunks(data, size)[i] == rest[i - 1];
        }
      }
    } else {
      assert [data][1..] == [];
    }
  }

  /** Every chunk but the last is full. */
  lemma {:induction false} ChunksAreFull(data: Bytes, size: nat)
    requires size > 0
    ensures forall i :: 0 <= i < |Chunks(data, size)| - 1 ==> |Chunks(data, size)[i]| == size
    decreases |data|
  {
    if |data| > size {
      ChunksAreFull(data[size..], size);
    }
  }

  lemma WholeIsOneChunk(data: Bytes, size: nat)
    requires 0 < size && |data| <= size
    ensures Chunks(data, size) == [data]
  {
  }

  /** The values of an ordered map with 16-bit keys, in ascending key order, joined. */
  function Gather(parts: map<nat, Bytes>, from: nat): (data: Bytes)
    requires from <= U16_SIZE
    decreases U16_SIZE - from
  {
    if from == U16_SIZE then []
    else (if from in parts then parts[from] else []) + Gather(parts, from + 1)
  }

  lemma {:induction false} GatherEmpty(parts: map<nat, Bytes>, from: nat)
    requires from <= U16_SIZE
    requires forall i :: i in parts ==> i < from
    ensures Gather(parts, from) == []
    decreases U16_SIZE - from
  {
    if from < U16_SIZE {
      GatherEmpty(parts, from + 1);
    }
  }

  lemma {:induction false} GatherSuffix(parts: map<nat, Bytes>, list: seq<Bytes>, from: nat)
    requires from <= |list| <= U16_SIZE
    requires forall i :: i in parts <==> 0 <= i < |list|
    requires forall i :: 0 <= i < |list| ==> parts[i] == list[i]
    ensures Gather(parts, from) == Concat(list[from..])
    decreases |list| - from
  {
    if from == |list| {
      GatherEmpty(parts, from);
    } else {
      GatherSuffix(parts, list, from + 1);
      assert list[from..][1..] == list[from + 1..];
    }
  }

  /** However its chunks arrived, a complete reassembly map yields the frame. */
  lemma GatherRestoresFrame(parts: map<nat, Bytes>, data: Bytes, size: nat)
    requires size > 0 && |Chunks(data, size)| < U16_SIZE
    requires forall i :: i in parts <==> 0 <= i < |Chunks(data, size)|
    requires forall i :: 0 <= i < |Chunks(data, size)| ==> parts[i] == Chunks(data, size)[i]
    ensures Gather(parts, 0) == data
  {
    var list := Chunks(data, size);
    GatherSuffix(parts, list, 0);
    assert list[0..] == list;
    ConcatChunks(data, size);
  }
}
