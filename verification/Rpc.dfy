/** Requests in flight, numbered, each with the task that waits for its answer. */
module Rpc {
  import opened Options

  datatype Waits<W> = Waits(seed: nat, waits: map<nat, W>)
  {
    /** Numbers are never reused: every waiter sits under a number already drawn. */
    predicate Valid() {
      forall q :: q in waits ==> q <= seed
    }
  }

  function Issue<W>(r: Waits<W>, w: W): (Waits<W>, nat) {
    (Waits(r.seed + 1, r.waits[r.seed + 1 := w]), r.seed + 1)
  }

  function Resolve<W>(r: Waits<W>, q: nat): (Waits<W>, Option<W>) {
    if q in r.waits then (r.(waits := r.waits - {q}), Some(r.waits[q])) else (r, None)
  }

  class RpcClient<W> {
    var seqSeed: nat
    var waits: map<nat, W>

    ghost function State(): Waits<W>
      reads this
    {
      Waits(seqSeed, waits)
    }

    constructor ()
      ensures State() == Waits(0, map[]) && State().Valid()
    {
      seqSeed, waits := 0, map[];
    }

    method Request(w: W) returns (q: nat)
      requires State().Valid()
      modifies this
      ensures State().Valid() && (State(), q) == Issue(old(State()), w) && q !in old(waits)
      ensures q == old(seqSeed) + 1 == seqSeed && waits == old(waits)[q := w]
    {
      q := seqSeed + 1;
      seqSeed := seqSeed + 1;
      waits := waits[q := w];
    }

    method OnRes(q: nat) returns (w: Option<W>)
      requires State().Valid()
      modifies this
      ensures State().Valid() && (State(), w) == Resolve(old(State()), q)
      ensures w == (if q in old(waits) then Some(old(waits)[q]) else None) && waits == old(waits) - {q}
      ensures seqSeed == old(seqSeed)
    {
      if q in waits {
        w := Some(waits[q]);
        waits := waits - {q};
      } else {
        w := None;
      }
    }
  }
}
