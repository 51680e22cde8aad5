/** A worker's choice of the layers to serve, from the registry's counts. */
module LayerSelection {
  import opened Options
  import opened RouteTables
  import opened RegistryServer

  /** `Aborted`: the window sum refuses a window of no layers. */
  datatype Selection = Enough(range: Range) | NotEnough(min: nat) | Aborted

  function WindowSum(d: seq<nat>, at: nat, len: nat): nat
    requires at + len <= |d|
  {
    if len == 0 then 0 else WindowSum(d, at, len - 1) + d[at + len - 1]
  }

  /** Layers lo..hi hold every layer nobody serves. */
  predicate HoldsUnserved(d: seq<nat>, lo: nat, hi: nat) {
    lo <= hi <= |d| && forall i :: 0 <= i < |d| && d[i] == 0 ==> lo <= i < hi
  }

  /** Of all windows of its length, the leftmost with the smallest sum. */
  predicate LeftmostLightest(d: seq<nat>, at: nat, len: nat) {
    && at + len <= |d|
    && (forall i: nat :: i + len <= |d| ==> WindowSum(d, at, len) <= WindowSum(d, i, len))
    && (forall i: nat :: i < at ==> WindowSum(d, at, len) < WindowSum(d, i, len))
  }

  /** What a selection promises, with no mention of how it is found. */
  ghost predicate IsSelection(d: seq<nat>, layers: nat, r: Selection) {
    && (r.NotEnough? <==> forall lo: nat, hi: nat :: HoldsUnserved(d, lo, hi) ==> layers < hi - lo)
    && (r.NotEnough? ==>
          && (exists lo: nat, hi: nat :: HoldsUnserved(d, lo, hi) && hi - lo == r.min)
          && forall lo: nat, hi: nat :: HoldsUnserved(d, lo, hi) ==> r.min <= hi - lo)
    && (r.Aborted? <==> layers == 0 && d != [] && forall i :: 0 <= i < |d| ==> d[i] != 0)
    && (r.Enough? ==>
          && r.range.lo <= r.range.hi
          && r.range.hi - r.range.lo == (if layers < |d| then layers else |d|)
          && LeftmostLightest(d, r.range.lo, r.range.hi - r.range.lo))
  }

  /** The first position holding `x`. */
  function Position(s: seq<nat>, x: nat, at: nat): (r: Option<nat>)
    requires at <= |s|
    ensures r.Some? ==> at <= r.value < |s| && s[r.value] == x && forall i :: at <= i < r.value ==> s[i] != x
    ensures r.None? ==> forall i :: at <= i < |s| ==> s[i] != x
    decreases |s| - at
  {
    if at == |s| then None else if s[at] == x then Some(at) else Position(s, x, at + 1)
  }

  /** How far from the end the last position holding `x` is. */
  function PositionFromEnd(s: seq<nat>, x: nat, skip: nat): (r: Option<nat>)
    requires skip <= |s|
    ensures r.Some? ==> skip <= r.value < |s| && s[|s| - 1 - r.value] == x
    ensures r.Some? ==> forall i :: |s| - 1 - r.value < i < |s| - skip ==> s[i] != x
    ensures r.None? ==> forall i :: 0 <= i < |s| - skip ==> s[i] != x
    decreases |s| - skip
  {
    if skip == |s| then None else if s[|s| - 1 - skip] == x then Some(skip) else PositionFromEnd(s, x, skip + 1)
  }

  function MinOf(s: seq<nat>): (r: nat)
    requires s != []
    ensures r in s && forall i :: 0 <= i < |s| ==> r <= s[i]
  {
    var last := s[|s| - 1];
    if |s| == 1 then last else
      var m := MinOf(s[..|s| - 1]);
      if last < m then last else m
  }

  method SumInWindow(d: seq<nat>, window: nat) returns (sums: seq<nat>)
    requires 0 < window < |d|
    ensures |sums| == |d| - window + 1
    ensures forall i :: 0 <= i < |sums| ==> sums[i] == WindowSum(d, i, window)
  {
    sums := [];
    for i := 0 to |d| - window + 1
      invariant |sums| == i
      invariant forall k :: 0 <= k < i ==> sums[k] == WindowSum(d, k, window)
    {
      var sum := 0;
      for j := 0 to window
        invariant sum == WindowSum(d, i, j)
      {
        if i + j < |d| {
          sum := sum + d[i + j];
        }
      }
      sums := sums + [sum];
    }
  }

  /** From the first to the last unserved layer is the shortest window that holds them all. */
  lemma ShortestUnserved(d: seq<nat>, first: nat, last: nat)
    requires first <= last < |d| && d[first] == 0 && d[last] == 0
    requires forall i :: 0 <= i < |d| && d[i] == 0 ==> first <= i <= last
    ensures HoldsUnserved(d, first, last + 1)
    ensures forall lo: nat, hi: nat :: HoldsUnserved(d, lo, hi) ==> last + 1 - first <= hi - lo
  {
  }

  method SelectLayers(d: seq<nat>, layers: nat) returns (r: Selection)
    ensures IsSelection(d, layers, r)
  {
    hide LeftmostLightest, WindowSum, MinOf, Position, PositionFromEnd;
    var start, end := Position(d, 0, 0), PositionFromEnd(d, 0, 0);
    if start.Some? && end.Some? {
      var min := |d| - end.value - 1 - start.value + 1;
      ShortestUnserved(d, start.value, |d| - end.value - 1);
      if min > layers {
        return NotEnough(min);
      }
    } else {
      assert HoldsUnserved(d, 0, 0);
    }
    if layers >= |d| {
      WholeIsLightest(d);
      return Enough(Range(0, |d|));
    }
    if layers == 0 {
      return Aborted;
    }
    var sums := SumInWindow(d, layers);
    var at := Position(sums, MinOf(sums), 0).value;
    FirstLeastIsLightest(d, layers, sums, at);
    return Enough(Range(at, at + layers));
  }

  lemma FirstLeastIsLightest(d: seq<nat>, len: nat, sums: seq<nat>, at: nat)
    requires len <= |d| && |sums| == |d| - len + 1 && at < |sums|
    requires forall i :: 0 <= i < |sums| ==> sums[i] == WindowSum(d, i, len)
    requires (forall i :: 0 <= i < |sums| ==> sums[at] <= sums[i]) && (forall i :: 0 <= i < at ==> sums[i] != sums[at])
    ensures LeftmostLightest(d, at, len)
  {
    hide WindowSum;
    forall i: nat | i + len <= |d|
      ensures WindowSum(d, at, len) <= WindowSum(d, i, len) && (i < at ==> WindowSum(d, at, len) < WindowSum(d, i, len))
    {
      assert sums[i] == WindowSum(d, i, len);
    }
  }

  lemma WholeIsLightest(d: seq<nat>)
    ensures LeftmostLightest(d, 0, |d|)
  {
    hide WindowSum;
  }

  // ---------- against the registered nodes ----------

  /** The counts in a window add up to the overlaps of the nodes' ranges with it. */
  lemma {:induction false} WindowIsLoad(nodes: Nodes, d: seq<nat>, at: nat, len: nat)
    requires IsDistribution(nodes, d) && at + len <= |d|
    ensures WindowSum(d, at, len) == Load(nodes, at, len)
    decreases len
  {
    if len == 0 {
      EmptyLoad(nodes, nodes.Keys, at);
    } else {
      WindowIsLoad(nodes, d, at, len - 1);
      LoadGrows(nodes, nodes.Keys, at, at + len - 1);
    }
  }

  /** A layer is counted unserved exactly when no node serves it. */
  lemma UnservedIff(nodes: Nodes, d: seq<nat>, layer: nat)
    requires IsDistribution(nodes, d) && layer < |d|
    ensures d[layer] == 0 <==> forall n :: n in nodes ==> !Serves(nodes, n, layer)
  {
    var s := Servers(nodes, nodes.Keys, layer);
    if s != {} {
      var n :| n in s;
      assert Serves(nodes, n, layer);
    } else {
      assert forall n :: n in nodes ==> n !in s;
    }
  }

  /** The range chosen overlaps the nodes' ranges least, and is the leftmost to do so. */
  lemma SuggestionIsLightest(nodes: Nodes, d: seq<nat>, layers: nat, r: Selection)
    requires IsDistribution(nodes, d) && IsSelection(d, layers, r) && r.Enough?
    ensures r.range.lo <= r.range.hi <= |d|
    ensures var len := r.range.hi - r.range.lo;
            && (forall i: nat :: i + len <= |d| ==> Load(nodes, r.range.lo, len) <= Load(nodes, i, len))
            && (forall i: nat :: i < r.range.lo ==> Load(nodes, r.range.lo, len) < Load(nodes, i, len))
  {
    var len := r.range.hi - r.range.lo;
    WindowIsLoad(nodes, d, r.range.lo, len);
    forall i: nat | i + len <= |d|
      ensures WindowSum(d, i, len) == Load(nodes, i, len)
    {
      WindowIsLoad(nodes, d, i, len);
    }
  }
}
