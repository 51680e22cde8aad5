/** Nucleus (top-p) sampling up to the draw: which weights are clamped to zero. */
module Nucleus {
  import opened Sequences

  /** Index `i` comes before `j` in a stable descending order of the weights. */
  predicate Before(w: seq<real>, i: nat, j: nat)
    requires i < |w| && j < |w|
  {
    w[i] > w[j] || (w[i] == w[j] && i < j)
  }

  predicate Indices(w: seq<real>, idx: seq<nat>) {
    forall k :: 0 <= k < |idx| ==> idx[k] < |w|
  }

  predicate Ordered(w: seq<real>, idx: seq<nat>)
    requires Indices(w, idx)
  {
    forall a, b :: 0 <= a < b < |idx| ==> Before(w, idx[a], idx[b])
  }

  predicate IsArgsort(w: seq<real>, idx: seq<nat>) {
    Indices(w, idx) && Ordered(w, idx) && forall i: nat :: i < |w| ==> i in idx
  }

  // ---------- the order ----------

  /** `i` placed behind every index whose weight is at least its own. */
  function Insert(w: seq<real>, idx: seq<nat>, i: nat): (r: seq<nat>)
    requires Indices(w, idx) && Ordered(w, idx) && i < |w| && forall k :: 0 <= k < |idx| ==> idx[k] < i
    ensures Indices(w, r) && Ordered(w, r) && forall x :: x in r <==> x in idx || x == i
  {
    var n := |idx|;
    if n == 0 || w[idx[n - 1]] >= w[i] then idx + [i]
    else
      var front := Insert(w, idx[..n - 1], i);
      assert forall k :: 0 <= k < |front| ==> front[k] in idx[..n - 1] || front[k] == i;
      front + [idx[n - 1]]
  }

  function SortFirst(w: seq<real>, n: nat): (r: seq<nat>)
    requires n <= |w|
    ensures Indices(w, r) && Ordered(w, r) && forall x: nat :: x in r <==> x < n
  {
    if n == 0 then [] else
      var r := SortFirst(w, n - 1);
      assert forall k :: 0 <= k < |r| ==> r[k] in r;
      Insert(w, r, n - 1)
  }

  function Argsort(w: seq<real>): (r: seq<nat>)
    ensures IsArgsort(w, r)
  {
    SortFirst(w, |w|)
  }

  lemma LastAlike(w: seq<real>, a: seq<nat>, b: seq<nat>)
    requires Indices(w, a) && Ordered(w, a) && Indices(w, b) && Ordered(w, b) && a != [] && b != []
    requires a[|a| - 1] in b && b[|b| - 1] in a
    ensures a[|a| - 1] == b[|b| - 1]
  {
    var i :| 0 <= i < |b| && b[i] == a[|a| - 1];
    var j :| 0 <= j < |a| && a[j] == b[|b| - 1];
  }

  lemma LastIsLast(w: seq<real>, a: seq<nat>)
    requires Indices(w, a) && Ordered(w, a) && a != []
    ensures Ordered(w, a[..|a| - 1]) && forall x :: x in a[..|a| - 1] <==> x in a && x != a[|a| - 1]
  {
    var n := |a| - 1;
    assert a == a[..n] + [a[n]];
    assert forall k :: 0 <= k < n ==> a[k] != a[n];
  }

  /** A stable descending sort has only one result. */
  lemma {:induction false} OrderedAlike(w: seq<real>, a: seq<nat>, b: seq<nat>)
    requires Indices(w, a) && Ordered(w, a) && Indices(w, b) && Ordered(w, b)
    requires forall x :: x in a <==> x in b
    ensures a == b
    decreases |a|
  {
    if a == [] || b == [] {
      var x := if a != [] then a[0] else if b != [] then b[0] else 0;
      assert x in a <==> x in b;
    } else {
      LastAlike(w, a, b);
      LastIsLast(w, a);
      LastIsLast(w, b);
      var a', b' := a[..|a| - 1], b[..|b| - 1];
      forall x
        ensures x in a' <==> x in b'
      {
        assert x in a <==> x in b;
      }
      OrderedAlike(w, a', b');
      assert a == a[..|a| - 1] + [a[|a| - 1]];
      assert b == b[..|b| - 1] + [b[|b| - 1]];
    }
  }

  lemma ArgsortIsUnique(w: seq<real>, idx: seq<nat>)
    requires IsArgsort(w, idx)
    ensures idx == Argsort(w)
  {
    var r := Argsort(w);
    forall x
      ensures x in idx <==> x in r
    {
      assert x in idx ==> x < |w|;
      assert x in r ==> x < |w|;
    }
    OrderedAlike(w, idx, r);
  }

  // ---------- the clamp ----------

  function Sum(w: seq<real>, idx: seq<nat>): real
    requires Indices(w, idx)
  {
    if idx == [] then 0.0 else Sum(w, idx[..|idx| - 1]) + w[idx[|idx| - 1]]
  }

  /** How many indices, at least `k`, are kept: up to the first prefix that reaches `topP`. */
  function KeptFrom(w: seq<real>, idx: seq<nat>, topP: real, k: nat): (r: nat)
    requires Indices(w, idx) && k <= |idx|
    ensures k <= r <= |idx|
    ensures forall j :: k <= j < r ==> Sum(w, idx[..j]) < topP
    ensures r < |idx| ==> Sum(w, idx[..r]) >= topP
    decreases |idx| - k
  {
    if k == |idx| || Sum(w, idx[..k]) >= topP then k else KeptFrom(w, idx, topP, k + 1)
  }

  /** The indices whose weights are left alone, in descending order. */
  function Kept(w: seq<real>, topP: real): (r: seq<nat>)
    ensures Indices(w, r) && Ordered(w, r)
  {
    var idx := Argsort(w);
    idx[..KeptFrom(w, idx, topP, 0)]
  }

  function Clamped(w: seq<real>, topP: real): (r: seq<real>)
    ensures |r| == |w|
  {
    var kept := Kept(w, topP);
    seq(|w|, i requires 0 <= i < |w| => if i in kept then w[i] else 0.0)
  }

  method ClampTail(prs: array<real>, topP: real)
    modifies prs
    ensures prs[..] == Clamped(old(prs[..]), topP)
  {
    hide Ordered, Sum, Clamped, ClampedUpTo;
    ghost var w := prs[..];
    var order := Argsort(prs[..]);
    ghost var kept := KeptFrom(w, order, topP, 0);
    SumStep(w, order, 0);
    NothingClamped(w, order, kept);
    var cumsum := 0.0;
    for k := 0 to |order|
      invariant cumsum == Sum(w, order[..if k < kept then k else kept])
      invariant ClampedUpTo(prs[..], w, order, kept, k)
    {
      SumStep(w, order, k);
      ClampStep(prs[..], w, order, kept, k);
      ghost var before := prs[..];
      if cumsum >= topP {
        prs[order[k]] := 0.0;
        assert prs[..] == before[order[k] := 0.0];
      } else {
        cumsum := cumsum + prs[order[k]];
      }
    }
    AllClamped(prs[..], w, topP);
  }

  /** The weights `p` after the first `k` indices of the order, of which `kept` are left alone. */
  ghost predicate ClampedUpTo(p: seq<real>, w: seq<real>, order: seq<nat>, kept: nat, k: nat)
    requires Indices(w, order)
  {
    |p| == |w| && forall j :: 0 <= j < |order| ==> p[order[j]] == if kept <= j < k then 0.0 else w[order[j]]
  }

  lemma NothingClamped(w: seq<real>, order: seq<nat>, kept: nat)
    requires Indices(w, order)
    ensures ClampedUpTo(w, w, order, kept, 0)
  {
  }

  lemma ClampStep(p: seq<real>, w: seq<real>, order: seq<nat>, kept: nat, k: nat)
    requires Indices(w, order) && Ordered(w, order) && ClampedUpTo(p, w, order, kept, k) && k < |order|
    ensures |p| == |w| && p[order[k]] == w[order[k]]
    ensures ClampedUpTo(if k < kept then p else p[order[k] := 0.0], w, order, kept, k + 1)
  {
    OrderIsDistinct(w, order);
    hide Ordered;
  }

  lemma AllClamped(p: seq<real>, w: seq<real>, topP: real)
    requires ClampedUpTo(p, w, Argsort(w), KeptFrom(w, Argsort(w), topP, 0), |Argsort(w)|)
    ensures p == Clamped(w, topP)
  {
    hide Ordered, Kept;
    forall i: nat | i < |w|
      ensures p[i] == Clamped(w, topP)[i]
    {
      var j := PlaceInOrder(w, topP, i);
      KeptSurvive(w, topP, i);
    }
  }

  lemma OrderIsDistinct(w: seq<real>, idx: seq<nat>)
    requires Indices(w, idx) && Ordered(w, idx)
    ensures forall a, b :: 0 <= a < |idx| && 0 <= b < |idx| && a != b ==> idx[a] != idx[b]
  {
    forall a, b | 0 <= a < b < |idx|
      ensures idx[a] != idx[b]
    {
      assert Before(w, idx[a], idx[b]);
    }
  }

  lemma SumStep(w: seq<real>, idx: seq<nat>, k: int)
    requires Indices(w, idx)
    ensures Sum(w, idx[..0]) == 0.0
    ensures 0 <= k < |idx| ==> Sum(w, idx[..k + 1]) == Sum(w, idx[..k]) + w[idx[k]]
  {
    if 0 <= k < |idx| {
      assert idx[..k + 1][..k] == idx[..k];
    }
  }

  lemma KeptSurvive(w: seq<real>, topP: real, i: nat)
    requires i < |w|
    ensures Clamped(w, topP)[i] == if i in Kept(w, topP) then w[i] else 0.0
  {
  }

  /** An index is kept exactly when its place in the order is before the cut. */
  lemma PlaceInOrder(w: seq<real>, topP: real, i: nat) returns (j: nat)
    requires i < |w|
    ensures j < |Argsort(w)| && Argsort(w)[j] == i && (j < KeptFrom(w, Argsort(w), topP, 0) <==> i in Kept(w, topP))
  {
    var order, kept := Argsort(w), Kept(w, topP);
    assert i in order;
    j :| 0 <= j < |order| && order[j] == i;
    if j < |kept| {
      assert kept[j] == i;
    } else {
      assert forall a :: 0 <= a < |kept| ==> kept[a] != i;
    }
  }

  // ---------- sets of indices ----------

  ghost predicate IndexSet(w: seq<real>, s: set<nat>) {
    forall i :: i in s ==> i < |w|
  }

  ghost function SumOf(w: seq<real>, s: set<nat>): real
    requires IndexSet(w, s)
    decreases |s|
  {
    if s == {} then 0.0
    else
      var i :| i in s;
      w[i] + SumOf(w, s - {i})
  }

  lemma {:induction false} SumWithout(w: seq<real>, s: set<nat>, i: nat)
    requires IndexSet(w, s) && i in s
    ensures SumOf(w, s) == w[i] + SumOf(w, s - {i})
    decreases |s|
  {
    var pick :| pick in s && SumOf(w, s) == w[pick] + SumOf(w, s - {pick});
    if pick != i {
      SumWithout(w, s - {pick}, i);
      SumWithout(w, s - {i}, pick);
      assert s - {pick} - {i} == s - {i} - {pick};
    }
  }

  lemma NoWeight(w: seq<real>)
    ensures SumOf(w, {}) == 0.0
  {
  }

  lemma {:induction false} SumOfElements(w: seq<real>, idx: seq<nat>)
    requires Indices(w, idx) && Ordered(w, idx)
    ensures IndexSet(w, Elements(idx)) && SumOf(w, Elements(idx)) == Sum(w, idx)
    ensures |Elements(idx)| == |idx|
    decreases |idx|
  {
    hide Sum, SumOf, Ordered;
    SumStep(w, idx, |idx| - 1);
    NoWeight(w);
    if idx == [] {
      assert Elements(idx) == {} && idx[..0] == idx;
    } else {
      var n := |idx| - 1;
      LastIsLast(w, idx);
      SumOfElements(w, idx[..n]);
      assert idx[..n + 1] == idx && idx[n] in idx;
      assert Elements(idx) - {idx[n]} == Elements(idx[..n]);
      SumWithout(w, Elements(idx), idx[n]);
    }
  }

  lemma SomeOutside(s: set<nat>, t: set<nat>) returns (x: nat)
    requires |t| < |s|
    ensures x in s && x !in t
  {
    if s <= t {
      SubsetSmaller(s, t);
      assert false;
    }
    x :| x in s && x !in t;
  }

  /** Of `n + 1` indices one weighs no more than the one at place `n` of the order. */
  lemma SomeLight(w: seq<real>, idx: seq<nat>, s: set<nat>) returns (x: nat)
    requires IsArgsort(w, idx) && IndexSet(w, s) && 0 < |s| <= |idx|
    ensures x in s && w[x] <= w[idx[|s| - 1]]
  {
    var n := |s| - 1;
    FewElements(idx[..n]);
    x := SomeOutside(s, Elements(idx[..n]));
    assert x in idx;
    var p :| 0 <= p < |idx| && idx[p] == x;
    forall q | 0 <= q < n
      ensures idx[q] in Elements(idx[..n])
    {
      assert idx[..n][q] == idx[q];
    }
    assert n <= p;
  }

  lemma NotTooMany(w: seq<real>, idx: seq<nat>, s: set<nat>)
    requires IsArgsort(w, idx) && IndexSet(w, s)
    ensures |s| <= |idx|
  {
    assert s <= Elements(idx);
    SubsetSmaller(s, Elements(idx));
    FewElements(idx);
  }

  /** No set of `n` indices weighs more than the first `n` of the order. */
  lemma {:induction false} HeaviestFirst(w: seq<real>, idx: seq<nat>, s: set<nat>)
    requires IsArgsort(w, idx) && IndexSet(w, s)
    ensures |s| <= |idx| && SumOf(w, s) <= Sum(w, idx[..|s|])
    decreases |s|
  {
    hide Ordered;
    NotTooMany(w, idx, s);
    if s != {} {
      var n := |s| - 1;
      var x := SomeLight(w, idx, s);
      HeaviestFirst(w, idx, s - {x});
      SumWithout(w, s, x);
      assert idx[..n + 1][..n] == idx[..n];
    }
  }

  /** The kept indices head the descending order, and exactly their weights survive. */
  lemma KeptIsHeaviest(w: seq<real>, topP: real, i: nat, j: nat)
    requires i < |w| && j < |w|
    ensures i in Kept(w, topP) ==> Clamped(w, topP)[i] == w[i]
    ensures i !in Kept(w, topP) ==> Clamped(w, topP)[i] == 0.0
    ensures i in Kept(w, topP) && j !in Kept(w, topP) ==> Before(w, i, j)
  {
    var idx, kept := Argsort(w), Kept(w, topP);
    if i in kept && j !in kept {
      var a :| 0 <= a < |kept| && kept[a] == i;
      assert j in idx;
      var b :| 0 <= b < |idx| && idx[b] == j;
      assert forall q :: 0 <= q < |kept| ==> idx[q] in kept;
    }
  }

  /**
   If any set of indices reaches `topP` then the kept ones do, and no smaller set does; otherwise nothing is clamped.
   Holds for weights of either sign.
   */
  lemma KeptIsSmallest(w: seq<real>, topP: real, s: set<nat>)
    requires IndexSet(w, s) && SumOf(w, s) >= topP
    ensures var kept := Kept(w, topP);
            && IndexSet(w, Elements(kept)) && |Elements(kept)| == |kept| <= |s|
            && SumOf(w, Elements(kept)) >= topP
  {
    var idx, kept := Argsort(w), Kept(w, topP);
    HeaviestFirst(w, idx, s);
    assert idx[..|idx|] == idx;
    SumOfElements(w, kept);
    if |kept| > |s| {
      assert false;
    }
    if |kept| == |idx| {
      assert |s| == |idx|;
      assert kept == idx;
    }
  }

  lemma NothingReachesNothingClamped(w: seq<real>, topP: real)
    requires forall s: set<nat> | IndexSet(w, s) :: SumOf(w, s) < topP
    ensures Clamped(w, topP) == w && |Kept(w, topP)| == |w|
  {
    hide Sum, SumOf, Ordered, Clamped;
    var idx, kept := Argsort(w), Kept(w, topP);
    SumOfElements(w, kept);
    assert SumOf(w, Elements(kept)) < topP;
    assert kept == idx;
    AllIndices(w);
    forall i: nat | i < |w|
      ensures Clamped(w, topP)[i] == w[i]
    {
      assert i in idx;
      KeptSurvive(w, topP, i);
    }
  }

  // ---------- non-negative weights ----------

  ghost function All(w: seq<real>): set<nat> {
    UpTo(|w|)
  }

  function UpTo(n: nat): (r: set<nat>)
    ensures |r| == n && forall i: nat :: i in r <==> i < n
  {
    if n == 0 then {} else UpTo(n - 1) + {n - 1}
  }

  ghost function Total(w: seq<real>): real {
    SumOf(w, All(w))
  }

  lemma AllIndices(w: seq<real>)
    ensures Elements(Argsort(w)) == All(w) && |Argsort(w)| == |w| == |All(w)| && Total(w) == Sum(w, Argsort(w))
  {
    var idx := Argsort(w);
    assert forall x :: x in idx ==> x < |w|;
    SumOfElements(w, idx);
    assert Elements(idx) == All(w);
  }

  predicate NonNegative(w: seq<real>) {
    forall i :: 0 <= i < |w| ==> w[i] >= 0.0
  }

  lemma {:induction false} SubsetWeighsLess(w: seq<real>, s: set<nat>, t: set<nat>)
    requires NonNegative(w) && s <= t && IndexSet(w, t)
    ensures 0.0 <= SumOf(w, s) <= SumOf(w, t)
    decreases |t|
  {
    if t != {} {
      var i :| i in t;
      SumWithout(w, t, i);
      if i in s {
        SumWithout(w, s, i);
      }
      SubsetWeighsLess(w, s - {i}, t - {i});
      assert i !in s ==> s - {i} == s;
    }
  }

  /** The nucleus: the smallest set that reaches `topP` when the total does, and everything when it does not. */
  lemma NucleusIsSmallest(w: seq<real>, topP: real)
    requires NonNegative(w)
    ensures IndexSet(w, Elements(Kept(w, topP)))
    ensures Total(w) >= topP <==> SumOf(w, Elements(Kept(w, topP))) >= topP
    ensures Total(w) >= topP ==>
              forall s: set<nat> :: IndexSet(w, s) && SumOf(w, s) >= topP ==> |Elements(Kept(w, topP))| <= |s|
    ensures Total(w) < topP ==> Clamped(w, topP) == w
  {
    var kept := Kept(w, topP);
    SumOfElements(w, kept);
    assert Elements(kept) <= All(w);
    SubsetWeighsLess(w, Elements(kept), All(w));
    if Total(w) >= topP {
      KeptIsSmallest(w, topP, All(w));
      forall s: set<nat> | IndexSet(w, s) && SumOf(w, s) >= topP
        ensures |Elements(kept)| <= |s|
      {
        KeptIsSmallest(w, topP, s);
      }
    } else {
      forall s: set<nat> | IndexSet(w, s)
        ensures SumOf(w, s) < topP
      {
        assert s <= All(w);
        SubsetWeighsLess(w, s, All(w));
      }
      NothingReachesNothingClamped(w, topP);
    }
  }

  lemma {:induction false} ClampedSum(w: seq<real>, topP: real, s: set<nat>)
    requires IndexSet(w, s)
    ensures IndexSet(w, s * Elements(Kept(w, topP)))
    ensures SumOf(Clamped(w, topP), s) == SumOf(w, s * Elements(Kept(w, topP)))
    decreases |s|
  {
    hide SumOf, Clamped, Kept;
    var kept := Elements(Kept(w, topP));
    if s == {} {
      NoWeight(w);
      NoWeight(Clamped(w, topP));
      assert s * kept == {};
    } else {
      var i :| i in s;
      ClampedSum(w, topP, s - {i});
      KeptSurvive(w, topP, i);
      SumWithout(Clamped(w, topP), s, i);
      if i in kept {
        SumWithout(w, s * kept, i);
        assert s * kept - {i} == (s - {i}) * kept;
      } else {
        assert s * kept == (s - {i}) * kept;
      }
    }
  }

  /**
    What is left to draw from weighs what the kept indices weighed, and it is positive exactly when a draw makes
    sense.
   */
  lemma DrawIsDefined(w: seq<real>, topP: real)
    requires NonNegative(w)
    ensures Total(Clamped(w, topP)) == Sum(w, Kept(w, topP))
    ensures Total(Clamped(w, topP)) > 0.0 <==> Total(w) > 0.0 && topP > 0.0
  {
    var kept := Kept(w, topP);
    SumOfElements(w, kept);
    assert All(Clamped(w, topP)) == All(w);
    assert All(w) * Elements(kept) == Elements(kept);
    ClampedSum(w, topP, All(w));
    SubsetWeighsLess(w, Elements(kept), All(w));
    if topP <= 0.0 {
      assert Sum(w, Argsort(w)[..0]) >= topP;
      assert kept == [];
    } else if Total(w) > 0.0 {
      NucleusIsSmallest(w, topP);
    }
  }
}
