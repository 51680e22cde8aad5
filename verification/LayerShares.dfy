/** What START brings back to the root: an address and a layer count from every other hop. */
module LayerShares {
  import opened ModelServices
  import opened Cluster
  import opened ClusterInv
  import opened ClusterTheorems

  function SumLessOne(counts: seq<nat>): int {
    if counts == [] then 0 else SumLessOne(counts[..|counts| - 1]) + counts[|counts| - 1] - 1
  }

  function ShareOf(h: Pin): nat {
    U32(h.loaded.hi - h.from + 1)
  }

  /** What hops without local layers add all the same, from hop `i` on. */
  function RelayExcess(hops: seq<Pin>, i: nat): int
    decreases |hops| - i
  {
    if i >= |hops| then 0
    else (if hops[i].local.None? then ShareOf(hops[i]) - 1 else 0) + RelayExcess(hops, i + 1)
  }

  /** One entry for each hop behind hop `i`, tail first. */
  lemma {:induction false} TailFirst(hops: seq<Pin>, i: nat, k: nat)
    requires i < |hops|
    ensures var got := Gathered(hops, i);
            && |got.addresses| == |got.layers| == |hops| - 1 - i
            && (k < |hops| - 1 - i ==>
                  got.addresses[k] == hops[|hops| - 1 - k].node && got.layers[k] == ShareOf(hops[|hops| - 1 - k]))
    decreases |hops| - i
  {
    hide U32;
    if i + 1 < |hops| {
      TailFirst(hops, i + 1, k);
    }
  }

  /** No count wraps at a hop with local layers. */
  lemma WorkingShare(m: LayerModel, c: State, h: Pin)
    requires PinOk(m, c, h) && h.local.Some? && m.layers + 1 < 0x1_0000_0000
    ensures ShareOf(h) == OutLayer(h) - h.from + 1 == h.local.value.hi - h.local.value.lo + 1
  {
  }

  lemma SumLessOneSnoc(counts: seq<nat>, count: nat)
    ensures SumLessOne(counts + [count]) == SumLessOne(counts) + count - 1
    ensures SumLessOne([]) == 0
  {
    assert (counts + [count])[..|counts|] == counts;
  }

  lemma {:induction false} SharesSum(m: LayerModel, c: State, ch: Chain, i: nat)
    requires Linked(m, c, ch) && i + 1 < |ch.hops| && m.layers + 1 < 0x1_0000_0000
    ensures SumLessOne(Gathered(ch.hops, i).layers)
            == OutLayer(ch.hops[|ch.hops| - 1]) - ch.hops[i + 1].from + RelayExcess(ch.hops, i + 1)
    decreases |ch.hops| - i
  {
    hide U32, PinOk, SumLessOne;
    var h, below := ch.hops[i + 1], Gathered(ch.hops, i + 1);
    assert PinOk(m, c, h);
    if h.local.Some? {
      WorkingShare(m, c, h);
    }
    SumLessOneSnoc(below.layers, ShareOf(h));
    if i + 2 < |ch.hops| {
      SharesSum(m, c, ch, i + 1);
      assert ch.hops[i + 2].from == OutLayer(h);
    }
  }

  /**
   One entry for each remote hop, tail first: the end of what the hop has loaded less the layer it was entered at, plus
   one.  The counts, each less one, add up to the layers from the first remote hop on, plus only what hops without
   local work add.
   */
  predicate Conserved(m: LayerModel, hops: seq<Pin>, got: Shares) {
    && hops != [] && |got.addresses| == |got.layers| == |hops| - 1
    && (forall k :: 0 <= k < |hops| - 1 ==> got.addresses[k] == hops[|hops| - 1 - k].node)
    && (forall k :: 0 <= k < |hops| - 1 ==> got.layers[k] == ShareOf(hops[|hops| - 1 - k]))
    && (|hops| > 1 ==> SumLessOne(got.layers) == m.layers - hops[1].from + RelayExcess(hops, 1))
  }

  lemma ChainConserves(m: LayerModel, c: State, ch: Chain)
    requires Linked(m, c, ch) && Whole(m, ch) && m.layers + 1 < 0x1_0000_0000
    ensures Conserved(m, ch.hops, Gathered(ch.hops, 0))
  {
    hide Gathered, ShareOf, RelayExcess, SumLessOne, PinOk;
    forall k | 0 <= k < |ch.hops|
      ensures var got, h := Gathered(ch.hops, 0), ch.hops[|ch.hops| - 1 - k];
              && |got.addresses| == |got.layers| == |ch.hops| - 1
              && (k < |ch.hops| - 1 ==> got.addresses[k] == h.node && got.layers[k] == ShareOf(h))
    {
      TailFirst(ch.hops, 0, k);
    }
    TailFirst(ch.hops, 0, 0);
    if |ch.hops| > 1 {
      SharesSum(m, c, ch, 0);
    }
  }

  /** In every run the lists the root got back from a successful START are conserved. */
  lemma SharesAreConserved(m: LayerModel, es: seq<Event>, states: seq<State>, n: nat, root: Sid)
    requires IsRun(m, es, states) && Fresh(m, states[0]) && n < |states| && m.layers + 1 < 0x1_0000_0000
    requires root in states[n].chains && Started(states[n].chains[root])
    ensures var ch := states[n].chains[root]; Conserved(m, ch.hops, ch.shares)
  {
    hide Inv, IsRun, Fresh, Linked, Whole, Conserved, Gathered, OutputsMatch;
    RunChain(m, es, states, n, root);
    ChainConserves(m, states[n], states[n].chains[root]);
  }

  /** Where every remote hop works nothing is added. */
  lemma {:induction false} NoRelayNoExcess(hops: seq<Pin>, i: nat)
    requires forall j :: i <= j < |hops| ==> hops[j].local.Some?
    ensures RelayExcess(hops, i) == 0
    decreases |hops| - i
  {
    if i < |hops| {
      NoRelayNoExcess(hops, i + 1);
    }
  }

  /**
    Where every remote hop works, a share is the hop's number of layers plus one, and together they are all remote
    layers.
   */
  lemma WorkingSharesAddUp(m: LayerModel, es: seq<Event>, states: seq<State>, n: nat, root: Sid)
    requires IsRun(m, es, states) && Fresh(m, states[0]) && n < |states| && m.layers + 1 < 0x1_0000_0000
    requires root in states[n].chains && Started(states[n].chains[root])
    requires forall j :: 1 <= j < |states[n].chains[root].hops| ==> states[n].chains[root].hops[j].local.Some?
    ensures var hops, got := states[n].chains[root].hops, states[n].chains[root].shares;
            && hops != [] && |got.layers| == |hops| - 1
            && (forall k :: 0 <= k < |hops| - 1 ==>
                  var r := hops[|hops| - 1 - k].local.value; got.layers[k] == r.hi - r.lo + 1)
            && (|hops| > 1 ==> SumLessOne(got.layers) == m.layers - hops[1].from)
  {
    hide Inv, IsRun, Fresh, Whole, Gathered, RelayExcess, SumLessOne, PinOk, ShareOf, OutputsMatch;
    RunChain(m, es, states, n, root);
    var c, hops := states[n], states[n].chains[root].hops;
    SharesAreConserved(m, es, states, n, root);
    NoRelayNoExcess(hops, 1);
    forall k | 0 <= k < |hops| - 1
      ensures var r := hops[|hops| - 1 - k].local.value; states[n].chains[root].shares.layers[k] == r.hi - r.lo + 1
    {
      assert PinOk(m, c, hops[|hops| - 1 - k]);
      WorkingShare(m, c, hops[|hops| - 1 - k]);
    }
  }
}
