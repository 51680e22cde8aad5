/** The layers of a model as functions on a cache and an embedding, whole and cut into stages. */
module Layers {
  import opened Options
  import opened Sequences
  import opened RouteTables

  /** What every layer is told besides the embedding. */
  datatype Pos = Pos(step: nat, seqLen: nat, indexPos: nat)

  datatype Model<!C, !E> = Model(layers: nat, init: C, apply: (nat, Pos, C, E) -> (C, E))

  /** Layers `lo`, `lo + 1`, ... in order, one for each cache. */
  function RunLayers<C, E>(m: Model<C, E>, lo: nat, caches: seq<C>, pos: Pos, x: E): (r: (seq<C>, E))
    ensures |r.0| == |caches|
    decreases |caches|
  {
    if caches == [] then ([], x)
    else
      var (c, y) := m.apply(lo, pos, caches[0], x);
      var (cs, z) := RunLayers(m, lo + 1, caches[1..], pos, y);
      ([c] + cs, z)
  }

  lemma {:induction false} RunSplit<C, E>(m: Model<C, E>, lo: nat, a: seq<C>, b: seq<C>, pos: Pos, x: E)
    ensures var (ca, y) := RunLayers(m, lo, a, pos, x);
            var (cb, z) := RunLayers(m, lo + |a|, b, pos, y);
            RunLayers(m, lo, a + b, pos, x) == (ca + cb, z)
    decreases |a|
  {
    if a == [] {
      assert a + b == b;
      var cb := RunLayers(m, lo, b, pos, x).0;
      assert [] + cb == cb;
    } else {
      var (c, y) := m.apply(lo, pos, a[0], x);
      RunSplit(m, lo + 1, a[1..], b, pos, y);
      assert (a + b)[1..] == a[1..] + b;
      var (ca, y1) := RunLayers(m, lo + 1, a[1..], pos, y);
      var cb := RunLayers(m, lo + |a|, b, pos, y1).0;
      assert [c] + (ca + cb) == [c] + ca + cb;
    }
  }

  /** One stateful whole model fed a list of inputs: its caches afterwards, and its outputs. */
  function WholeRun<C, E>(m: Model<C, E>, inputs: seq<(Pos, E)>): (r: (seq<C>, seq<E>))
    ensures |r.0| == m.layers && |r.1| == |inputs|
  {
    if inputs == [] then (seq(m.layers, _ => m.init), [])
    else
      var (caches, outs) := WholeRun(m, inputs[..|inputs| - 1]);
      var (pos, x) := inputs[|inputs| - 1];
      var (caches', y) := RunLayers(m, 0, caches, pos, x);
      (caches', outs + [y])
  }

  // ---------- a chain of workers, each running every layer it has loaded ----------

  /** A worker in a chain: what it has loaded, and the piece it was pinned for, if it works at all. */
  datatype Stage = Stage(loaded: Range, local: Option<Range>)

  function StageCaches<C, E>(m: Model<C, E>, s: Stage): seq<C> {
    if s.local.Some? && s.loaded.lo < s.loaded.hi then seq(s.loaded.hi - s.loaded.lo, _ => m.init) else []
  }

  function FreshCaches<C, E>(m: Model<C, E>, stages: seq<Stage>): (r: seq<seq<C>>)
    ensures |r| == |stages|
  {
    seq(|stages|, i requires 0 <= i < |stages| => StageCaches(m, stages[i]))
  }

  function StageStep<C, E>(m: Model<C, E>, s: Stage, caches: seq<C>, pos: Pos, x: E): (r: (seq<C>, E))
    ensures |r.0| == |caches|
  {
    if s.local.None? then (caches, x) else RunLayers(m, s.loaded.lo, caches, pos, x)
  }

  /** The embedding after the first `k` stages. */
  function ChainThrough<C, E>(m: Model<C, E>, stages: seq<Stage>, caches: seq<seq<C>>, pos: Pos, x: E, k: nat): E
    requires |caches| == |stages| && k <= |stages|
  {
    if k == 0 then x
    else StageStep(m, stages[k - 1], caches[k - 1], pos, ChainThrough(m, stages, caches, pos, x, k - 1)).1
  }

  /** The caches of stage `i` after the embedding has passed it. */
  function StageAfter<C, E>(m: Model<C, E>, stages: seq<Stage>, caches: seq<seq<C>>, pos: Pos, x: E, i: nat): seq<C>
    requires |caches| == |stages| && i < |stages|
  {
    StageStep(m, stages[i], caches[i], pos, ChainThrough(m, stages, caches, pos, x, i)).0
  }

  function ChainStep<C, E>(m: Model<C, E>, stages: seq<Stage>, caches: seq<seq<C>>, pos: Pos, x: E): (seq<seq<C>>, E)
    requires |caches| == |stages|
  {
    (seq(|stages|, i requires 0 <= i < |stages| => StageAfter(m, stages, caches, pos, x, i)),
     ChainThrough(m, stages, caches, pos, x, |stages|))
  }

  /** A stateful chain fed a list of inputs: its caches afterwards, stage by stage, and its outputs. */
  function ChainRun<C, E>(m: Model<C, E>, stages: seq<Stage>, inputs: seq<(Pos, E)>): (r: (seq<seq<C>>, seq<E>))
    ensures |r.0| == |stages| && |r.1| == |inputs|
  {
    if inputs == [] then (FreshCaches(m, stages), [])
    else
      var (caches, outs) := ChainRun(m, stages, inputs[..|inputs| - 1]);
      var (pos, x) := inputs[|inputs| - 1];
      var (caches', y) := ChainStep(m, stages, caches, pos, x);
      (caches', outs + [y])
  }

  lemma ChainRunSnoc<C, E>(m: Model<C, E>, stages: seq<Stage>, inputs: seq<(Pos, E)>, pos: Pos, x: E)
    ensures var (caches, outs) := ChainRun(m, stages, inputs);
            var (caches', y) := ChainStep(m, stages, caches, pos, x);
            ChainRun(m, stages, inputs + [(pos, x)]) == (caches', outs + [y])
  {
    assert (inputs + [(pos, x)])[..|inputs|] == inputs;
  }

  // ---------- chains that cover a model ----------

  /** The layer reached after the first `k` stages. */
  function Reach(stages: seq<Stage>, k: nat): nat
    requires k <= |stages|
  {
    if k == 0 then 0 else if stages[k - 1].local.Some? then stages[k - 1].loaded.hi else Reach(stages, k - 1)
  }

  predicate LeadsOn(stages: seq<Stage>, i: nat)
    requires i < |stages|
  {
    stages[i].local.Some? ==>
      && stages[i].loaded.Contains(Reach(stages, i))
      && stages[i].local == Some(Range(Reach(stages, i), stages[i].loaded.hi))
  }

  /** The pinned pieces lead from layer 0 to layer `to`, each running to the end of what is loaded. */
  predicate StagesLead(stages: seq<Stage>, to: nat) {
    Reach(stages, |stages|) == to && forall i :: 0 <= i < |stages| ==> LeadsOn(stages, i)
  }

  /** Every working stage is entered at its first loaded layer. */
  predicate Aligned(stages: seq<Stage>) {
    forall i :: 0 <= i < |stages| && stages[i].local.Some? ==> stages[i].local.value.lo == stages[i].loaded.lo
  }

  /** The caches of a chain are of the sizes they were loaded with. */
  predicate Sized<C>(stages: seq<Stage>, caches: seq<seq<C>>) {
    && |caches| == |stages|
    && forall i :: 0 <= i < |stages| ==> |caches[i]| == StageSize(stages[i])
  }

  function StageSize(s: Stage): nat {
    if s.local.Some? && s.loaded.lo < s.loaded.hi then s.loaded.hi - s.loaded.lo else 0
  }

  lemma {:induction false} ChainRunSized<C, E>(m: Model<C, E>, stages: seq<Stage>, inputs: seq<(Pos, E)>)
    ensures Sized(stages, ChainRun(m, stages, inputs).0)
  {
    if inputs != [] {
      ChainRunSized(m, stages, inputs[..|inputs| - 1]);
    }
  }

  // ---------- aligned chains are whole models ----------

  /** An aligned chain's first `k` stages, put end to end, are the first layers of the whole model. */
  lemma {:induction false} AlignedPrefix<C, E>(m: Model<C, E>, stages: seq<Stage>, to: nat, caches: seq<seq<C>>,
                                               pos: Pos, x: E, k: nat)
    requires StagesLead(stages, to) && Aligned(stages) && Sized(stages, caches) && k <= |stages|
    ensures |Concat(caches[..k])| == Reach(stages, k)
    ensures RunLayers(m, 0, Concat(caches[..k]), pos, x)
            == (Concat(ChainStep(m, stages, caches, pos, x).0[..k]), ChainThrough(m, stages, caches, pos, x, k))
  {
    hide RunLayers;
    var after := ChainStep(m, stages, caches, pos, x).0;
    if k == 0 {
      NoLayers(m, pos, x);
    } else {
      AlignedPrefix(m, stages, to, caches, pos, x, k - 1);
      LastOfPrefix(caches, k);
      LastOfPrefix(after, k);
      assert LeadsOn(stages, k - 1);
      var y := ChainThrough(m, stages, caches, pos, x, k - 1);
      if stages[k - 1].local.Some? {
        RunSplit(m, 0, Concat(caches[..k - 1]), caches[k - 1], pos, x);
        assert stages[k - 1].loaded.lo == Reach(stages, k - 1);
      } else {
        assert caches[k - 1] == [] && after[k - 1] == [];
        assert Concat(caches[..k - 1]) + [] == Concat(caches[..k - 1]);
        assert Concat(after[..k - 1]) + [] == Concat(after[..k - 1]);
      }
    }
  }

  lemma NoLayers<C, E>(m: Model<C, E>, pos: Pos, x: E)
    ensures RunLayers(m, 0, [], pos, x) == ([], x)
  {
  }

  lemma LastOfPrefix<C>(parts: seq<seq<C>>, k: nat)
    requires 0 < k <= |parts|
    ensures Concat(parts[..k]) == Concat(parts[..k - 1]) + parts[k - 1]
  {
    ConcatSplit(parts[..k - 1], [parts[k - 1]]);
    assert parts[..k] == parts[..k - 1] + [parts[k - 1]];
    assert [parts[k - 1]][1..] == [];
    assert parts[k - 1] + [] == parts[k - 1];
  }

  lemma {:induction false} FreshPrefix<C, E>(m: Model<C, E>, stages: seq<Stage>, to: nat, k: nat)
    requires StagesLead(stages, to) && Aligned(stages) && k <= |stages|
    ensures Concat(FreshCaches(m, stages)[..k]) == seq(Reach(stages, k), _ => m.init)
  {
    if k > 0 {
      FreshPrefix(m, stages, to, k - 1);
      LastOfPrefix(FreshCaches(m, stages), k);
      assert LeadsOn(stages, k - 1);
    }
  }

  /** Whatever the model and the inputs, an aligned chain holds the whole model's caches and gives its outputs. */
  lemma {:induction false} AlignmentSuffices<C, E>(m: Model<C, E>, stages: seq<Stage>, inputs: seq<(Pos, E)>)
    requires StagesLead(stages, m.layers) && Aligned(stages)
    ensures Concat(ChainRun(m, stages, inputs).0) == WholeRun(m, inputs).0
    ensures ChainRun(m, stages, inputs).1 == WholeRun(m, inputs).1
  {
    hide StagesLead, Aligned, ChainStep;
    if inputs == [] {
      FreshPrefix(m, stages, m.layers, |stages|);
      LeadsTo(stages, m.layers);
      assert FreshCaches(m, stages)[..|stages|] == FreshCaches(m, stages);
    } else {
      var init := inputs[..|inputs| - 1];
      var (pos, x) := inputs[|inputs| - 1];
      AlignmentSuffices(m, stages, init);
      ChainRunSized(m, stages, init);
      var caches := ChainRun(m, stages, init).0;
      WholeStep(m, stages, caches, pos, x);
    }
  }

  lemma LeadsTo(stages: seq<Stage>, to: nat)
    requires StagesLead(stages, to)
    ensures Reach(stages, |stages|) == to
  {
  }

  lemma WholeStep<C, E>(m: Model<C, E>, stages: seq<Stage>, caches: seq<seq<C>>, pos: Pos, x: E)
    requires StagesLead(stages, m.layers) && Aligned(stages) && Sized(stages, caches)
    ensures var (after, y) := ChainStep(m, stages, caches, pos, x);
            RunLayers(m, 0, Concat(caches), pos, x) == (Concat(after), y)
  {
    AlignedPrefix(m, stages, m.layers, caches, pos, x, |stages|);
    var after := ChainStep(m, stages, caches, pos, x).0;
    assert caches[..|stages|] == caches && after[..|stages|] == after;
  }

  // ---------- chains that are not ----------

  /** The model whose layers count themselves. */
  function Counting(layers: nat): Model<(), int> {
    Model(layers, (), (l: nat, pos: Pos, c: (), x: int) => (c, x + 1))
  }

  lemma {:induction false} CountingCounts(layers: nat, lo: nat, caches: seq<()>, pos: Pos, x: int)
    ensures RunLayers(Counting(layers), lo, caches, pos, x).1 == x + |caches|
    decreases |caches|
  {
    if caches != [] {
      CountingCounts(layers, lo + 1, caches[1..], pos, x + 1);
    }
  }

  /** A chain runs at least the layers it covers, and no more exactly when all of it so far is aligned. */
  lemma {:induction false} ChainCounts(layers: nat, stages: seq<Stage>, to: nat, caches: seq<seq<()>>, pos: Pos,
                                       x: int, k: nat)
    requires StagesLead(stages, to) && Sized(stages, caches) && k <= |stages|
    ensures ChainThrough(Counting(layers), stages, caches, pos, x, k) >= x + Reach(stages, k)
    ensures ChainThrough(Counting(layers), stages, caches, pos, x, k) == x + Reach(stages, k) <==> Aligned(stages[..k])
  {
    if k > 0 {
      ChainCounts(layers, stages, to, caches, pos, x, k - 1);
      assert LeadsOn(stages, k - 1);
      AlignedSnoc(stages, k);
      hide Aligned;
      var y := ChainThrough(Counting(layers), stages, caches, pos, x, k - 1);
      CountingCounts(layers, stages[k - 1].loaded.lo, caches[k - 1], pos, y);
    }
  }

  lemma AlignedSnoc(stages: seq<Stage>, k: nat)
    requires 0 < k <= |stages|
    ensures var s := stages[k - 1];
            Aligned(stages[..k]) <==> Aligned(stages[..k - 1]) && (s.local.Some? ==> s.local.value.lo == s.loaded.lo)
  {
    assert stages[..k] == stages[..k - 1] + [stages[k - 1]];
  }

  /** Fed anything at all, a chain that computes the whole counting model is aligned: so alignment is necessary too. */
  lemma AlignmentIff(stages: seq<Stage>, layers: nat, inputs: seq<(Pos, int)>)
    requires StagesLead(stages, layers) && inputs != []
    ensures ChainRun(Counting(layers), stages, inputs).1 == WholeRun(Counting(layers), inputs).1 <==> Aligned(stages)
  {
    if Aligned(stages) {
      AlignmentSuffices(Counting(layers), stages, inputs);
    }
    var m, init := Counting(layers), inputs[..|inputs| - 1];
    var (pos, x) := inputs[|inputs| - 1];
    ChainRunSized(m, stages, init);
    ChainCounts(layers, stages, layers, ChainRun(m, stages, init).0, pos, x, |stages|);
    assert stages[..|stages|] == stages;
    CountingCounts(layers, 0, WholeRun(m, init).0, pos, x);
    var a, b := ChainRun(m, stages, inputs).1, WholeRun(m, inputs).1;
    assert a[|inputs| - 1] == ChainThrough(m, stages, ChainRun(m, stages, init).0, pos, x, |stages|);
    assert b[|inputs| - 1] == x + layers;
  }
}
