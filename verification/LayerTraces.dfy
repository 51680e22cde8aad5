/** What running layers means, said with single applications of layers only. */
module LayerTraces {
  import opened Layers

  /** `xs` are the embeddings before, between and after layers `lo`, `lo + 1`, ..., one for each cache. */
  ghost predicate IsTrace<C, E>(m: Model<C, E>, lo: nat, caches: seq<C>, pos: Pos, xs: seq<E>, after: seq<C>) {
    && |xs| == |caches| + 1 && |after| == |caches|
    && forall i :: 0 <= i < |caches| ==> (after[i], xs[i + 1]) == m.apply(lo + i, pos, caches[i], xs[i])
  }

  /** Layers `lo`, `lo + 1`, ... take `x` to `y` and the caches to `after`. */
  ghost predicate Takes<C(!new), E(!new)>(m: Model<C, E>, lo: nat, caches: seq<C>, pos: Pos, x: E, after: seq<C>,
                          y: E) {
    exists xs: seq<E> :: IsTrace(m, lo, caches, pos, xs, after) && xs[0] == x && xs[|caches|] == y
  }

  lemma {:induction false} RunIsTrace<C(!new), E(!new)>(m: Model<C, E>, lo: nat, caches: seq<C>, pos: Pos, x: E)
    returns (xs: seq<E>)
    ensures var (after, y) := RunLayers(m, lo, caches, pos, x);
            IsTrace(m, lo, caches, pos, xs, after) && xs[0] == x && xs[|caches|] == y
    decreases |caches|
  {
    if caches == [] {
      xs := [x];
    } else {
      var y := m.apply(lo, pos, caches[0], x).1;
      var rest := RunIsTrace(m, lo + 1, caches[1..], pos, y);
      xs := [x] + rest;
      var after := RunLayers(m, lo, caches, pos, x).0;
      forall i | 0 <= i < |caches|
        ensures (after[i], xs[i + 1]) == m.apply(lo + i, pos, caches[i], xs[i])
      {
        if i > 0 {
          assert caches[1..][i - 1] == caches[i];
        }
      }
    }
  }

  lemma RunTakes<C(!new), E(!new)>(m: Model<C, E>, lo: nat, caches: seq<C>, pos: Pos, x: E)
    ensures var (after, y) := RunLayers(m, lo, caches, pos, x); Takes(m, lo, caches, pos, x, after, y)
  {
    var xs := RunIsTrace(m, lo, caches, pos, x);
  }

  // ---------- a whole model ----------

  /** One input after another: the caches before and after each, and the embeddings between the layers. */
  ghost predicate IsHistory<C(!new), E(!new)>(m: Model<C, E>, inputs: seq<(Pos, E)>, caches: seq<seq<C>>,
                              outputs: seq<E>) {
    && |caches| == |inputs| + 1 && |outputs| == |inputs|
    && |caches[0]| == m.layers && (forall l :: 0 <= l < m.layers ==> caches[0][l] == m.init)
    && forall j :: 0 <= j < |inputs| ==>
         Takes(m, 0, caches[j], inputs[j].0, inputs[j].1, caches[j + 1], outputs[j])
  }

  /** The outputs are those of layers 0, 1, ..., each applied once to each input, from initial caches on. */
  ghost predicate IsModelRun<C(!new), E(!new)>(m: Model<C, E>, inputs: seq<(Pos, E)>, outputs: seq<E>) {
    exists caches: seq<seq<C>> :: IsHistory(m, inputs, caches, outputs)
  }

  lemma {:induction false} WholeRunHistory<C(!new), E(!new)>(m: Model<C, E>, inputs: seq<(Pos, E)>)
    returns (caches: seq<seq<C>>)
    ensures IsHistory(m, inputs, caches, WholeRun(m, inputs).1) && caches[|inputs|] == WholeRun(m, inputs).0
  {
    hide Takes, RunLayers;
    if inputs == [] {
      caches := [WholeRun(m, inputs).0];
    } else {
      var n := |inputs| - 1;
      var init := inputs[..n];
      var before := WholeRunHistory(m, init);
      RunTakes(m, 0, WholeRun(m, init).0, inputs[n].0, inputs[n].1);
      caches := before + [WholeRun(m, inputs).0];
      var outs := WholeRun(m, inputs).1;
      forall j | 0 <= j < |inputs|
        ensures Takes(m, 0, caches[j], inputs[j].0, inputs[j].1, caches[j + 1], outs[j])
      {
        if j < n {
          assert init[j] == inputs[j];
        }
      }
    }
  }

  lemma WholeRunIsModelRun<C(!new), E(!new)>(m: Model<C, E>, inputs: seq<(Pos, E)>)
    ensures IsModelRun(m, inputs, WholeRun(m, inputs).1)
  {
    var caches := WholeRunHistory(m, inputs);
  }

  // ---------- a chain of stages ----------

  /**
    A stage that works takes the embedding through all it has loaded, from its first layer on; another passes it on.
   */
  ghost predicate StageTakes<C(!new), E(!new)>(m: Model<C, E>, s: Stage, caches: seq<C>, pos: Pos, x: E, after: seq<C>,
                                               y: E) {
    if s.local.None? then after == caches && y == x else Takes(m, s.loaded.lo, caches, pos, x, after, y)
  }

  /** One input through the whole chain: `ys` are the embeddings before, between and after the stages. */
  ghost predicate ChainTakes<C(!new), E(!new)>(m: Model<C, E>, stages: seq<Stage>, caches: seq<seq<C>>, pos: Pos, x: E,
                                               ys: seq<E>, after: seq<seq<C>>, y: E) {
    && |caches| == |stages| == |after| && |ys| == |stages| + 1 && ys[0] == x && ys[|stages|] == y
    && forall i :: 0 <= i < |stages| ==> StageTakes(m, stages[i], caches[i], pos, ys[i], after[i], ys[i + 1])
  }

  ghost predicate ChainHistory<C(!new), E(!new)>(m: Model<C, E>, stages: seq<Stage>, inputs: seq<(Pos, E)>,
                                                 caches: seq<seq<seq<C>>>, ys: seq<seq<E>>, outputs: seq<E>) {
    && |caches| == |inputs| + 1 && |ys| == |inputs| == |outputs| && Sized(stages, caches[0])
    && (forall i, l :: 0 <= i < |stages| && 0 <= l < |caches[0][i]| ==> caches[0][i][l] == m.init)
    && (forall j :: 0 <= j < |inputs| ==>
          ChainTakes(m, stages, caches[j], inputs[j].0, inputs[j].1, ys[j], caches[j + 1], outputs[j]))
  }

  /** The outputs are those of the stages, each running all the layers it has loaded, from initial caches on. */
  ghost predicate IsChainRun<C(!new), E(!new)>(m: Model<C, E>, stages: seq<Stage>, inputs: seq<(Pos, E)>,
                                               outputs: seq<E>) {
    exists caches: seq<seq<seq<C>>>, ys: seq<seq<E>> :: ChainHistory(m, stages, inputs, caches, ys, outputs)
  }

  lemma StageStepTakes<C(!new), E(!new)>(m: Model<C, E>, s: Stage, caches: seq<C>, pos: Pos, x: E)
    ensures var (after, y) := StageStep(m, s, caches, pos, x); StageTakes(m, s, caches, pos, x, after, y)
  {
    hide RunLayers, Takes;
    RunTakes(m, s.loaded.lo, caches, pos, x);
  }

  lemma ChainStepTakes<C(!new), E(!new)>(m: Model<C, E>, stages: seq<Stage>, caches: seq<seq<C>>, pos: Pos, x: E)
    returns (ys: seq<E>)
    requires |caches| == |stages|
    ensures var (after, y) := ChainStep(m, stages, caches, pos, x);
            ChainTakes(m, stages, caches, pos, x, ys, after, y)
  {
    hide StageTakes, StageStep;
    ys := seq(|stages| + 1, k requires 0 <= k <= |stages| => ChainThrough(m, stages, caches, pos, x, k));
    var after := ChainStep(m, stages, caches, pos, x).0;
    forall i | 0 <= i < |stages|
      ensures StageTakes(m, stages[i], caches[i], pos, ys[i], after[i], ys[i + 1])
    {
      StageStepTakes(m, stages[i], caches[i], pos, ys[i]);
    }
  }

  lemma {:induction false} ChainRunHistory<C(!new), E(!new)>(m: Model<C, E>, stages: seq<Stage>, inputs: seq<(Pos, E)>)
    returns (caches: seq<seq<seq<C>>>, ys: seq<seq<E>>)
    ensures ChainHistory(m, stages, inputs, caches, ys, ChainRun(m, stages, inputs).1)
    ensures caches[|inputs|] == ChainRun(m, stages, inputs).0
  {
    hide ChainTakes, ChainStep;
    if inputs == [] {
      ChainRunSized(m, stages, inputs);
      caches, ys := [ChainRun(m, stages, inputs).0], [];
    } else {
      var n := |inputs| - 1;
      var init := inputs[..n];
      var before, zs := ChainRunHistory(m, stages, init);
      var last := ChainStepTakes(m, stages, ChainRun(m, stages, init).0, inputs[n].0, inputs[n].1);
      caches, ys := before + [ChainRun(m, stages, inputs).0], zs + [last];
      forall j | 0 <= j < |inputs|
        ensures ChainTakes(m, stages, caches[j], inputs[j].0, inputs[j].1, ys[j], caches[j + 1],
                           ChainRun(m, stages, inputs).1[j])
      {
        if j < n {
          assert init[j] == inputs[j] && ys[j] == zs[j];
        }
      }
    }
  }

  lemma ChainRunIsTraced<C(!new), E(!new)>(m: Model<C, E>, stages: seq<Stage>, inputs: seq<(Pos, E)>)
    ensures IsChainRun(m, stages, inputs, ChainRun(m, stages, inputs).1)
  {
    var caches, ys := ChainRunHistory(m, stages, inputs);
  }
}
