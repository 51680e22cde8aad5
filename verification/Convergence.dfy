/** Rounds of route syncs settle: after as many as there are nodes times layers, every cost is the true minimum. */
module Convergence {
  import opened Options
  import opened Sequences
  import opened RouteTables
  import opened Routing
  import opened BellmanFord

  type Place = (Node, nat)

  /** The nodes of a walk, each with the layer it is asked for. */
  function Visited(net: Net, u: Node, layer: nat, hops: seq<Node>): (places: seq<Place>)
    requires net.Valid() && u in net.local && WalkCost(net, u, layer, hops).Some?
    ensures |places| == |hops| + 1 && places[0] == (u, layer)
    decreases |hops|
  {
    [(u, layer)] + if hops == [] then [] else Visited(net, hops[0], After(net.local[u], layer), hops[1..])
  }

  lemma {:induction false} VisitedInNet(net: Net, u: Node, layer: nat, hops: seq<Node>, i: nat)
    requires net.Valid() && u in net.local && layer < net.layers && WalkCost(net, u, layer, hops).Some? && i <= |hops|
    ensures var place := Visited(net, u, layer, hops)[i]; place.0 in net.local && place.1 < net.layers
    decreases |hops|
  {
    if i > 0 {
      VisitedInNet(net, hops[0], After(net.local[u], layer), hops[1..], i - 1);
    }
  }

  lemma FirstHop(net: Net, u: Node, layer: nat, hops: seq<Node>)
    requires net.Valid() && u in net.local && WalkCost(net, u, layer, hops).Some? && hops != []
    ensures hops[0] in net.local && WalkCost(net, hops[0], After(net.local[u], layer), hops[1..]).Some?
    ensures WalkCost(net, hops[0], After(net.local[u], layer), hops[1..]).value <= WalkCost(net, u, layer, hops).value
  {
  }

  /** The rest of a walk is a walk, and no dearer. */
  lemma {:induction false} RestIsWalk(net: Net, u: Node, layer: nat, hops: seq<Node>, i: nat)
    requires net.Valid() && u in net.local && WalkCost(net, u, layer, hops).Some? && i <= |hops|
    ensures var (v, l) := Visited(net, u, layer, hops)[i];
            && v in net.local && WalkCost(net, v, l, hops[i..]).Some?
            && WalkCost(net, v, l, hops[i..]).value <= WalkCost(net, u, layer, hops).value
            && Visited(net, v, l, hops[i..]) == Visited(net, u, layer, hops)[i..]
    decreases |hops|
  {
    hide WalkCost, After;
    if i == 0 {
      assert hops[0..] == hops;
    } else {
      FirstHop(net, u, layer, hops);
      RestIsWalk(net, hops[0], After(net.local[u], layer), hops[1..], i - 1);
      assert hops[1..][i - 1..] == hops[i..];
    }
  }

  /** Cutting out its loops makes a walk no dearer. */
  lemma {:induction false} WithoutLoops(net: Net, u: Node, layer: nat, hops: seq<Node>) returns (short: seq<Node>)
    requires net.Valid() && u in net.local && WalkCost(net, u, layer, hops).Some?
    ensures WalkCost(net, u, layer, short).Some?
    ensures WalkCost(net, u, layer, short).value <= WalkCost(net, u, layer, hops).value
    ensures Distinct(Visited(net, u, layer, short))
    decreases |hops|
  {
    if hops == [] {
      short := [];
    } else {
      var v, next := hops[0], After(net.local[u], layer);
      var rest := WithoutLoops(net, v, next, hops[1..]);
      var places := Visited(net, v, next, rest);
      if (u, layer) in places {
        var i :| 0 <= i < |places| && places[i] == (u, layer);
        RestIsWalk(net, v, next, rest, i);
        short := rest[i..];
      } else {
        short := [v] + rest;
        assert short[1..] == rest;
        DistinctCons((u, layer), places);
      }
    }
  }

  lemma DistinctCons(place: Place, places: seq<Place>)
    requires Distinct(places) && place !in places
    ensures Distinct([place] + places)
  {
  }

  // ---------- how many places there are ----------

  function Row(nodes: set<Node>, layer: nat): set<Place> {
    set u | u in nodes :: (u, layer)
  }

  lemma {:induction false} RowSize(nodes: set<Node>, layer: nat)
    ensures |Row(nodes, layer)| <= |nodes|
    decreases |nodes|
  {
    if nodes == {} {
      assert Row(nodes, layer) == {};
    } else {
      var u :| u in nodes;
      RowSize(nodes - {u}, layer);
      assert Row(nodes, layer) == Row(nodes - {u}, layer) + {(u, layer)};
    }
  }

  function Grid(nodes: set<Node>, layers: nat): (places: set<Place>)
    ensures forall u, l: nat :: (u, l) in places <==> u in nodes && l < layers
  {
    if layers == 0 then {} else Grid(nodes, layers - 1) + Row(nodes, layers - 1)
  }

  lemma UnionSize(s: set<Place>, t: set<Place>)
    ensures |s + t| <= |s| + |t|
  {
  }

  lemma OneMore(n: nat, m: nat)
    requires m > 0
    ensures n * m == n * (m - 1) + n
  {
  }

  lemma {:induction false} GridSize(nodes: set<Node>, layers: nat)
    ensures |Grid(nodes, layers)| <= |nodes| * layers
  {
    hide Row;
    if layers > 0 {
      GridSize(nodes, layers - 1);
      RowSize(nodes, layers - 1);
      UnionSize(Grid(nodes, layers - 1), Row(nodes, layers - 1));
      OneMore(|nodes|, layers);
    }
  }

  /** A cheapest walk needs fewer hops than there are places. */
  lemma ShortWalk(net: Net, u: Node, layer: nat, hops: seq<Node>) returns (short: seq<Node>)
    requires net.Valid() && u in net.local && layer < net.layers && WalkCost(net, u, layer, hops).Some?
    ensures |short| < |net.local| * net.layers && WalkCost(net, u, layer, short).Some?
    ensures WalkCost(net, u, layer, short).value <= WalkCost(net, u, layer, hops).value
  {
    short := WithoutLoops(net, u, layer, hops);
    var places, grid := Visited(net, u, layer, short), Grid(net.local.Keys, net.layers);
    forall place | place in places
      ensures place in grid
    {
      var i :| 0 <= i < |places| && places[i] == place;
      VisitedInNet(net, u, layer, short, i);
    }
    FewElements(places);
    SubsetSmaller(Elements(places), grid);
    GridSize(net.local.Keys, net.layers);
    assert |net.local.Keys| == |net.local|;
  }

  // ---------- convergence ----------

  /** From fresh tables, after nodes times layers rounds every advertised cost is the minimum over all greedy walks. */
  lemma RoundsConverge(net: Net, rounds: seq<Tables>, now: seq<Node -> nat>, k: nat, u: Node, layer: nat)
    requires net.Valid() && IsHistory(net, rounds, now) && u in net.local && layer < net.layers
    requires |net.local| * net.layers <= k < |rounds|
    ensures Fitting(net, rounds[k]) && IsMinimum(net, u, layer, Cost(rounds[k][u], layer))
  {
    hide IsHistory, Cost, WalkCost;
    RoundsAreBellmanFord(net, rounds, now, k, u, layer);
    forall hops | WalkCost(net, u, layer, hops).Some?
      ensures Cost(rounds[k][u], layer).Some? && Cost(rounds[k][u], layer).value <= WalkCost(net, u, layer, hops).value
    {
      var short := ShortWalk(net, u, layer, hops);
      assert |short| <= k;
    }
  }

  lemma MinimumIsOne(net: Net, u: Node, layer: nat, a: Option<nat>, b: Option<nat>)
    requires net.Valid() && u in net.local && IsMinimum(net, u, layer, a) && IsMinimum(net, u, layer, b)
    ensures a == b
  {
    hide WalkCost;
  }

  lemma CostSettles(net: Net, rounds: seq<Tables>, now: seq<Node -> nat>, k: nat, u: Node, layer: nat)
    requires net.Valid() && IsHistory(net, rounds, now) && u in net.local && layer < net.layers
    requires |net.local| * net.layers < k < |rounds|
    ensures Fitting(net, rounds[k - 1]) && Fitting(net, rounds[k])
    ensures Cost(rounds[k][u], layer) == Cost(rounds[k - 1][u], layer)
  {
    hide IsHistory, Cost, IsMinimum, RouteTables.Valid;
    RoundsConverge(net, rounds, now, k - 1, u, layer);
    RoundsConverge(net, rounds, now, k, u, layer);
    MinimumIsOne(net, u, layer, Cost(rounds[k - 1][u], layer), Cost(rounds[k][u], layer));
  }

  lemma HistoryStep(net: Net, rounds: seq<Tables>, now: seq<Node -> nat>, k: nat)
    requires net.Valid() && IsHistory(net, rounds, now) && 0 < k < |rounds|
    ensures |now| == |rounds| - 1
    ensures Fitting(net, rounds[k - 1]) && Round(net, rounds[k - 1], now[k - 1], rounds[k])
  {
    hide Round;
  }

  /** One round later the tables agree with each other, so everything proved at agreement holds of them. */
  lemma RoundsReachAgreement(net: Net, rounds: seq<Tables>, now: seq<Node -> nat>, k: nat)
    requires net.Valid() && net.layers > 0 && IsHistory(net, rounds, now)
    requires |net.local| * net.layers < k < |rounds|
    ensures Fitting(net, rounds[k]) && Agree(net, rounds[k])
  {
    hide IsHistory, Round, Cost, IsMinimum, Agree, RouteTables.Valid, OnlyNeighbours;
    HistoryFits(net, rounds, now, k - 1);
    HistoryFits(net, rounds, now, k);
    HistoryStep(net, rounds, now, k);
    forall u, l | u in rounds[k - 1] && 0 <= l < net.layers
      ensures Cost(rounds[k][u], l) == Cost(rounds[k - 1][u], l)
    {
      CostSettles(net, rounds, now, k, u, l);
    }
    StableRoundAgrees(net, rounds[k - 1], now[k - 1], rounds[k]);
  }
}
