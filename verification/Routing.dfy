/** A network whose tables agree with each other: following the routes is sound and optimal. */
module Routing {
  import opened Options
  import opened RouteTables

  /** Who holds which layers, and who hears whom at which round-trip cost. */
  datatype Net = Net(layers: nat, local: map<Node, Range>, rtt: map<(Node, Node), nat>)
  {
    predicate Valid() {
      && (forall u :: u in local ==> local[u].hi <= layers)
      && (forall e :: e in rtt ==> e.0 in local && e.1 in local && rtt[e] > 0)
    }
  }

  type Tables = map<Node, Table>

  predicate Fitting(net: Net, ts: Tables) {
    && ts.Keys == net.local.Keys
    && forall u :: u in ts ==> ts[u].local == net.local[u] && |ts[u].remote| == net.layers && RouteTables.Valid(ts[u])
  }

  /** The cost node `t` advertises for finishing from `layer`. */
  function Cost(t: Table, layer: nat): Option<nat>
    requires layer < |t.remote| && t.local.hi <= |t.remote|
  {
    match SelectNext(t, layer)
    case None => None
    case Some(path) => Some(path.Cost())
  }

  /** `remotes` are exactly the costs of the neighbours of `u` for `layer`, plus the round-trip cost. */
  ghost predicate HoldsAdverts(net: Net, ts: Tables, u: Node, layer: nat, remotes: map<Node, Info>)
    requires net.Valid() && Fitting(net, ts) && layer < net.layers
  {
    && (forall v :: v in remotes <==> (u, v) in net.rtt && Cost(ts[v], layer).Some?)
    && (forall v :: v in remotes ==> remotes[v].cost == Cost(ts[v], layer).value + net.rtt[(u, v)])
  }

  /** Every table holds exactly its neighbours' advertised costs plus the round-trip cost. */
  ghost predicate Agree(net: Net, ts: Tables)
    requires net.Valid() && Fitting(net, ts)
  {
    forall u, l :: u in ts && 0 <= l < net.layers ==> HoldsAdverts(net, ts, u, l, ts[u].remote[l].remotes)
  }

  /** The layer a node passes on: it works to the end of its own range when it can work at all. */
  function After(r: Range, layer: nat): nat {
    if r.Contains(layer) then r.hi else layer
  }

  predicate Finishes(net: Net, u: Node, layer: nat)
    requires u in net.local
  {
    net.local[u].Contains(layer) && net.local[u].hi == net.layers
  }

  /** The cost of visiting `hops` after `u`, starting from `layer`; None if that is no greedy walk to the end. */
  function WalkCost(net: Net, u: Node, layer: nat, hops: seq<Node>): Option<nat>
    requires net.Valid() && u in net.local
    decreases |hops|
  {
    if Finishes(net, u, layer) then (if hops == [] then Some(0) else None)
    else if hops == [] || (u, hops[0]) !in net.rtt then None
    else
      match WalkCost(net, hops[0], After(net.local[u], layer), hops[1..])
      case None => None
      case Some(rest) => Some(net.rtt[(u, hops[0])] + rest)
  }

  /** What a table says about one layer: finish here, no route, or go on to a cheapest neighbour. */
  lemma CostCases(net: Net, ts: Tables, u: Node, layer: nat)
    requires net.Valid() && Fitting(net, ts) && u in ts && layer < net.layers
    ensures Finishes(net, u, layer) ==> Cost(ts[u], layer) == Some(0)
    ensures !Finishes(net, u, layer) ==>
              var next := After(net.local[u], layer);
              && next < net.layers && var p := ts[u].remote[next];
              && (Cost(ts[u], layer).None? <==> p.remotes == map[])
              && (p.next.Some? ==> Cost(ts[u], layer) == Some(p.next.value.1.cost))
  {
    assert IsBest(ts[u].remote[layer]);
    if After(net.local[u], layer) < net.layers {
      assert IsBest(ts[u].remote[After(net.local[u], layer)]);
    }
  }

  // ---------- optimality ----------

  /** No greedy walk is cheaper than what the table says. */
  lemma {:induction false} WalkBoundsCost(net: Net, ts: Tables, u: Node, layer: nat, hops: seq<Node>)
    requires net.Valid() && Fitting(net, ts) && Agree(net, ts) && u in ts && layer < net.layers
    requires WalkCost(net, u, layer, hops).Some?
    ensures Cost(ts[u], layer).Some? && Cost(ts[u], layer).value <= WalkCost(net, u, layer, hops).value
    decreases |hops|
  {
    CostCases(net, ts, u, layer);
    if !Finishes(net, u, layer) {
      var next, v := After(net.local[u], layer), hops[0];
      WalkBoundsCost(net, ts, v, next, hops[1..]);
      assert v in ts[u].remote[next].remotes;
      assert IsBest(ts[u].remote[next]);
    }
  }

  /** The neighbours visited from `u` by always taking the next hop of the table; ends because the cost falls. */
  ghost function Follow(net: Net, ts: Tables, u: Node, layer: nat): (hops: seq<Node>)
    requires net.Valid() && Fitting(net, ts) && Agree(net, ts) && u in ts && layer < net.layers
    requires SelectNext(ts[u], layer).Some?
    decreases Cost(ts[u], layer).value
  {
    var path := SelectNext(ts[u], layer).value;
    if path.remote.None? then []
    else
      HopLowersCost(net, ts, u, layer);
      [path.remote.value.dest] + Follow(net, ts, path.remote.value.dest, path.remote.value.layers.lo)
  }

  /** Following the tables is a greedy walk of exactly the advertised cost. */
  lemma {:induction false} RouteIsWalk(net: Net, ts: Tables, u: Node, layer: nat)
    requires net.Valid() && Fitting(net, ts) && Agree(net, ts) && u in ts && layer < net.layers
    requires SelectNext(ts[u], layer).Some?
    ensures WalkCost(net, u, layer, Follow(net, ts, u, layer)) == Cost(ts[u], layer)
    decreases Cost(ts[u], layer).value
  {
    hide Agree, RouteTables.Valid, IsBest;
    CostCases(net, ts, u, layer);
    var path := SelectNext(ts[u], layer).value;
    if path.remote.Some? {
      var hop := path.remote.value;
      HopLowersCost(net, ts, u, layer);
      assert hop.layers.lo == After(net.local[u], layer);
      RouteIsWalk(net, ts, hop.dest, hop.layers.lo);
      assert Follow(net, ts, u, layer)[1..] == Follow(net, ts, hop.dest, hop.layers.lo);
    }
  }

  ghost predicate IsMinimum(net: Net, u: Node, layer: nat, best: Option<nat>)
    requires net.Valid() && u in net.local
  {
    && (best.None? ==> forall hops :: WalkCost(net, u, layer, hops).None?)
    && (best.Some? ==>
        && (exists hops :: WalkCost(net, u, layer, hops) == best)
        && (forall hops :: WalkCost(net, u, layer, hops).Some? ==> best.value <= WalkCost(net, u, layer, hops).value))
  }

  /** At agreement the table cost is the minimum over all greedy walks, and there is none without a walk. */
  lemma RouteIsOptimal(net: Net, ts: Tables, u: Node, layer: nat)
    requires net.Valid() && Fitting(net, ts) && Agree(net, ts) && u in ts && layer < net.layers
    ensures IsMinimum(net, u, layer, Cost(ts[u], layer))
  {
    if Cost(ts[u], layer).Some? {
      RouteIsWalk(net, ts, u, layer);
    }
    forall hops | WalkCost(net, u, layer, hops).Some?
      ensures Cost(ts[u], layer).Some? && Cost(ts[u], layer).value <= WalkCost(net, u, layer, hops).value
    {
      WalkBoundsCost(net, ts, u, layer, hops);
    }
  }

  /** A node is ready exactly when some greedy walk leads from layer 0 to the end of the model. */
  lemma ReadyIff(net: Net, ts: Tables, u: Node)
    requires net.Valid() && Fitting(net, ts) && Agree(net, ts) && u in ts && net.layers > 0
    ensures Ready(ts[u]) <==> exists hops :: WalkCost(net, u, 0, hops).Some?
  {
    hide Agree, RouteTables.Valid, SelectNext;
    RouteIsOptimal(net, ts, u, 0);
    if Ready(ts[u]) {
      RouteIsWalk(net, ts, u, 0);
      assert WalkCost(net, u, 0, Follow(net, ts, u, 0)).Some?;
    }
  }

  // ---------- soundness ----------

  /** Non-empty pieces that follow each other from `from` to `to`. */
  predicate Partition(pieces: seq<Range>, from: nat, to: nat) {
    if pieces == [] then from == to
    else pieces[0].lo == from < pieces[0].hi && Partition(pieces[1..], pieces[0].hi, to)
  }

  /** The local pieces done along the route from `u`; its recursion ends because the cost falls at every hop. */
  ghost function Pieces(net: Net, ts: Tables, u: Node, layer: nat): (pieces: seq<Range>)
    requires net.Valid() && Fitting(net, ts) && Agree(net, ts) && u in ts && layer < net.layers
    requires SelectNext(ts[u], layer).Some?
    ensures Partition(pieces, layer, net.layers)
    decreases Cost(ts[u], layer).value
  {
    CostCases(net, ts, u, layer);
    var path := SelectNext(ts[u], layer).value;
    var here := if path.local.Some? then [path.local.value] else [];
    if path.remote.None? then here
    else
      var next := path.remote.value.layers.lo;
      assert next == After(net.local[u], layer);
      assert IsBest(ts[u].remote[next]);
      assert path.remote.value.dest in ts[u].remote[next].remotes;
      var rest := Pieces(net, ts, path.remote.value.dest, next);
      assert (here + rest)[|here|..] == rest;
      here + rest
  }

  /** Each hop of a route leads to a neighbour that has a route of strictly lower cost for the rest. */
  lemma HopLowersCost(net: Net, ts: Tables, u: Node, layer: nat)
    requires net.Valid() && Fitting(net, ts) && Agree(net, ts) && u in ts && layer < net.layers
    requires SelectNext(ts[u], layer).Some? && SelectNext(ts[u], layer).value.remote.Some?
    ensures var hop := SelectNext(ts[u], layer).value.remote.value;
            && (u, hop.dest) in net.rtt && hop.layers.lo < net.layers
            && Cost(ts[hop.dest], hop.layers.lo).Some?
            && Cost(ts[hop.dest], hop.layers.lo).value + net.rtt[(u, hop.dest)] == Cost(ts[u], layer).value
  {
    CostCases(net, ts, u, layer);
    var next := After(net.local[u], layer);
    assert IsBest(ts[u].remote[next]);
    assert ts[u].remote[next].next.value.0 in ts[u].remote[next].remotes;
  }
}
