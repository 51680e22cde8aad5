/** Lossless synchronous rounds of route syncs compute shortest greedy walks, one more hop per round. */
module BellmanFord {
  import opened Options
  import opened RouteTables
  import opened Routing

  /** `t'` results from hearing the nodes of `order` one after the other, each with the table it had in `ts`. */
  ghost predicate HearsAll(net: Net, ts: Tables, u: Node, now: Node -> nat, order: seq<Node>, t: Table, t': Table)
    requires net.Valid() && Fitting(net, ts)
    requires forall i :: 0 <= i < |order| ==> (u, order[i]) in net.rtt
    decreases |order|
  {
    if order == [] then t' == t
    else
      var v := order[|order| - 1];
      exists mid: Table ::
        && HearsAll(net, ts, u, now, order[..|order| - 1], t, mid)
        && Synced(mid, v, net.rtt[(u, v)], CreateSync(ts[v], now(v)), t')
  }

  ghost predicate HearsNeighbours(net: Net, ts: Tables, u: Node, now: Node -> nat, order: seq<Node>, t': Table)
    requires net.Valid() && Fitting(net, ts) && u in ts
  {
    && (forall v :: v in order <==> (u, v) in net.rtt)
    && (forall i :: 0 <= i < |order| ==> (u, order[i]) in net.rtt)
    && HearsAll(net, ts, u, now, order, ts[u], t')
  }

  /** Every node hears each of its neighbours, in some order. */
  ghost predicate Round(net: Net, ts: Tables, now: Node -> nat, ts': Tables)
    requires net.Valid() && Fitting(net, ts)
  {
    && ts'.Keys == ts.Keys
    && forall u :: u in ts ==> exists order: seq<Node> :: HearsNeighbours(net, ts, u, now, order, ts'[u])
  }

  /** `remotes` holds exactly the costs advertised in `ts` by the neighbours in `heard`. */
  ghost predicate Holds(net: Net, ts: Tables, u: Node, layer: nat, heard: seq<Node>, remotes: map<Node, Info>,
                        before: map<Node, Info>)
    requires net.Valid() && Fitting(net, ts) && layer < net.layers
    requires forall i :: 0 <= i < |heard| ==> (u, heard[i]) in net.rtt
  {
    && (forall v :: v in heard ==> (v in remotes <==> Cost(ts[v], layer).Some?))
    && (forall v :: v in heard && v in remotes ==> remotes[v].cost == Cost(ts[v], layer).value + net.rtt[(u, v)])
    && (forall v :: v !in heard ==> (v in remotes <==> v in before))
  }

  lemma AdvertIsCost(t: Table, layer: nat, now: nat)
    requires layer < |t.remote| && t.local.hi <= |t.remote|
    ensures var info := SyncAt(CreateSync(t, now), layer);
            (info.Some? <==> Cost(t, layer).Some?) && (info.Some? ==> info.value.cost == Cost(t, layer).value)
  {
    hide SelectNext;
    assert SyncAt(CreateSync(t, now), layer) == Advert(t, layer, now);
  }

  lemma NoneHeard(net: Net, ts: Tables, u: Node, layer: nat, before: map<Node, Info>)
    requires net.Valid() && Fitting(net, ts) && layer < net.layers
    ensures Holds(net, ts, u, layer, [], before, before)
  {
  }

  lemma HeardOf(remotes: map<Node, Info>, v: Node, rtt: nat, info: Option<Info>, w: Node)
    ensures var after := Heard(remotes, v, rtt, info);
            && (w != v ==> (w in after <==> w in remotes) && (w in remotes ==> after[w] == remotes[w]))
            && (w == v ==> (w in after <==> info.Some?) && (info.Some? ==> after[w].cost == info.value.cost + rtt))
  {
  }

  lemma InInitOrLast(order: seq<Node>)
    requires order != []
    ensures forall w :: w in order <==> w in order[..|order| - 1] || w == order[|order| - 1]
  {
    assert order == order[..|order| - 1] + [order[|order| - 1]];
  }

  lemma OneMoreHeard(net: Net, ts: Tables, u: Node, layer: nat, order: seq<Node>, remotes: map<Node, Info>,
                     before: map<Node, Info>, info: Option<Info>)
    requires net.Valid() && Fitting(net, ts) && layer < net.layers && order != []
    requires forall i :: 0 <= i < |order| ==> (u, order[i]) in net.rtt
    requires Holds(net, ts, u, layer, order[..|order| - 1], remotes, before)
    requires var v := order[|order| - 1];
             && (info.Some? <==> Cost(ts[v], layer).Some?)
             && (info.Some? ==> info.value.cost == Cost(ts[v], layer).value)
    ensures var v := order[|order| - 1];
            Holds(net, ts, u, layer, order, Heard(remotes, v, net.rtt[(u, v)], info), before)
  {
    hide Cost, RouteTables.Valid, Heard;
    var init, v := order[..|order| - 1], order[|order| - 1];
    var after := Heard(remotes, v, net.rtt[(u, v)], info);
    InInitOrLast(order);
    forall w
      ensures w in order ==> (w in after <==> Cost(ts[w], layer).Some?)
      ensures w in order && w in after ==> after[w].cost == Cost(ts[w], layer).value + net.rtt[(u, w)]
      ensures w !in order ==> (w in after <==> w in before)
    {
      HeardOf(remotes, v, net.rtt[(u, v)], info, w);
    }
  }

  lemma {:induction false} HearingHolds(net: Net, ts: Tables, u: Node, now: Node -> nat, order: seq<Node>, t: Table,
                                        t': Table, layer: nat)
    requires net.Valid() && Fitting(net, ts) && u in ts && layer < net.layers
    requires forall i :: 0 <= i < |order| ==> (u, order[i]) in net.rtt
    requires t.local == net.local[u] && |t.remote| == net.layers && RouteTables.Valid(t)
    requires HearsAll(net, ts, u, now, order, t, t')
    ensures t'.local == net.local[u] && |t'.remote| == net.layers && RouteTables.Valid(t')
    ensures Holds(net, ts, u, layer, order, t'.remote[layer].remotes, t.remote[layer].remotes)
    decreases |order|
  {
    hide Holds, IsBest, Heard, SyncAt;
    if order != [] {
      var init, v := order[..|order| - 1], order[|order| - 1];
      var mid: Table :| HearsAll(net, ts, u, now, init, t, mid)
                        && Synced(mid, v, net.rtt[(u, v)], CreateSync(ts[v], now(v)), t');
      HearingHolds(net, ts, u, now, init, t, mid, layer);
      AdvertIsCost(ts[v], layer, now(v));
      OneMoreHeard(net, ts, u, layer, order, mid.remote[layer].remotes, t.remote[layer].remotes,
                   SyncAt(CreateSync(ts[v], now(v)), layer));
    } else {
      NoneHeard(net, ts, u, layer, t.remote[layer].remotes);
    }
  }

  /** The tables hold no one but neighbours. */
  ghost predicate OnlyNeighbours(net: Net, ts: Tables)
    requires Fitting(net, ts)
  {
    forall u, l, v :: u in ts && 0 <= l < net.layers && v in ts[u].remote[l].remotes ==> (u, v) in net.rtt
  }

  lemma HeardAt(net: Net, ts: Tables, u: Node, now: Node -> nat, order: seq<Node>, t': Table, layer: nat)
    requires net.Valid() && Fitting(net, ts) && OnlyNeighbours(net, ts) && u in ts && layer < net.layers
    requires HearsNeighbours(net, ts, u, now, order, t')
    ensures t'.local == net.local[u] && |t'.remote| == net.layers && RouteTables.Valid(t')
    ensures HoldsAdverts(net, ts, u, layer, t'.remote[layer].remotes)
  {
    hide HearsAll, SelectNext, IsBest;
    HearingHolds(net, ts, u, now, order, ts[u], t', layer);
  }

  lemma RoundAt(net: Net, ts: Tables, now: Node -> nat, ts': Tables, u: Node, layer: nat)
    requires net.Valid() && Fitting(net, ts) && OnlyNeighbours(net, ts) && Round(net, ts, now, ts')
    requires u in ts && layer < net.layers
    ensures ts'[u].local == net.local[u] && |ts'[u].remote| == net.layers && RouteTables.Valid(ts'[u])
    ensures HoldsAdverts(net, ts, u, layer, ts'[u].remote[layer].remotes)
  {
    hide HearsNeighbours, HoldsAdverts;
    var order: seq<Node> :| HearsNeighbours(net, ts, u, now, order, ts'[u]);
    HeardAt(net, ts, u, now, order, ts'[u], layer);
  }

  lemma RoundKeeps(net: Net, ts: Tables, now: Node -> nat, ts': Tables)
    requires net.Valid() && net.layers > 0 && Fitting(net, ts) && OnlyNeighbours(net, ts) && Round(net, ts, now, ts')
    ensures Fitting(net, ts') && OnlyNeighbours(net, ts')
  {
    hide Round;
    RoundKeys(net, ts, now, ts');
    forall u | u in ts
      ensures ts'[u].local == net.local[u] && |ts'[u].remote| == net.layers && RouteTables.Valid(ts'[u])
    {
      RoundAt(net, ts, now, ts', u, 0);
    }
    forall u, l, v | u in ts && 0 <= l < net.layers && v in ts'[u].remote[l].remotes
      ensures (u, v) in net.rtt
    {
      RoundAt(net, ts, now, ts', u, l);
    }
  }

  lemma RoundKeys(net: Net, ts: Tables, now: Node -> nat, ts': Tables)
    requires net.Valid() && Fitting(net, ts) && Round(net, ts, now, ts')
    ensures ts'.Keys == ts.Keys
  {
  }

  // ---------- runs of rounds ----------

  ghost predicate Fresh(net: Net, ts: Tables) {
    && ts.Keys == net.local.Keys
    && forall u :: u in ts ==> ts[u] == FreshTable(net.local[u], net.layers)
  }

  /** `rounds[k]` are the tables after `k` rounds. */
  ghost predicate IsHistory(net: Net, rounds: seq<Tables>, now: seq<Node -> nat>)
    requires net.Valid()
  {
    && |rounds| == |now| + 1 && Fresh(net, rounds[0])
    && forall k :: 0 <= k < |now| ==> Fitting(net, rounds[k]) && Round(net, rounds[k], now[k], rounds[k + 1])
  }

  lemma {:induction false} HistoryFits(net: Net, rounds: seq<Tables>, now: seq<Node -> nat>, k: nat)
    requires net.Valid() && net.layers > 0 && IsHistory(net, rounds, now) && k < |rounds|
    ensures Fitting(net, rounds[k]) && OnlyNeighbours(net, rounds[k])
  {
    hide Round;
    if k > 0 {
      HistoryFits(net, rounds, now, k - 1);
      RoundKeeps(net, rounds[k - 1], now[k - 1], rounds[k]);
    }
  }

  ghost predicate IsMinimumWithin(net: Net, u: Node, layer: nat, k: nat, best: Option<nat>)
    requires net.Valid() && u in net.local
  {
    && (best.None? ==> forall hops :: |hops| <= k ==> WalkCost(net, u, layer, hops).None?)
    && (best.Some? ==>
        && (exists hops :: |hops| <= k && WalkCost(net, u, layer, hops) == best)
        && (forall hops :: |hops| <= k && WalkCost(net, u, layer, hops).Some? ==>
              best.value <= WalkCost(net, u, layer, hops).value))
  }

  /** After a round no route through a neighbour is cheaper than the table says. */
  lemma RoundBound(net: Net, ts: Tables, now: Node -> nat, ts': Tables, u: Node, layer: nat, v: Node)
    requires net.Valid() && Fitting(net, ts) && OnlyNeighbours(net, ts) && Round(net, ts, now, ts') && Fitting(net, ts')
    requires u in net.local && layer < net.layers && !Finishes(net, u, layer) && (u, v) in net.rtt
    ensures After(net.local[u], layer) < net.layers
    ensures Cost(ts[v], After(net.local[u], layer)).Some? ==>
              && Cost(ts'[u], layer).Some?
              && Cost(ts'[u], layer).value <= net.rtt[(u, v)] + Cost(ts[v], After(net.local[u], layer)).value
  {
    hide Round, Cost, OnlyNeighbours;
    var next := After(net.local[u], layer);
    CostCases(net, ts', u, layer);
    RoundAt(net, ts, now, ts', u, next);
    assert IsBest(ts'[u].remote[next]);
  }

  /** No greedy walk of at most `k` hops is cheaper than the cost after `k` rounds. */
  lemma {:induction false} RoundsBound(net: Net, rounds: seq<Tables>, now: seq<Node -> nat>, k: nat, u: Node,
                                       layer: nat, hops: seq<Node>)
    requires net.Valid() && IsHistory(net, rounds, now) && k < |rounds| && u in net.local && layer < net.layers
    requires |hops| <= k && WalkCost(net, u, layer, hops).Some?
    ensures Fitting(net, rounds[k]) && Cost(rounds[k][u], layer).Some?
    ensures Cost(rounds[k][u], layer).value <= WalkCost(net, u, layer, hops).value
    decreases k
  {
    hide Round, Cost, RouteTables.Valid, OnlyNeighbours;
    HistoryFits(net, rounds, now, k);
    CostCases(net, rounds[k], u, layer);
    if !Finishes(net, u, layer) {
      var next, v := After(net.local[u], layer), hops[0];
      HistoryFits(net, rounds, now, k - 1);
      RoundsBound(net, rounds, now, k - 1, v, next, hops[1..]);
      RoundBound(net, rounds[k - 1], now[k - 1], rounds[k], u, layer, v);
    }
  }

  /** A stored entry was advertised in the round before. */
  lemma EntryWasAdvertised(net: Net, rounds: seq<Tables>, now: seq<Node -> nat>, k: nat, u: Node, layer: nat, v: Node)
    requires net.Valid() && IsHistory(net, rounds, now) && k < |rounds| && u in net.local && layer < net.layers
    requires Fitting(net, rounds[k]) && v in rounds[k][u].remote[layer].remotes
    ensures k > 0 && (u, v) in net.rtt && Fitting(net, rounds[k - 1]) && Cost(rounds[k - 1][v], layer).Some?
    ensures rounds[k][u].remote[layer].remotes[v].cost == Cost(rounds[k - 1][v], layer).value + net.rtt[(u, v)]
  {
    hide Round, Cost, IsBest;
    if k > 0 {
      HistoryFits(net, rounds, now, k - 1);
      RoundAt(net, rounds[k - 1], now[k - 1], rounds[k], u, layer);
    }
  }

  /** The cost after `k` rounds is the cost of some greedy walk of at most `k` hops. */
  lemma {:induction false} RoundsReach(net: Net, rounds: seq<Tables>, now: seq<Node -> nat>, k: nat, u: Node,
                                       layer: nat)
    returns (hops: seq<Node>)
    requires net.Valid() && IsHistory(net, rounds, now) && k < |rounds| && u in net.local && layer < net.layers
    requires Fitting(net, rounds[k]) && Cost(rounds[k][u], layer).Some?
    ensures |hops| <= k && WalkCost(net, u, layer, hops) == Cost(rounds[k][u], layer)
    decreases k
  {
    hide Round, Cost, IsHistory;
    CostCases(net, rounds[k], u, layer);
    if Finishes(net, u, layer) {
      hops := [];
    } else {
      var next := After(net.local[u], layer);
      assert IsBest(rounds[k][u].remote[next]);
      var v := rounds[k][u].remote[next].next.value.0;
      EntryWasAdvertised(net, rounds, now, k, u, next, v);
      var rest := RoundsReach(net, rounds, now, k - 1, v, next);
      hops := [v] + rest;
      assert hops[1..] == rest;
    }
  }

  /** After `k` rounds every advertised cost is the minimum over greedy walks of at most `k` hops, for all `k`. */
  lemma RoundsAreBellmanFord(net: Net, rounds: seq<Tables>, now: seq<Node -> nat>, k: nat, u: Node, layer: nat)
    requires net.Valid() && IsHistory(net, rounds, now) && k < |rounds| && u in net.local && layer < net.layers
    ensures Fitting(net, rounds[k]) && IsMinimumWithin(net, u, layer, k, Cost(rounds[k][u], layer))
  {
    hide Round, SelectNext, WalkCost, IsHistory;
    HistoryFits(net, rounds, now, k);
    if Cost(rounds[k][u], layer).Some? {
      var hops := RoundsReach(net, rounds, now, k, u, layer);
    }
    forall hops | |hops| <= k && WalkCost(net, u, layer, hops).Some?
      ensures Cost(rounds[k][u], layer).Some? && Cost(rounds[k][u], layer).value <= WalkCost(net, u, layer, hops).value
    {
      RoundsBound(net, rounds, now, k, u, layer, hops);
    }
  }

  /** A round that changes no advertised cost leaves tables that agree, so `RouteIsOptimal` applies to them. */
  lemma StableRoundAgrees(net: Net, ts: Tables, now: Node -> nat, ts': Tables)
    requires net.Valid() && net.layers > 0 && Fitting(net, ts) && OnlyNeighbours(net, ts) && Round(net, ts, now, ts')
    requires Fitting(net, ts')
    requires forall u, l :: u in ts && 0 <= l < net.layers ==> Cost(ts'[u], l) == Cost(ts[u], l)
    ensures Agree(net, ts')
  {
    hide Round, SelectNext, IsBest;
    forall u, l | u in ts' && 0 <= l < net.layers
      ensures HoldsAdverts(net, ts', u, l, ts'[u].remote[l].remotes)
    {
      RoundAt(net, ts, now, ts', u, l);
    }
  }
}
