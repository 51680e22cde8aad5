/** The layer routing table of one node: costs to finish the model from each layer, per neighbour. */
module RouteTables {
  import opened Options
  import opened Sequences

  type Node = nat

  const ROUTE_TIMEOUT_MS := 5_000

  datatype Range = Range(lo: nat, hi: nat)
  {
    predicate Contains(layer: nat) {
      lo <= layer < hi
    }
  }

  datatype Info = Info(cost: nat, lastUpdated: nat)

  /** The neighbours that can finish from one layer, and the cached cheapest of them. */
  datatype Paths = Paths(remotes: map<Node, Info>, next: Option<(Node, Info)>)

  /** The value of a table: the class below between two calls. */
  datatype Table = Table(local: Range, remote: seq<Paths>)

  type RouteSync = seq<Option<Info>>

  datatype Hop = Hop(dest: Node, layers: Range, cost: nat, lastUpdated: nat)

  datatype RoutePath = RoutePath(local: Option<Range>, remote: Option<Hop>)
  {
    function Cost(): nat {
      if remote.Some? then remote.value.cost else 0
    }

    function LastUpdated(): Option<nat> {
      if remote.Some? then Some(remote.value.lastUpdated) else None
    }
  }

  /** The cached hop is some cheapest stored one, and there is none exactly when nothing is stored. */
  predicate IsBest(p: Paths) {
    && (p.next.None? <==> p.remotes == map[])
    && (p.next.Some? ==>
        && p.next.value.0 in p.remotes && p.remotes[p.next.value.0] == p.next.value.1
        && forall v :: v in p.remotes ==> p.next.value.1.cost <= p.remotes[v].cost)
  }

  predicate Valid(t: Table) {
    t.local.hi <= |t.remote| && forall l :: 0 <= l < |t.remote| ==> IsBest(t.remote[l])
  }

  function FreshTable(local: Range, layers: nat): Table {
    Table(local, seq(layers, _ => Paths(map[], None)))
  }

  function SelectNext(t: Table, layer: nat): Option<RoutePath>
    requires layer < |t.remote| && t.local.hi <= |t.remote|
  {
    var end := |t.remote|;
    if t.local.Contains(layer) then
      if t.local.hi == end then Some(RoutePath(Some(Range(layer, end)), None))
      else
        match t.remote[t.local.hi].next
        case None => None
        case Some((dest, info)) =>
          Some(RoutePath(Some(Range(layer, t.local.hi)),
                         Some(Hop(dest, Range(t.local.hi, end), info.cost, info.lastUpdated))))
    else
      match t.remote[layer].next
      case None => None
      case Some((dest, info)) =>
        Some(RoutePath(None, Some(Hop(dest, Range(layer, end), info.cost, info.lastUpdated))))
  }

  predicate Ready(t: Table)
    requires 0 < |t.remote| && t.local.hi <= |t.remote|
  {
    SelectNext(t, 0).Some?
  }

  function Advert(t: Table, layer: nat, now: nat): Option<Info>
    requires layer < |t.remote| && t.local.hi <= |t.remote|
  {
    match SelectNext(t, layer)
    case None => None
    case Some(path) => Some(Info(path.Cost(), if path.LastUpdated().Some? then path.LastUpdated().value else now))
  }

  function CreateSync(t: Table, now: nat): RouteSync
    requires t.local.hi <= |t.remote|
  {
    seq(|t.remote|, l requires 0 <= l < |t.remote| => Advert(t, l, now))
  }

  function Unexpired(remotes: map<Node, Info>, now: nat): map<Node, Info> {
    map v | v in remotes && remotes[v].lastUpdated + ROUTE_TIMEOUT_MS > now :: remotes[v]
  }

  function Heard(remotes: map<Node, Info>, from: Node, rtt: nat, info: Option<Info>): map<Node, Info> {
    if info.Some? then remotes[from := info.value.(cost := info.value.cost + rtt)] else remotes - {from}
  }

  function SyncAt(sync: RouteSync, layer: nat): Option<Info> {
    if layer < |sync| then sync[layer] else None
  }

  // ---------- the three updates, up to the choice among equally cheap hops ----------

  predicate Ticked(t: Table, now: nat, t': Table) {
    && t'.local == t.local && |t'.remote| == |t.remote|
    && forall l :: 0 <= l < |t.remote| ==>
         t'.remote[l].remotes == Unexpired(t.remote[l].remotes, now) && IsBest(t'.remote[l])
  }

  predicate Disconnected(t: Table, node: Node, t': Table) {
    && t'.local == t.local && |t'.remote| == |t.remote|
    && forall l :: 0 <= l < |t.remote| ==>
         t'.remote[l].remotes == t.remote[l].remotes - {node} && IsBest(t'.remote[l])
  }

  predicate Synced(t: Table, from: Node, rtt: nat, sync: RouteSync, t': Table) {
    && t'.local == t.local && |t'.remote| == |t.remote|
    && forall l :: 0 <= l < |t.remote| ==>
         t'.remote[l].remotes == Heard(t.remote[l].remotes, from, rtt, SyncAt(sync, l)) && IsBest(t'.remote[l])
  }

  /** Of the entries of `m` exactly those not timed out at `now` are left, unchanged. */
  ghost predicate LiveOnly(m: map<Node, Info>, m': map<Node, Info>, now: nat) {
    && (forall v :: v in m' <==> v in m && m[v].lastUpdated + 5_000 > now)
    && (forall v :: v in m' ==> m'[v] == m[v])
  }

  /** The entries of all nodes but `node` are the same. */
  ghost predicate SameButFor(m: map<Node, Info>, m': map<Node, Info>, node: Node) {
    forall v :: v != node ==> (v in m' <==> v in m) && (v in m ==> m'[v] == m[v])
  }

  lemma UnexpiredSameSize(remotes: map<Node, Info>, now: nat)
    requires |Unexpired(remotes, now)| == |remotes|
    ensures Unexpired(remotes, now) == remotes
  {
    var kept := Unexpired(remotes, now);
    if v :| v in remotes && v !in kept {
      assert kept.Keys <= remotes.Keys - {v};
      SubsetSmaller(kept.Keys, remotes.Keys - {v});
    }
  }

  /** The minimum search of `update_best`, in whatever order the map yields its entries. */
  method UpdateBest(remotes: map<Node, Info>) returns (next: Option<(Node, Info)>)
    ensures IsBest(Paths(remotes, next))
  {
    next := None;
    var left := remotes.Keys;
    while left != {}
      invariant left <= remotes.Keys
      invariant next.None? <==> left == remotes.Keys
      invariant next.Some? ==> next.value.0 in remotes && remotes[next.value.0] == next.value.1
      invariant next.Some? ==> forall v :: v in remotes && v !in left ==> next.value.1.cost <= remotes[v].cost
      decreases left
    {
      var v :| v in left;
      if next.None? || remotes[v].cost < next.value.1.cost {
        next := Some((v, remotes[v]));
      }
      left := left - {v};
    }
    assert remotes == map[] <==> remotes.Keys == {};
  }

  class RouteTable {
    const localLayers: Range
    const remoteLayers: array<Paths>

    ghost function State(): Table
      reads this, remoteLayers
    {
      Table(localLayers, remoteLayers[..])
    }

    constructor (local: Range, modelLayers: nat)
      requires local.hi <= modelLayers
      ensures fresh(remoteLayers) && State() == FreshTable(local, modelLayers)
    {
      localLayers := local;
      remoteLayers := new Paths[modelLayers](_ => Paths(map[], None));
    }

    method OnTick(now: nat)
      requires Valid(State())
      modifies remoteLayers
      ensures Valid(State()) && Ticked(old(State()), now, State())
      ensures forall l :: 0 <= l < remoteLayers.Length ==>
                LiveOnly(old(remoteLayers[l]).remotes, remoteLayers[l].remotes, now)
    {
      for i := 0 to remoteLayers.Length
        invariant forall l :: 0 <= l < remoteLayers.Length ==> IsBest(remoteLayers[l])
        invariant forall l :: i <= l < remoteLayers.Length ==> remoteLayers[l] == old(remoteLayers[l])
        invariant forall l :: 0 <= l < i ==> remoteLayers[l].remotes == Unexpired(old(remoteLayers[l]).remotes, now)
      {
        var kept := Unexpired(remoteLayers[i].remotes, now);
        if |kept| != |remoteLayers[i].remotes| {
          var best := UpdateBest(kept);
          remoteLayers[i] := Paths(kept, best);
        } else {
          UnexpiredSameSize(remoteLayers[i].remotes, now);
        }
      }
    }

    method OnDisconnected(node: Node)
      requires Valid(State())
      modifies remoteLayers
      ensures Valid(State()) && Disconnected(old(State()), node, State())
      ensures forall l :: 0 <= l < remoteLayers.Length ==>
                SameButFor(old(remoteLayers[l]).remotes, remoteLayers[l].remotes, node)
      ensures forall l :: 0 <= l < remoteLayers.Length ==>
                && node !in remoteLayers[l].remotes
                && (remoteLayers[l].next.Some? ==> remoteLayers[l].next.value.0 != node)
    {
      for i := 0 to remoteLayers.Length
        invariant forall l :: 0 <= l < remoteLayers.Length ==> IsBest(remoteLayers[l])
        invariant forall l :: i <= l < remoteLayers.Length ==> remoteLayers[l] == old(remoteLayers[l])
        invariant forall l :: 0 <= l < i ==> remoteLayers[l].remotes == old(remoteLayers[l]).remotes - {node}
      {
        if node in remoteLayers[i].remotes {
          var kept := remoteLayers[i].remotes - {node};
          var best := UpdateBest(kept);
          remoteLayers[i] := Paths(kept, best);
        } else {
          assert remoteLayers[i].remotes - {node} == remoteLayers[i].remotes;
        }
      }
    }

    method ApplySync(from: Node, rtt: nat, sync: RouteSync)
      requires Valid(State())
      modifies remoteLayers
      ensures Valid(State()) && Synced(old(State()), from, rtt, sync, State())
      ensures forall l :: 0 <= l < remoteLayers.Length ==>
                (from in remoteLayers[l].remotes <==> l < |sync| && sync[l].Some?)
      ensures forall l :: 0 <= l < remoteLayers.Length && from in remoteLayers[l].remotes ==>
                remoteLayers[l].remotes[from] == Info(sync[l].value.cost + rtt, sync[l].value.lastUpdated)
      ensures forall l :: 0 <= l < remoteLayers.Length ==>
                SameButFor(old(remoteLayers[l]).remotes, remoteLayers[l].remotes, from)
    {
      for i := 0 to remoteLayers.Length
        invariant forall l :: 0 <= l < remoteLayers.Length ==> IsBest(remoteLayers[l])
        invariant forall l :: i <= l < remoteLayers.Length ==> remoteLayers[l] == old(remoteLayers[l])
        invariant forall l :: 0 <= l < i ==>
                    remoteLayers[l].remotes == Heard(old(remoteLayers[l]).remotes, from, rtt, SyncAt(sync, l))
      {
        var remotes := remoteLayers[i].remotes;
        if i < |sync| && sync[i].Some? {
          remotes := remotes[from := Info(sync[i].value.cost + rtt, sync[i].value.lastUpdated)];
        } else {
          remotes := remotes - {from};
        }
        var best := UpdateBest(remotes);
        remoteLayers[i] := Paths(remotes, best);
      }
    }

    method Select(layer: nat) returns (path: Option<RoutePath>)
      requires Valid(State()) && layer < remoteLayers.Length
      ensures path == SelectNext(State(), layer)
      ensures var works := localLayers.lo <= layer < localLayers.hi;
              var enter := if works then localLayers.hi else layer;
              && (path.None? <==> enter < remoteLayers.Length && remoteLayers[enter].next.None?)
              && (path.Some? ==> path.value.local == if works then Some(Range(layer, enter)) else None)
              && (path.Some? && enter == remoteLayers.Length ==> path.value.remote.None?)
              && (path.Some? && enter < remoteLayers.Length ==>
                    && path.value.remote.Some? && var hop := path.value.remote.value;
                    && hop.layers == Range(enter, remoteLayers.Length)
                    && remoteLayers[enter].next == Some((hop.dest, Info(hop.cost, hop.lastUpdated))))
    {
      var end := remoteLayers.Length;
      var enter := if localLayers.Contains(layer) then localLayers.hi else layer;
      var local := if localLayers.Contains(layer) then Some(Range(layer, localLayers.hi)) else None;
      if enter == end {
        return Some(RoutePath(local, None));
      }
      match remoteLayers[enter].next
      case None => path := None;
      case Some((dest, info)) =>
        path := Some(RoutePath(local, Some(Hop(dest, Range(enter, end), info.cost, info.lastUpdated))));
    }

    method CreateSyncMessage(now: nat) returns (sync: RouteSync)
      requires Valid(State())
      ensures sync == CreateSync(State(), now)
      ensures |sync| == remoteLayers.Length
      ensures forall l :: 0 <= l < |sync| ==>
                var enter := if localLayers.lo <= l < localLayers.hi then localLayers.hi else l;
                if enter == remoteLayers.Length then sync[l] == Some(Info(0, now))
                else if remoteLayers[enter].next.None? then sync[l].None?
                else sync[l] == Some(remoteLayers[enter].next.value.1)
    {
      sync := [];
      for layer := 0 to remoteLayers.Length
        invariant |sync| == layer
        invariant forall l :: 0 <= l < layer ==> sync[l] == Advert(State(), l, now)
      {
        var path := Select(layer);
        var info := match path
          case None => None
          case Some(p) => Some(Info(p.Cost(), if p.LastUpdated().Some? then p.LastUpdated().value else now));
        sync := sync + [info];
      }
    }
  }

  // ---------- any sequence of updates ----------

  datatype Update =
    | Tick(now: nat)
    | Disconnect(node: Node)
    | Sync(from: Node, rtt: nat, sync: RouteSync)

  predicate Updated(t: Table, u: Update, t': Table) {
    match u
    case Tick(now) => Ticked(t, now, t')
    case Disconnect(node) => Disconnected(t, node, t')
    case Sync(from, rtt, sync) => Synced(t, from, rtt, sync, t')
  }

  /** The cached hop agrees with recomputation after every update of every run of one table. */
  lemma {:induction false} CachedHopInEveryRun(updates: seq<Update>, tables: seq<Table>, n: nat)
    requires |tables| == |updates| + 1 && n < |tables|
    requires tables[0].local.hi <= |tables[0].remote| && tables[0] == FreshTable(tables[0].local, |tables[0].remote|)
    requires forall i :: 0 <= i < |updates| ==> Updated(tables[i], updates[i], tables[i + 1])
    ensures Valid(tables[n])
    ensures n > 0 ==> |tables[n - 1].remote| == |tables[n].remote|
    ensures n > 0 && updates[n - 1].Tick? ==>
              forall l :: 0 <= l < |tables[n].remote| ==>
                LiveOnly(tables[n - 1].remote[l].remotes, tables[n].remote[l].remotes, updates[n - 1].now)
    ensures n > 0 && updates[n - 1].Disconnect? ==>
              forall l :: 0 <= l < |tables[n].remote| ==>
                && updates[n - 1].node !in tables[n].remote[l].remotes
                && (tables[n].remote[l].next.Some? ==> tables[n].remote[l].next.value.0 != updates[n - 1].node)
    ensures n > 0 && updates[n - 1].Disconnect? ==>
              forall l :: 0 <= l < |tables[n].remote| ==>
                SameButFor(tables[n - 1].remote[l].remotes, tables[n].remote[l].remotes, updates[n - 1].node)
  {
    if n > 0 {
      CachedHopInEveryRun(updates, tables, n - 1);
      assert Updated(tables[n - 1], updates[n - 1], tables[n]);
    }
  }
}
