/** The registry's view of the nodes: how often each layer is served. */
module RegistryServer {
  import opened Options
  import opened RouteTables

  /** What each registered node serves, if it has said so. */
  type Nodes = map<Node, Option<Range>>

  /** How many nodes serve `layer`. */
  function Cover(nodes: Nodes, layer: nat): nat {
    |Servers(nodes, nodes.Keys, layer)|
  }

  predicate Serves(nodes: Nodes, n: Node, layer: nat) {
    n in nodes && nodes[n].Some? && nodes[n].value.Contains(layer)
  }

  function Servers(nodes: Nodes, among: set<Node>, layer: nat): set<Node> {
    set n | n in among && Serves(nodes, n, layer)
  }

  /** One count per layer, up to the last end any node has given. */
  ghost predicate IsDistribution(nodes: Nodes, d: seq<nat>) {
    && (forall n :: n in nodes && nodes[n].Some? ==> nodes[n].value.hi <= |d|)
    && (d != [] ==> exists n :: n in nodes && nodes[n].Some? && nodes[n].value.hi == |d|)
    && (forall layer :: 0 <= layer < |d| ==> d[layer] == Cover(nodes, layer))
  }

  /** One more for every layer of `r`. */
  method CountRange(d: seq<nat>, r: Range) returns (d': seq<nat>)
    requires r.hi <= |d|
    ensures |d'| == |d| && forall l :: 0 <= l < |d| ==> d'[l] == d[l] + if r.Contains(l) then 1 else 0
  {
    d' := d;
    var layer := r.lo;
    while layer < r.hi
      invariant r.lo <= layer && |d'| == |d|
      invariant forall l :: 0 <= l < |d| ==> d'[l] == d[l] + if r.Contains(l) && l < layer then 1 else 0
    {
      d' := d'[layer := d'[layer] + 1];
      layer := layer + 1;
    }
  }

  class SessionManager {
    var nodes: Nodes

    constructor ()
      ensures nodes == map[]
    {
      nodes := map[];
    }

    method OnStart(n: Node)
      modifies this
      ensures nodes == old(nodes)[n := None]
    {
      nodes := nodes[n := None];
    }

    method OnUpdate(n: Node, from: nat, to: nat)
      requires n in nodes
      modifies this
      ensures nodes == old(nodes)[n := Some(Range(from, to))]
    {
      nodes := nodes[n := Some(Range(from, to))];
    }

    method OnEnd(n: Node)
      modifies this
      ensures nodes == old(nodes) - {n}
    {
      nodes := nodes - {n};
    }

    method MaxLayer() returns (max: nat)
      ensures forall n :: n in nodes && nodes[n].Some? ==> nodes[n].value.hi <= max
      ensures max > 0 ==> exists n :: n in nodes && nodes[n].Some? && nodes[n].value.hi == max
    {
      max := 0;
      var todo := nodes.Keys;
      while todo != {}
        invariant todo <= nodes.Keys
        invariant forall n :: n in nodes && n !in todo && nodes[n].Some? ==> nodes[n].value.hi <= max
        invariant max > 0 ==> exists n :: n in nodes && nodes[n].Some? && nodes[n].value.hi == max
        decreases |todo|
      {
        var n :| n in todo;
        if nodes[n].Some? && nodes[n].value.hi > max {
          max := nodes[n].value.hi;
        }
        todo := todo - {n};
      }
    }

    method GetDistribution() returns (d: seq<nat>)
      ensures IsDistribution(nodes, d)
    {
      hide Counts;
      var max := MaxLayer();
      d := seq(max, _ => 0);
      NothingCounted(nodes, d);
      var todo := nodes.Keys;
      while todo != {}
        invariant todo <= nodes.Keys && |d| == max && Counts(nodes, nodes.Keys - todo, d)
        decreases |todo|
      {
        var n :| n in todo;
        ghost var before := d;
        if nodes[n].Some? {
          d := CountRange(d, nodes[n].value);
        }
        OneMoreCounted(nodes, nodes.Keys - todo, n, before, d);
        assert nodes.Keys - todo + {n} == nodes.Keys - (todo - {n});
        todo := todo - {n};
      }
      assert nodes.Keys - todo == nodes.Keys;
      AllCounted(nodes, d);
    }
  }

  /** Each entry counts the nodes among `among` that serve its layer. */
  ghost predicate Counts(nodes: Nodes, among: set<Node>, d: seq<nat>) {
    forall layer :: 0 <= layer < |d| ==> d[layer] == |Servers(nodes, among, layer)|
  }

  lemma NothingCounted(nodes: Nodes, d: seq<nat>)
    requires forall layer :: 0 <= layer < |d| ==> d[layer] == 0
    ensures Counts(nodes, nodes.Keys - nodes.Keys, d)
  {
    forall layer: nat
      ensures Servers(nodes, nodes.Keys - nodes.Keys, layer) == {}
    {
    }
  }

  lemma OneMoreCounted(nodes: Nodes, among: set<Node>, n: Node, d: seq<nat>, d': seq<nat>)
    requires Counts(nodes, among, d) && n in nodes && n !in among && |d'| == |d|
    requires forall l :: 0 <= l < |d| ==> d'[l] == d[l] + if nodes[n].Some? && nodes[n].value.Contains(l) then 1 else 0
    ensures Counts(nodes, among + {n}, d')
  {
    hide Servers;
    forall l | 0 <= l < |d'|
      ensures d'[l] == |Servers(nodes, among + {n}, l)|
    {
      OneMoreServer(nodes, among, n, l);
    }
  }

  lemma AllCounted(nodes: Nodes, d: seq<nat>)
    requires Counts(nodes, nodes.Keys, d)
    ensures forall layer :: 0 <= layer < |d| ==> d[layer] == Cover(nodes, layer)
  {
  }

  lemma OneMoreServer(nodes: Nodes, among: set<Node>, n: Node, layer: nat)
    requires n !in among
    ensures |Servers(nodes, among + {n}, layer)|
            == |Servers(nodes, among, layer)| + if Serves(nodes, n, layer) then 1 else 0
  {
    var s := Servers(nodes, among, layer);
    assert Servers(nodes, among + {n}, layer) == if Serves(nodes, n, layer) then s + {n} else s;
  }

  // ---------- load: the overlap with every node's range ----------

  function Overlap(r: Range, lo: nat, hi: nat): nat {
    var from := if r.lo < lo then lo else r.lo;
    var to := if r.hi < hi then r.hi else hi;
    if from < to then to - from else 0
  }

  function Share(nodes: Nodes, n: Node, lo: nat, hi: nat): nat
    requires n in nodes
  {
    if nodes[n].Some? then Overlap(nodes[n].value, lo, hi) else 0
  }

  /** What the nodes among `among` serve of layers lo..hi, added up. */
  ghost function LoadOf(nodes: Nodes, among: set<Node>, lo: nat, hi: nat): nat
    requires among <= nodes.Keys
    decreases |among|
  {
    if among == {} then 0
    else
      var n :| n in among;
      Share(nodes, n, lo, hi) + LoadOf(nodes, among - {n}, lo, hi)
  }

  /** The load of the window of `len` layers at `at`. */
  ghost function Load(nodes: Nodes, at: nat, len: nat): nat {
    LoadOf(nodes, nodes.Keys, at, at + len)
  }

  lemma {:induction false} LoadWithout(nodes: Nodes, among: set<Node>, n: Node, lo: nat, hi: nat)
    requires among <= nodes.Keys && n in among
    ensures LoadOf(nodes, among, lo, hi) == Share(nodes, n, lo, hi) + LoadOf(nodes, among - {n}, lo, hi)
    decreases |among|
  {
    var pick :| pick in among
                && LoadOf(nodes, among, lo, hi) == Share(nodes, pick, lo, hi) + LoadOf(nodes, among - {pick}, lo, hi);
    if pick != n {
      LoadWithout(nodes, among - {pick}, n, lo, hi);
      LoadWithout(nodes, among - {n}, pick, lo, hi);
      assert among - {pick} - {n} == among - {n} - {pick};
    }
  }

  /** One more layer adds to the load the number of its servers. */
  lemma {:induction false} LoadGrows(nodes: Nodes, among: set<Node>, lo: nat, hi: nat)
    requires among <= nodes.Keys && lo <= hi
    ensures LoadOf(nodes, among, lo, hi + 1) == LoadOf(nodes, among, lo, hi) + |Servers(nodes, among, hi)|
    decreases |among|
  {
    if among == {} {
      assert Servers(nodes, among, hi) == {};
    } else {
      var n :| n in among;
      LoadGrows(nodes, among - {n}, lo, hi);
      LoadWithout(nodes, among, n, lo, hi);
      LoadWithout(nodes, among, n, lo, hi + 1);
      OneMoreServer(nodes, among - {n}, n, hi);
      assert among - {n} + {n} == among;
    }
  }

  lemma {:induction false} EmptyLoad(nodes: Nodes, among: set<Node>, lo: nat)
    requires among <= nodes.Keys
    ensures LoadOf(nodes, among, lo, lo) == 0
    decreases |among|
  {
    if among != {} {
      var n :| n in among;
      LoadWithout(nodes, among, n, lo, lo);
      EmptyLoad(nodes, among - {n}, lo);
    }
  }
}
