/** Route tables in a network with syncs in flight: how long a route outlives the node that ended it. */
module RouteExpiry {
  import opened Options
  import opened RouteTables

  datatype Msg = Msg(from: Node, to: Node, sync: RouteSync)

  /** The tables, the syncs in flight, and every time at which a terminal node built a sync. */
  datatype State = State(tables: map<Node, Table>, flying: multiset<Msg>, built: set<nat>)

  /** Clocks are read per node and need not agree; any sync in flight may also be lost. */
  datatype Event =
    | Tick(u: Node, now: nat)
    | Deliver(m: Msg, rtt: nat)
    | Lose(m: Msg)
    | Disconnect(u: Node, v: Node)

  /** The node holds the last layer, so it can finish without anyone. */
  predicate Terminal(t: Table) {
    t.local.lo < t.local.hi == |t.remote|
  }

  /** One pass of the event loop: a tick builds and sends a sync first, and only then drops timed-out routes. */
  ghost predicate Next(s: State, e: Event, s': State) {
    match e
    case Tick(u, now) =>
      && u in s.tables && u in s'.tables && s.tables[u].local.hi <= |s.tables[u].remote|
      && s'.tables == s.tables[u := s'.tables[u]] && Ticked(s.tables[u], now, s'.tables[u])
      && s.flying <= s'.flying
      && (forall m :: m in s'.flying - s.flying ==> m.from == u && m.sync == CreateSync(s.tables[u], now))
      && s'.built == s.built + if Terminal(s.tables[u]) then {now} else {}
    case Deliver(m, rtt) =>
      && m in s.flying && m.to in s.tables && m.to in s'.tables
      && s'.tables == s.tables[m.to := s'.tables[m.to]]
      && Synced(s.tables[m.to], m.from, rtt, m.sync, s'.tables[m.to])
      && s'.flying == s.flying - multiset{m} && s'.built == s.built
    case Lose(m) =>
      m in s.flying && s' == s.(flying := s.flying - multiset{m})
    case Disconnect(u, v) =>
      && u in s.tables && u in s'.tables && s'.tables == s.tables[u := s'.tables[u]]
      && Disconnected(s.tables[u], v, s'.tables[u])
      && s'.flying == s.flying && s'.built == s.built
  }

  ghost predicate IsRun(es: seq<Event>, states: seq<State>) {
    |states| == |es| + 1 && forall i :: 0 <= i < |es| ==> Next(states[i], es[i], states[i + 1])
  }

  predicate Fresh(s: State) {
    && s.flying == multiset{} && s.built == {}
    && forall u :: u in s.tables ==>
         && s.tables[u].local.hi <= |s.tables[u].remote|
         && s.tables[u] == FreshTable(s.tables[u].local, |s.tables[u].remote|)
  }

  // ---------- timestamps ----------

  predicate StoredTimes(t: Table, built: set<nat>) {
    && RouteTables.Valid(t)
    && forall l, v :: 0 <= l < |t.remote| && v in t.remote[l].remotes ==> t.remote[l].remotes[v].lastUpdated in built
  }

  predicate SyncTimes(sync: RouteSync, built: set<nat>) {
    forall l :: 0 <= l < |sync| && sync[l].Some? ==> sync[l].value.lastUpdated in built
  }

  /** Every timestamp stored or in flight is a time at which some terminal node built a sync. */
  ghost predicate TimesBuilt(s: State) {
    && (forall u :: u in s.tables ==> StoredTimes(s.tables[u], s.built))
    && (forall m :: m in s.flying ==> SyncTimes(m.sync, s.built))
  }

  lemma SyncIsBuilt(t: Table, now: nat, built: set<nat>)
    requires StoredTimes(t, built)
    ensures SyncTimes(CreateSync(t, now), built + if Terminal(t) then {now} else {})
  {
    forall l | 0 <= l < |t.remote| && Advert(t, l, now).Some?
      ensures Advert(t, l, now).value.lastUpdated in built + if Terminal(t) then {now} else {}
    {
      var path := SelectNext(t, l).value;
      if path.remote.Some? {
        assert IsBest(t.remote[path.remote.value.layers.lo]);
      }
    }
  }

  lemma TickKeepsTimes(s: State, u: Node, now: nat, s': State)
    requires TimesBuilt(s) && Next(s, Event.Tick(u, now), s')
    ensures TimesBuilt(s')
  {
    hide CreateSync, IsBest;
    SyncIsBuilt(s.tables[u], now, s.built);
    assert StoredTimes(s'.tables[u], s'.built) by {
      assert StoredTimes(s.tables[u], s.built);
    }
    forall m | m in s'.flying
      ensures SyncTimes(m.sync, s'.built)
    {
      if m !in s.flying {
        assert m in s'.flying - s.flying;
      }
    }
  }

  lemma NextKeepsTimes(s: State, e: Event, s': State)
    requires TimesBuilt(s) && Next(s, e, s')
    ensures TimesBuilt(s')
  {
    hide CreateSync, IsBest;
    match e
    case Tick(u, now) => TickKeepsTimes(s, u, now, s');
    case Deliver(m, rtt) =>
      assert StoredTimes(s.tables[m.to], s.built) && SyncTimes(m.sync, s.built);
      assert StoredTimes(s'.tables[m.to], s.built);
    case Lose(m) =>
    case Disconnect(u, v) =>
      assert StoredTimes(s.tables[u], s.built);
      assert StoredTimes(s'.tables[u], s.built);
  }

  lemma {:induction false} TimesInEveryRun(es: seq<Event>, states: seq<State>, n: nat)
    requires IsRun(es, states) && Fresh(states[0]) && n < |states|
    ensures TimesBuilt(states[n])
  {
    hide Next;
    if n > 0 {
      TimesInEveryRun(es, states, n - 1);
      NextKeepsTimes(states[n - 1], es[n - 1], states[n]);
    }
  }

  // ---------- expiry ----------

  predicate Empty(t: Table) {
    forall l :: 0 <= l < |t.remote| ==> t.remote[l].remotes == map[]
  }

  /** If terminal nodes built no sync after `T`, a tick at or after `T` plus the timeout leaves an empty table. */
  lemma TickEmptiesTable(es: seq<Event>, states: seq<State>, n: nat, T: nat)
    requires IsRun(es, states) && Fresh(states[0]) && n < |es|
    requires forall time :: time in states[n].built ==> time <= T
    requires es[n].Tick? && es[n].now >= T + ROUTE_TIMEOUT_MS
    ensures Empty(states[n + 1].tables[es[n].u])
  {
    hide CreateSync, IsBest;
    TimesInEveryRun(es, states, n);
    assert Next(states[n], es[n], states[n + 1]);
    var t, t' := states[n].tables[es[n].u], states[n + 1].tables[es[n].u];
    assert StoredTimes(t, states[n].built) && Ticked(t, es[n].now, t');
    forall l | 0 <= l < |t'.remote|
      ensures t'.remote[l].remotes == map[]
    {
      assert Unexpired(t.remote[l].remotes, es[n].now) == map[];
    }
  }

  // ---------- after the terminal nodes fell silent ----------

  predicate Silent(s: State, e: Event) {
    e.Tick? && e.u in s.tables ==> !Terminal(s.tables[e.u])
  }

  /** No non-terminal node holds a route, and none is on its way to one. */
  ghost predicate Drained(s: State) {
    && (forall u :: u in s.tables ==> RouteTables.Valid(s.tables[u]) && (Terminal(s.tables[u]) || Empty(s.tables[u])))
    && (forall m, l ::
          m in s.flying && m.to in s.tables && !Terminal(s.tables[m.to]) && 0 <= l < |s.tables[m.to].remote| ==>
          SyncAt(m.sync, l).None?)
  }

  lemma EmptyAdvertisesNothing(t: Table, now: nat)
    requires RouteTables.Valid(t) && Empty(t) && !Terminal(t)
    ensures forall l :: 0 <= l < |t.remote| ==> SelectNext(t, l).None? && CreateSync(t, now)[l].None?
  {
    forall l | 0 <= l < |t.remote|
      ensures SelectNext(t, l).None?
    {
      assert IsBest(t.remote[l]);
      if t.local.Contains(l) {
        assert IsBest(t.remote[t.local.hi]);
      }
    }
  }

  lemma TickKeepsDrained(s: State, u: Node, now: nat, s': State)
    requires Drained(s) && Next(s, Event.Tick(u, now), s') && !Terminal(s.tables[u])
    ensures Drained(s')
  {
    var t, t' := s.tables[u], s'.tables[u];
    EmptyAdvertisesNothing(t, now);
    assert |CreateSync(t, now)| == |t.remote|;
    hide CreateSync, IsBest, SelectNext;
    assert Empty(t') && RouteTables.Valid(t') by {
      forall l | 0 <= l < |t'.remote|
        ensures t'.remote[l].remotes == map[]
      {
        assert Unexpired(t.remote[l].remotes, now) == map[];
      }
    }
    forall m, l | m in s'.flying && m.to in s'.tables && !Terminal(s'.tables[m.to]) && 0 <= l < |s'.tables[m.to].remote|
      ensures SyncAt(m.sync, l).None?
    {
      if m in s.flying {
        assert |s.tables[m.to].remote| == |s'.tables[m.to].remote| && !Terminal(s.tables[m.to]);
      } else {
        assert m in s'.flying - s.flying;
      }
    }
  }

  lemma NextKeepsDrained(s: State, e: Event, s': State)
    requires Drained(s) && Next(s, e, s') && Silent(s, e)
    ensures Drained(s')
  {
    match e
    case Tick(u, now) =>
      hide CreateSync, IsBest;
      TickKeepsDrained(s, u, now, s');
    case Deliver(m, rtt) =>
      hide CreateSync, IsBest;
      var t, t' := s.tables[m.to], s'.tables[m.to];
      if !Terminal(t) {
        forall l | 0 <= l < |t'.remote|
          ensures t'.remote[l].remotes == map[]
        {
          assert SyncAt(m.sync, l).None? && t.remote[l].remotes == map[];
        }
      }
    case Lose(m) =>
    case Disconnect(u, v) =>
      hide CreateSync, IsBest;
      var t, t' := s.tables[u], s'.tables[u];
      if !Terminal(t) {
        forall l | 0 <= l < |t'.remote|
          ensures t'.remote[l].remotes == map[]
        {
          assert t.remote[l].remotes == map[];
        }
      }
  }

  ghost predicate SilentRun(es: seq<Event>, states: seq<State>) {
    IsRun(es, states) && forall i :: 0 <= i < |es| ==> Silent(states[i], es[i])
  }

  lemma {:induction false} DrainedForever(es: seq<Event>, states: seq<State>, n: nat)
    requires SilentRun(es, states) && Drained(states[0]) && n < |states|
    ensures Drained(states[n])
  {
    hide Next, Drained, Silent;
    if n > 0 {
      DrainedForever(es, states, n - 1);
      NextKeepsDrained(states[n - 1], es[n - 1], states[n]);
    }
  }

  /** Once drained, and while the terminal nodes stay silent, no other node is ever ready again. */
  lemma NeverReadyAgain(es: seq<Event>, states: seq<State>, n: nat, u: Node)
    requires SilentRun(es, states) && Drained(states[0]) && n < |states|
    requires u in states[n].tables && !Terminal(states[n].tables[u]) && |states[n].tables[u].remote| > 0
    ensures states[n].tables[u].local.hi <= |states[n].tables[u].remote| && !Ready(states[n].tables[u])
  {
    DrainedForever(es, states, n);
    EmptyAdvertisesNothing(states[n].tables[u], 0);
  }

  // ---------- draining is also necessary ----------

  lemma {:induction false} BestExists(remotes: map<Node, Info>) returns (next: Option<(Node, Info)>)
    ensures IsBest(Paths(remotes, next))
    decreases |remotes|
  {
    if remotes == map[] {
      next := None;
    } else {
      var v :| v in remotes;
      var rest := remotes - {v};
      var best := BestExists(rest);
      assert forall w :: w in remotes ==> w == v || w in rest;
      if best.None? || remotes[v].cost <= best.value.1.cost {
        next := Some((v, remotes[v]));
      } else {
        next := best;
      }
    }
  }

  lemma {:induction false} SyncedPrefix(t: Table, from: Node, rtt: nat, sync: RouteSync,
                                        n: nat) returns (layers: seq<Paths>)
    requires n <= |t.remote|
    ensures |layers| == n
    ensures forall l :: 0 <= l < n ==>
              layers[l].remotes == Heard(t.remote[l].remotes, from, rtt, SyncAt(sync, l)) && IsBest(layers[l])
  {
    if n == 0 {
      layers := [];
    } else {
      var init := SyncedPrefix(t, from, rtt, sync, n - 1);
      var remotes := Heard(t.remote[n - 1].remotes, from, rtt, SyncAt(sync, n - 1));
      var best := BestExists(remotes);
      layers := init + [Paths(remotes, best)];
    }
  }

  /** Some non-terminal node holds a route. */
  ghost predicate RouteHeld(s: State) {
    exists u :: u in s.tables && !Terminal(s.tables[u]) && !Empty(s.tables[u])
  }

  ghost predicate RouteCanAppear(s: State) {
    exists es, states: seq<State> :: SilentRun(es, states) && states[0] == s && RouteHeld(states[|es|])
  }

  lemma DeliveryGivesRoute(s: State, m: Msg, l: nat)
    requires m in s.flying && m.to in s.tables && !Terminal(s.tables[m.to])
    requires l < |s.tables[m.to].remote| && SyncAt(m.sync, l).Some?
    ensures RouteCanAppear(s)
  {
    var t := s.tables[m.to];
    var layers := SyncedPrefix(t, m.from, 0, m.sync, |t.remote|);
    var t' := Table(t.local, layers);
    var s' := State(s.tables[m.to := t'], s.flying - multiset{m}, s.built);
    assert m.from in t'.remote[l].remotes;
    assert !Empty(t') && !Terminal(t');
    assert RouteHeld(s') by {
      assert m.to in s'.tables && s'.tables[m.to] == t';
    }
    assert Next(s, Deliver(m, 0), s');
    var es, states := [Deliver(m, 0)], [s, s'];
    assert SilentRun(es, states) && states[|es|] == s';
  }

  /** While the terminal nodes stay silent a route can appear at another node exactly when not everything is drained. */
  lemma DrainedIff(s: State)
    requires forall u :: u in s.tables ==> RouteTables.Valid(s.tables[u])
    ensures RouteCanAppear(s) <==> !Drained(s)
  {
    if RouteCanAppear(s) && Drained(s) {
      var es, states: seq<State> :| SilentRun(es, states) && states[0] == s && RouteHeld(states[|es|]);
      DrainedForever(es, states, |es|);
    }
    if !Drained(s) {
      if u :| u in s.tables && !Terminal(s.tables[u]) && !Empty(s.tables[u]) {
        var es: seq<Event>, states := [], [s];
        assert SilentRun(es, states) && RouteHeld(states[|es|]);
      } else {
        var m, l: nat :| m in s.flying && m.to in s.tables && !Terminal(s.tables[m.to])
                         && l < |s.tables[m.to].remote| && SyncAt(m.sync, l).Some?;
        DeliveryGivesRoute(s, m, l);
      }
    }
  }

  // ---------- ticking alone does not drain ----------

  const IDLE := Table(Range(0, 0), [Paths(map[], None)])
  const LAST := Table(Range(0, 1), [Paths(map[], None)])

  function Holding(via: Node, cost: nat): Table {
    Table(Range(0, 0), [Paths(map[via := Info(cost, 0)], Some((via, Info(cost, 0))))])
  }

  /** Nodes 0 and 1 hold no layer, node 2 holds the only one; `x` holds a route of time 0 via `via`. */
  function Stale(x: Node, via: Node, cost: nat): State
    requires x < 2
  {
    State(map[x := Holding(via, cost), 1 - x := IDLE, 2 := LAST], multiset{}, {0})
  }

  function StaleMsg(x: Node, cost: nat): Msg
    requires x < 2
  {
    Msg(x, 1 - x, [Some(Info(cost, 0))])
  }

  lemma HearStale(from: Node, cost: nat, sync: RouteSync)
    requires sync == [Some(Info(cost, 0))]
    ensures Synced(IDLE, from, 50, sync, Holding(from, cost + 50))
  {
    var t := Holding(from, cost + 50);
    var remotes := t.remote[0].remotes;
    assert from in remotes && remotes[from] == Info(cost + 50, 0);
    assert IsBest(t.remote[0]);
    assert remotes == Heard(IDLE.remote[0].remotes, from, 50, SyncAt(sync, 0));
  }

  /** A node that holds a route is ready, though it holds no layer. */
  lemma StaleIsReady(x: Node, via: Node, cost: nat)
    requires x < 2
    ensures !Terminal(Stale(x, via, cost).tables[x]) && Ready(Stale(x, via, cost).tables[x])
  {
  }

  /** One turn: both nodes tick after the timeout, and the route has moved to the other one. */
  function Turn(x: Node, cost: nat, now: nat): seq<Event>
    requires x < 2
  {
    [Event.Tick(x, now), Event.Tick(1 - x, now), Deliver(StaleMsg(x, cost), 50)]
  }

  function Turns(n: nat, now: nat -> nat): seq<Event> {
    if n == 0 then [] else Turns(n - 1, now) + Turn((n - 1) % 2, 50 * n, now(n - 1))
  }

  lemma TurnMovesRoute(x: Node, via: Node, cost: nat, now: nat) returns (mid: State)
    requires x < 2 && now >= ROUTE_TIMEOUT_MS
    ensures var s, turn := Stale(x, via, cost), Turn(x, cost, now);
            && Next(s, turn[0], mid) && Next(mid, turn[1], mid) && Next(mid, turn[2], Stale(1 - x, x, cost + 50))
            && Silent(s, turn[0]) && Silent(mid, turn[1]) && Silent(mid, turn[2])
  {
    var s, m := Stale(x, via, cost), StaleMsg(x, cost);
    var s1 := State(s.tables[x := IDLE], multiset{m}, {0});
    assert CreateSync(s.tables[x], now) == m.sync;
    assert Unexpired(s.tables[x].remote[0].remotes, now) == map[];
    assert Ticked(s.tables[x], now, IDLE);
    assert s1.flying - s.flying == multiset{m};
    assert Unexpired(map[], now) == map[] && Ticked(IDLE, now, IDLE);
    var s3 := Stale(1 - x, x, cost + 50);
    HearStale(x, cost, m.sync);
    assert s1.tables == s1.tables[1 - x := IDLE];
    assert s3.tables == s1.tables[1 - x := Holding(x, cost + 50)];
    mid := s1;
  }

  /**
   Since a tick sends before it forgets, a route can outlive its end for ever: for any number of turns in which
   both nodes tick after the timeout while node 2 stays silent, some run leaves a node in the state of `StaleIsReady`.
   */
  lemma {:induction false} RoutesCanCirculate(turns: nat, now: nat -> nat)
    returns (es: seq<Event>, states: seq<State>, via: Node)
    requires forall i :: now(i) >= ROUTE_TIMEOUT_MS
    ensures es == Turns(turns, now) && SilentRun(es, states) && states[0] == Stale(0, 2, 50)
    ensures states[|es|] == Stale(turns % 2, via, 50 * turns + 50)
  {
    hide Next, Silent, Stale;
    if turns == 0 {
      es, states, via := [], [Stale(0, 2, 50)], 2;
    } else {
      hide IsRun, SilentRun, Turn;
      es, states, via := RoutesCanCirculate(turns - 1, now);
      es, states := CirculateOnce(turns - 1, now, es, states, via);
      via := (turns - 1) % 2;
      assert turns % 2 == 1 - via;
    }
  }

  lemma CirculateOnce(turns: nat, now: nat -> nat, es: seq<Event>, states: seq<State>, via: Node)
    returns (es': seq<Event>, states': seq<State>)
    requires now(turns) >= ROUTE_TIMEOUT_MS && SilentRun(es, states)
    requires states[|es|] == Stale(turns % 2, via, 50 * turns + 50)
    ensures es' == es + Turn(turns % 2, 50 * turns + 50, now(turns)) && SilentRun(es', states')
    ensures states'[0] == states[0] && states'[|es'|] == Stale(1 - turns % 2, turns % 2, 50 * turns + 100)
  {
    var x, cost, time := turns % 2, 50 * turns + 50, now(turns);
    var mid := TurnMovesRoute(x, via, cost, time);
    hide Next, Silent, IsRun, SilentRun, Stale;
    es', states' := ExtendByTurn(es, states, Turn(x, cost, time), mid, Stale(1 - x, x, cost + 50));
  }

  lemma ExtendByTurn(es: seq<Event>, states: seq<State>, turn: seq<Event>, mid: State, end: State)
    returns (es': seq<Event>, states': seq<State>)
    requires SilentRun(es, states) && |turn| == 3
    requires Next(states[|es|], turn[0], mid) && Silent(states[|es|], turn[0])
    requires Next(mid, turn[1], mid) && Silent(mid, turn[1]) && Next(mid, turn[2], end) && Silent(mid, turn[2])
    ensures SilentRun(es', states') && es' == es + turn && states'[0] == states[0] && states'[|es'|] == end
  {
    hide Next, Silent;
    ExtendRun(es, states, turn[0], mid);
    ExtendRun(es + [turn[0]], states + [mid], turn[1], mid);
    ExtendRun(es + [turn[0]] + [turn[1]], states + [mid] + [mid], turn[2], end);
    es', states' := es + [turn[0]] + [turn[1]] + [turn[2]], states + [mid] + [mid] + [end];
  }

  lemma ExtendRun(es: seq<Event>, states: seq<State>, e: Event, s': State)
    requires SilentRun(es, states) && Next(states[|es|], e, s') && Silent(states[|es|], e)
    ensures SilentRun(es + [e], states + [s'])
  {
    hide Next, Silent;
    var all, path := es + [e], states + [s'];
    forall i | 0 <= i < |all|
      ensures Next(path[i], all[i], path[i + 1]) && Silent(path[i], all[i])
    {
      if i < |es| {
        assert all[i] == es[i] && path[i] == states[i] && path[i + 1] == states[i + 1];
      }
    }
  }

  /** The stale route the circulation starts from is itself reached from fresh tables in two events. */
  lemma StaleIsReachable(es: seq<Event>, states: seq<State>)
    requires es == [Event.Tick(2, 0), Deliver(Msg(2, 0, [Some(Info(0, 0))]), 50)]
    requires var tables := map[0 := IDLE, 1 := IDLE, 2 := LAST];
             states == [State(tables, multiset{}, {}), State(tables, multiset{es[1].m}, {0}), Stale(0, 2, 50)]
    ensures IsRun(es, states) && Fresh(states[0])
  {
    var tables: map<Node, Table>, m := map[0 := IDLE, 1 := IDLE, 2 := LAST], es[1].m;
    assert CreateSync(LAST, 0) == m.sync;
    assert Unexpired(map[], 0) == map[] && Ticked(LAST, 0, LAST);
    assert tables == tables[2 := LAST];
    assert states[1].flying - states[0].flying == multiset{m};
    assert Next(states[0], es[0], states[1]);
    HearStale(2, 0, m.sync);
    assert states[2].tables == tables[0 := Holding(2, 50)];
    assert Next(states[1], es[1], states[2]);
    assert IDLE == FreshTable(Range(0, 0), 1) && LAST == FreshTable(Range(0, 1), 1);
  }

  // ---------- how long a live route stays ----------

  /** `u` holds a route for layer `l` via `v` that a terminal node vouched for at time `since` or later. */
  predicate HoldsSince(s: State, u: Node, l: nat, v: Node, since: nat) {
    && u in s.tables && l < |s.tables[u].remote| && v in s.tables[u].remote[l].remotes
    && s.tables[u].remote[l].remotes[v].lastUpdated >= since
  }

  /** The event neither withdraws that route, nor replaces it by an older one, nor comes too late for it. */
  predicate Spares(e: Event, u: Node, l: nat, v: Node, since: nat) {
    match e
    case Tick(w, now) => w == u ==> now < since + ROUTE_TIMEOUT_MS
    case Deliver(m, _) =>
      m.to == u && m.from == v ==> l < |m.sync| && m.sync[l].Some? && m.sync[l].value.lastUpdated >= since
    case Lose(_) => true
    case Disconnect(w, n) => !(w == u && n == v)
  }

  lemma SparedIsHeld(s: State, e: Event, s': State, u: Node, l: nat, v: Node, since: nat)
    requires Next(s, e, s') && HoldsSince(s, u, l, v, since) && Spares(e, u, l, v, since)
    ensures HoldsSince(s', u, l, v, since)
    ensures !e.Deliver? || e.m.to != u || e.m.from != v ==>
              s'.tables[u].remote[l].remotes[v] == s.tables[u].remote[l].remotes[v]
  {
    hide SelectNext, IsBest;
  }

  /** A sync with a route for the layer is stored with its time, whether or not its sender was known before. */
  lemma HeardIsHeld(s: State, m: Msg, rtt: nat, s': State, l: nat)
    requires Next(s, Deliver(m, rtt), s') && l < |s.tables[m.to].remote| && l < |m.sync| && m.sync[l].Some?
    ensures HoldsSince(s', m.to, l, m.from, m.sync[l].value.lastUpdated)
    ensures s'.tables[m.to].remote[l].remotes[m.from]
            == Info(m.sync[l].value.cost + rtt, m.sync[l].value.lastUpdated)
  {
    hide SelectNext, IsBest;
  }

  /**
   A route heard with time `since` is still held, through any ticks before `since` plus the timeout, unless its sender
   withdraws it, or sends an older one after it, or disconnects.
   */
  lemma {:induction false} RouteStaysHeld(es: seq<Event>, states: seq<State>, a: nat, b: nat, l: nat)
    requires IsRun(es, states) && a < b < |states| && es[a].Deliver?
    requires es[a].m.to in states[a].tables && l < |states[a].tables[es[a].m.to].remote|
    requires l < |es[a].m.sync| && es[a].m.sync[l].Some?
    requires var m := es[a].m; forall i :: a < i < b ==> Spares(es[i], m.to, l, m.from, m.sync[l].value.lastUpdated)
    ensures var m := es[a].m; HoldsSince(states[b], m.to, l, m.from, m.sync[l].value.lastUpdated)
    decreases b
  {
    hide Next, HoldsSince, Spares;
    var m := es[a].m;
    if b == a + 1 {
      HeardIsHeld(states[a], m, es[a].rtt, states[b], l);
    } else {
      RouteStaysHeld(es, states, a, b - 1, l);
      SparedIsHeld(states[b - 1], es[b - 1], states[b], m.to, l, m.from, m.sync[l].value.lastUpdated);
    }
  }

  /** And while it is held the node has a route for that layer, if it does not work there itself. */
  lemma HeldIsRouted(s: State, u: Node, l: nat, v: Node, since: nat)
    requires HoldsSince(s, u, l, v, since) && RouteTables.Valid(s.tables[u]) && !s.tables[u].local.Contains(l)
    ensures SelectNext(s.tables[u], l).Some? && SelectNext(s.tables[u], l).value.remote.Some?
    ensures SelectNext(s.tables[u], l).value.remote.value.cost <= s.tables[u].remote[l].remotes[v].cost
  {
    assert IsBest(s.tables[u].remote[l]);
  }
}
