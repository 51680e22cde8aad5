/** A START that pins a relay, and behind it a worker entered in the middle of what it has loaded. */
module ClusterExample {
  import opened Options
  import opened RouteTables
  import opened Layers
  import opened ModelServices
  import opened Rpc
  import opened Cluster
  import opened ClusterInv
  import opened LayerShares

  const FIRST := Range(0, 2)
  const RELAY := Range(3, 4)
  const LAST := Range(1, 4)

  const FINE := Hooks(true, true)

  /** A table that sends everything on to `dest`. */
  function To(local: Range, dest: Node): Table {
    Table(local, seq(4, _ => Paths(map[dest := Info(100, 0)], Some((dest, Info(100, 0))))))
  }

  function ChoiceOf(local: Range, dest: Node, nextSid: Sid): Choice {
    Choice(To(local, dest), true, nextSid, FINE)
  }

  // ---------- requests, answers and hops ----------

  const PIN0 := Pin(0, 10, 0, FIRST, Some(FIRST))
  const PIN1 := Pin(1, 11, 2, RELAY, None)
  const PIN2 := Pin(2, 12, 2, LAST, Some(Range(2, 4)))

  const CALL0 := Pending(0, 1)
  const CALL1 := Pending(1, 1)

  const REQ0: Body<Tensor> := Start(10, 0, 0)
  const REQ1: Body<Tensor> := Start(10, 2, 1)
  const REQ2: Body<Tensor> := Start(10, 2, 2)

  const ASK1 := Req(1, CALL0, 11, REQ1, 10)
  const ASK2 := Req(2, CALL1, 12, REQ2, 10)

  const SHARES1 := Shares([2], [3])
  const SHARES0 := Shares([2, 1], [3, 3])

  const TELL1 := Res(CALL1, Answer(true, None, SHARES1), 10)
  const TELL0 := Res(CALL0, Answer(true, None, SHARES0), 10)

  // ---------- the parts of the states ----------

  const IDLE0: Worker<Cache> := Worker(FIRST, map[], map[])
  const IDLE1: Worker<Cache> := Worker(RELAY, map[], map[])
  const IDLE2: Worker<Cache> := Worker(LAST, map[], map[])

  function Held0(m: LayerModel): Worker<Cache> {
    Worker(FIRST, map[10 := Container(10, Some(FIRST), Some((1, 11)))],
           map[10 := StageCaches(m, Stage(FIRST, Some(FIRST)))])
  }

  const HELD1: Worker<Cache> := Worker(RELAY, map[11 := Container(10, None, Some((2, 12)))], map[])

  function Held2(m: LayerModel): Worker<Cache> {
    var local := Some(Range(2, 4));
    Worker(LAST, map[12 := Container(10, local, None)], map[12 := StageCaches(m, Stage(LAST, local))])
  }

  const QUIET: Waits<Waiter> := Waits(0, map[])
  const WAIT0: Waits<Waiter> := Waits(1, map[1 := Waiter(10, None, REQ0)])
  const WAIT1: Waits<Waiter> := Waits(1, map[1 := Waiter(10, Some(CALL0), REQ1)])
  const DONE: Waits<Waiter> := Waits(1, map[])

  function Peers(p0: Peer, p1: Peer, p2: Peer): map<Node, Peer> {
    map[0 := p0, 1 := p1, 2 := p2]
  }

  const BLANK := Chain(Starting, [], Some((0, 10)), [], None, NO_SHARES, [], [])
  const CHAIN1 := Chain(Starting, [PIN0], Some((1, 11)), [CALL0], Some(ASK1), NO_SHARES, [], [])
  const CHAIN2 := Chain(Starting, [PIN0, PIN1], Some((2, 12)), [CALL0, CALL1], Some(ASK2), NO_SHARES, [], [])
  const CHAIN3 := Chain(Starting, [PIN0, PIN1, PIN2], None, [CALL0, CALL1], Some(TELL1), NO_SHARES, [], [])
  const CHAIN4 := Chain(Starting, [PIN0, PIN1, PIN2], None, [CALL0], Some(TELL0), NO_SHARES, [], [])
  const CHAIN5 := Chain(Idle, [PIN0, PIN1, PIN2], None, [], None, SHARES0, [], [])

  const OWNER1: map<Sid, (Sid, nat)> := map[10 := (10, 0), 11 := (10, 1)]
  const OWNER2: map<Sid, (Sid, nat)> := map[10 := (10, 0), 11 := (10, 1), 12 := (10, 2)]

  // ---------- the states ----------

  function S0(): State {
    State(Peers(Peer(IDLE0, QUIET), Peer(IDLE1, QUIET), Peer(IDLE2, QUIET)), {}, map[], map[])
  }

  function S1(m: LayerModel): State {
    State(Peers(Peer(Held0(m), WAIT0), Peer(IDLE1, QUIET), Peer(IDLE2, QUIET)), {ASK1}, map[10 := CHAIN1], OWNER1)
  }

  function S2(m: LayerModel): State {
    State(Peers(Peer(Held0(m), WAIT0), Peer(HELD1, WAIT1), Peer(IDLE2, QUIET)), {ASK2}, map[10 := CHAIN2], OWNER2)
  }

  function S3(m: LayerModel): State {
    State(Peers(Peer(Held0(m), WAIT0), Peer(HELD1, WAIT1), Peer(Held2(m), QUIET)), {TELL1}, map[10 := CHAIN3], OWNER2)
  }

  function S4(m: LayerModel): State {
    State(Peers(Peer(Held0(m), WAIT0), Peer(HELD1, DONE), Peer(Held2(m), QUIET)), {TELL0}, map[10 := CHAIN4], OWNER2)
  }

  function S5(m: LayerModel): State {
    State(Peers(Peer(Held0(m), DONE), Peer(HELD1, DONE), Peer(Held2(m), QUIET)), {}, map[10 := CHAIN5], OWNER2)
  }

  // ---------- the steps ----------

  lemma Routes(dest: Node)
    ensures SelectNext(To(FIRST, dest), 0) == Some(RoutePath(Some(FIRST), Some(Hop(dest, Range(2, 4), 100, 0))))
    ensures SelectNext(To(RELAY, dest), 2) == Some(RoutePath(None, Some(Hop(dest, Range(2, 4), 100, 0))))
    ensures SelectNext(To(LAST, dest), 2) == Some(RoutePath(Some(Range(2, 4)), None))
  {
  }

  /** The first hop, and then the relay, is pinned and has not called on yet. */
  function Pinned0(m: LayerModel): State {
    State(Peers(Peer(Held0(m), QUIET), Peer(IDLE1, QUIET), Peer(IDLE2, QUIET)), {},
          map[10 := BLANK.(hops := [PIN0], next := Some((1, 11)))], OWNER1)
  }

  function Pinned1(m: LayerModel): State {
    State(Peers(Peer(Held0(m), WAIT0), Peer(HELD1, QUIET), Peer(IDLE2, QUIET)), {},
          map[10 := CHAIN1.(hops := [PIN0, PIN1], next := Some((2, 12)))], OWNER2)
  }

  function Opening(): State {
    WithChain(S0(), 10, BLANK).(owner := map[10 := (10, 0)])
  }

  lemma Pins0(m: LayerModel)
    requires m.layers == 4
    ensures ChoiceOk(m, Opening(), 0, ChoiceOf(FIRST, 1, 11))
    ensures StartHere(m, Opening(), 0, 10, REQ0, ChoiceOf(FIRST, 1, 11), 10) == (Pinned0(m), Call(1, 11, REQ1))
  {
    hide SelectNext, StageCaches;
    Routes(1);
    var (c2, out) := StartHere(m, Opening(), 0, 10, REQ0, ChoiceOf(FIRST, 1, 11), 10);
    assert BLANK.hops + [PIN0] == [PIN0];
    assert c2.peers == Pinned0(m).peers && c2.owner == OWNER1 && c2.chains == Pinned0(m).chains;
  }

  lemma Step0(m: LayerModel)
    requires m.layers == 4
    ensures var e := BeginStart(10, 0, ChoiceOf(FIRST, 1, 11)); Enabled(m, S0(), e) && Step(m, S0(), e) == S1(m)
  {
    Pins0(m);
    hide SelectNext, StageCaches, StartHere, ChoiceOf;
    assert S0().owner[10 := (10, 0)] == Opening().owner;
    var c3 := Dispatch(Pinned0(m), 0, None, 10, REQ0, Call(1, 11, REQ1));
    assert BLANK.path + [CALL0] == [CALL0];
    assert c3.peers == S1(m).peers && c3.net == {ASK1} && c3.chains == S1(m).chains;
  }

  lemma Pins1(m: LayerModel)
    requires m.layers == 4
    ensures var c1 := S1(m).(net := {});
            && ChoiceOk(m, c1, 1, ChoiceOf(RELAY, 2, 12))
            && StartHere(m, c1, 1, 11, REQ1, ChoiceOf(RELAY, 2, 12), 10) == (Pinned1(m), Call(2, 12, REQ2))
  {
    hide SelectNext, StageCaches;
    Routes(2);
    var (c2, out) := StartHere(m, S1(m).(net := {}), 1, 11, REQ1, ChoiceOf(RELAY, 2, 12), 10);
    assert CHAIN1.hops + [PIN1] == [PIN0, PIN1];
    assert c2.peers == Pinned1(m).peers && c2.owner == OWNER2 && c2.chains == Pinned1(m).chains;
  }

  lemma Step1(m: LayerModel)
    requires m.layers == 4
    ensures var e := Serve(ASK1, ChoiceOf(RELAY, 2, 12)); Enabled(m, S1(m), e) && Step(m, S1(m), e) == S2(m)
  {
    Pins1(m);
    hide SelectNext, StageCaches, StartHere, ChoiceOf;
    assert S1(m).net - {ASK1} == {};
    var c3 := Dispatch(Pinned1(m), 1, Some(CALL0), 10, REQ1, Call(2, 12, REQ2));
    assert CHAIN1.path + [CALL1] == [CALL0, CALL1];
    assert c3.peers == S2(m).peers && c3.net == {ASK2} && c3.chains == S2(m).chains;
  }

  lemma Step2(m: LayerModel)
    requires m.layers == 4
    ensures var e := Serve(ASK2, ChoiceOf(LAST, 0, 13)); Enabled(m, S2(m), e) && Step(m, S2(m), e) == S3(m)
  {
    hide SelectNext, StageCaches;
    Routes(0);
    var (c2, out) := StartHere(m, S2(m).(net := S2(m).net - {ASK2}), 2, 12, REQ2, ChoiceOf(LAST, 0, 13), 10);
    assert out == Reply(Answer(true, None, SHARES1));
    assert c2.peers == S3(m).peers && c2.owner == OWNER2 && c2.net == {};
    assert CHAIN2.hops + [PIN2] == [PIN0, PIN1, PIN2];
    assert c2.chains == map[10 := CHAIN2.(hops := [PIN0, PIN1, PIN2], next := None)];
    var c3 := Dispatch(c2, 2, Some(CALL1), 10, REQ2, out);
    assert c3.net == {TELL1} && c3.chains == S3(m).chains;
  }

  lemma Step3(m: LayerModel)
    requires m.layers == 4
    ensures var e := Resume(TELL1, true); Enabled(m, S3(m), e) && Step(m, S3(m), e) == S4(m)
  {
    assert Extend(SHARES1, 1, 4, 2) == SHARES0;
    assert WAIT1.waits - {1} == map[];
    var c3 := Step(m, S3(m), Resume(TELL1, true));
    assert [CALL0, CALL1][..1] == [CALL0];
    assert S3(m).net - {TELL1} == {};
    assert c3.peers == S4(m).peers && c3.net == {TELL0} && c3.chains == S4(m).chains;
  }

  lemma Step4(m: LayerModel)
    requires m.layers == 4
    ensures var e := Resume(TELL0, true); Enabled(m, S4(m), e) && Step(m, S4(m), e) == S5(m)
  {
    hide StageCaches, Extend;
    assert WAIT0.waits - {1} == map[];
    var c3 := Step(m, S4(m), Resume(TELL0, true));
    assert [CALL0][..0] == [];
    assert S4(m).net - {TELL0} == {};
    assert c3.peers == S5(m).peers && c3.net == {} && c3.chains == S5(m).chains;
  }

  // ---------- what it shows ----------

  function Events(): seq<Event> {
    [BeginStart(10, 0, ChoiceOf(FIRST, 1, 11)), Serve(ASK1, ChoiceOf(RELAY, 2, 12)), Serve(ASK2, ChoiceOf(LAST, 0, 13)),
     Resume(TELL1, true), Resume(TELL0, true)]
  }

  /**
   A run from fresh workers in which START succeeds, a working hop is entered past its first loaded layer, so that the
   stages run five of the counting model's four layers, and the relay adds a share for layers it does not run.
   */
  lemma StartCanMisalign(m: LayerModel, states: seq<State>, pos: Pos, x: int)
    requires m.layers == 4 && states == [S0(), S1(m), S2(m), S3(m), S4(m), S5(m)]
    ensures IsRun(m, Events(), states) && Fresh(m, states[0]) && 10 in states[5].chains
    ensures var ch := states[5].chains[10];
            && ch.phase.Idle? && !Aligned(StagesOf(ch.hops))
            && ChainRun(Counting(4), StagesOf(ch.hops), [(pos, x)]).1 == [x + 5]
            && WholeRun(Counting(4), [(pos, x)]).1 == [x + 4]
            && ch.shares == Shares([2, 1], [3, 3]) && RelayExcess(ch.hops, 1) == 2
  {
    ExampleIsRun(m, states);
    FiveForFour(pos, x);
    RelayAddsTwo();
    ExampleIsMisaligned();
    hide IsRun, ChainRun, WholeRun, RelayExcess, Aligned, StagesOf;
  }

  lemma ExampleIsMisaligned()
    ensures StagesOf([PIN0, PIN1, PIN2]) == STAGES && !Aligned(STAGES)
  {
    assert STAGES[2].local.value.lo == 2 && STAGES[2].loaded.lo == 1;
  }

  lemma ExampleIsRun(m: LayerModel, states: seq<State>)
    requires m.layers == 4 && states == [S0(), S1(m), S2(m), S3(m), S4(m), S5(m)]
    ensures IsRun(m, Events(), states) && Fresh(m, S0())
  {
    hide Step, Enabled, S0, S1, S2, S3, S4, S5, ChoiceOf;
    forall i | 0 <= i < 5
      ensures Enabled(m, states[i], Events()[i]) && states[i + 1] == Step(m, states[i], Events()[i])
    {
      match i
      case 0 => Step0(m);
      case 1 => Step1(m);
      case 2 => Step2(m);
      case 3 => Step3(m);
      case 4 => Step4(m);
      case _ =>
    }
    ExampleIsFresh(m);
  }

  lemma ExampleIsFresh(m: LayerModel)
    requires m.layers == 4
    ensures Fresh(m, S0())
  {
  }

  lemma RelayAddsTwo()
    ensures RelayExcess([PIN0, PIN1, PIN2], 1) == 2
  {
    var hops := [PIN0, PIN1, PIN2];
    assert RelayExcess(hops, 3) == 0;
    assert RelayExcess(hops, 2) == 0;
  }

  const STAGES := [Stage(FIRST, Some(FIRST)), Stage(RELAY, None), Stage(LAST, Some(Range(2, 4)))]

  lemma FiveForFour(pos: Pos, x: int)
    ensures ChainRun(Counting(4), STAGES, [(pos, x)]).1 == [x + 5]
    ensures WholeRun(Counting(4), [(pos, x)]).1 == [x + 4]
  {
    var m, empty := Counting(4), FreshCaches(Counting(4), STAGES);
    ChainRunSnoc(m, STAGES, [], pos, x);
    assert [] + [(pos, x)] == [(pos, x)];
    CountingCounts(4, 0, empty[0], pos, x);
    assert ChainThrough(m, STAGES, empty, pos, x, 1) == x + 2;
    assert ChainThrough(m, STAGES, empty, pos, x, 2) == x + 2;
    CountingCounts(4, 1, empty[2], pos, x + 2);
    assert ChainThrough(m, STAGES, empty, pos, x, 3) == x + 5;
    assert [(pos, x)][..0] == [];
    CountingCounts(4, 0, WholeRun(m, []).0, pos, x);
  }
}
