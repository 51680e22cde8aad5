/** Forwards of many chats, each travelling down its chain of distinct nodes, one at a time per chat. */
module UsageRun {
  import opened Sequences
  import opened Options
  import opened UsageService

  type Node = nat

  /** One chat: its chain (root first), the forward on its way, and what happened so far. */
  datatype Chain = Chain(
    nodes: seq<Node>,
    flight: Option<(Checkpoint, nat)>,      // its checkpoint, and how many nodes have taken it
    sent: nat,                              // forwards begun at the root
    lost: seq<nat>,                         // for each lost forward, how many nodes had taken it
    ended: bool,
    claims: map<nat, (nat, Option<Checkpoint>)>)

  datatype State = State(services: map<Node, Service>, chains: map<Chat, Chain>)

  datatype Event =
    | Open(chat: Chat, nodes: seq<Node>)
    | Begin(chat: Chat)
    | Take(chat: Chat)
    | Arrive(chat: Chat)        // the last node has taken it, the answer is back
    | Lose(chat: Chat)
    | EndRoot(chat: Chat)
    | Claim(chat: Chat, i: nat)

  predicate Enabled(st: State, e: Event) {
    match e
    case Open(chat, nodes) =>
      chat !in st.chains && nodes != [] && Distinct(nodes) && forall i :: 0 <= i < |nodes| ==> nodes[i] in st.services
    case Begin(chat) =>
      && chat in st.chains && st.chains[chat].flight.None? && !st.chains[chat].ended
      && st.chains[chat].nodes != [] && st.chains[chat].nodes[0] in st.services
    case Take(chat) =>
      && chat in st.chains && st.chains[chat].flight.Some?
      && var k := st.chains[chat].flight.value.1; k < |st.chains[chat].nodes| && st.chains[chat].nodes[k] in st.services
    case Arrive(chat) =>
      chat in st.chains && st.chains[chat].flight.Some? && st.chains[chat].flight.value.1 == |st.chains[chat].nodes|
    case Lose(chat) => chat in st.chains && st.chains[chat].flight.Some?
    case EndRoot(chat) =>
      && chat in st.chains && st.chains[chat].flight.None? && !st.chains[chat].ended
      && st.chains[chat].nodes != [] && st.chains[chat].nodes[0] in st.services
    case Claim(chat, i) =>
      && chat in st.chains && st.chains[chat].ended && 0 < i < |st.chains[chat].nodes| && i !in st.chains[chat].claims
      && st.chains[chat].nodes[i] in st.services
  }

  /** The root's key is made known to every worker of the chain. */
  function Announce(services: map<Node, Service>, chat: Chat, nodes: seq<Node>, pk: PublicKey): map<Node, Service> {
    map n | n in services ::
      if n in nodes[if nodes == [] then 0 else 1..] then OnStartWorker(services[n], chat, pk) else services[n]
  }

  function Step(sc: Scheme, keys: Node -> SecretKey, st: State, e: Event): State
    requires Enabled(st, e)
  {
    match e
    case Open(chat, nodes) =>
      State(Announce(st.services, chat, nodes, sc.publicOf(keys(nodes[0]))),
            st.chains[chat := Chain(nodes, None, 0, [], false, map[])])
    case Begin(chat) =>
      var ch := st.chains[chat];
      var root := ch.nodes[0];
      var (s, cp) := OnForwardRoot(sc, keys(root), st.services[root], chat);
      State(st.services[root := s], st.chains[chat := ch.(flight := Some((cp, 1)), sent := ch.sent + 1)])
    case Take(chat) =>
      var ch := st.chains[chat];
      var (cp, k) := ch.flight.value;
      var (s, ok) := OnForwardWorker(sc, st.services[ch.nodes[k]], chat, Some(cp));
      State(st.services[ch.nodes[k] := s],
            st.chains[chat := if ok then ch.(flight := Some((cp, k + 1)))
                              else ch.(flight := None, lost := ch.lost + [k])])
    case Arrive(chat) =>
      st.(chains := st.chains[chat := st.chains[chat].(flight := None)])
    case Lose(chat) =>
      var ch := st.chains[chat];
      st.(chains := st.chains[chat := ch.(flight := None, lost := ch.lost + [ch.flight.value.1])])
    case EndRoot(chat) =>
      var ch := st.chains[chat];
      var root := ch.nodes[0];
      State(st.services[root := OnEndRoot(st.services[root], chat)], st.chains[chat := ch.(ended := true)])
    case Claim(chat, i) =>
      var ch := st.chains[chat];
      var (s, count, cp) := OnEndWorker(st.services[ch.nodes[i]], chat);
      State(st.services[ch.nodes[i] := s], st.chains[chat := ch.(claims := ch.claims[i := (count, cp)])])
  }

  predicate IsRun(sc: Scheme, keys: Node -> SecretKey, es: seq<Event>, states: seq<State>) {
    && |states| == |es| + 1
    && forall i :: 0 <= i < |es| ==> Enabled(states[i], es[i]) && states[i + 1] == Step(sc, keys, states[i], es[i])
  }

  predicate Fresh(st: State) {
    st.chains == map[] && forall n :: n in st.services ==> st.services[n] == Service(map[], map[], map[], map[])
  }

  // ---------- the invariant ----------

  /** Forwards lost before node `i` had taken them. */
  function LostBefore(lost: seq<nat>, i: nat): nat {
    if lost == [] then 0
    else LostBefore(lost[..|lost| - 1], i) + if lost[|lost| - 1] <= i then 1 else 0
  }

  /** Forwards that node `i` of the chain has taken. */
  function Taken(ch: Chain, i: nat): int {
    ch.sent - LostBefore(ch.lost, i) - if ch.flight.Some? && ch.flight.value.1 <= i then 1 else 0
  }

  predicate SignedBy(sc: Scheme, keys: Node -> SecretKey, root: Node, cp: Checkpoint) {
    cp.signature == sc.sign(keys(root), cp.count)
  }

  /** A stored count lies between what was taken and what was sent, and carries the root's signature for it. */
  predicate CheckpointOk(sc: Scheme, keys: Node -> SecretKey, ch: Chain, taken: int, cp: Option<Checkpoint>)
    requires ch.nodes != []
  {
    && (cp.None? ==> taken == 0)
    && (cp.Some? ==> taken <= cp.value.count <= ch.sent && SignedBy(sc, keys, ch.nodes[0], cp.value))
  }

  predicate WorkerOk(sc: Scheme, keys: Node -> SecretKey, st: State, chat: Chat, i: nat)
    requires chat in st.chains && 0 < i < |st.chains[chat].nodes| && st.chains[chat].nodes[i] in st.services
  {
    var ch := st.chains[chat];
    var s := st.services[ch.nodes[i]];
    && chat in s.rootPks && s.rootPks[chat] == sc.publicOf(keys(ch.nodes[0])) && 0 <= Taken(ch, i) <= ch.sent
    && CheckpointOk(sc, keys, ch, Taken(ch, i), if chat in s.checkpoints then Some(s.checkpoints[chat]) else None)
    && if i in ch.claims then
         && ch.claims[i].0 == Taken(ch, i) && CheckpointOk(sc, keys, ch, Taken(ch, i), ch.claims[i].1)
         && chat !in s.earning
       else Get(s.earning, chat) == Taken(ch, i)
  }

  predicate ChatOk(sc: Scheme, keys: Node -> SecretKey, st: State, chat: Chat)
    requires chat in st.chains
  {
    var ch := st.chains[chat];
    && ch.nodes != [] && Distinct(ch.nodes)
    && (forall i :: 0 <= i < |ch.nodes| ==> ch.nodes[i] in st.services)
    && (ch.flight.Some? ==>
        && !ch.ended && 0 < ch.flight.value.1 <= |ch.nodes|
        && ch.flight.value.0.count == ch.sent && SignedBy(sc, keys, ch.nodes[0], ch.flight.value.0))
    && (!ch.ended ==> Get(st.services[ch.nodes[0]].spending, chat) == ch.sent && ch.claims == map[])
    && CountedAt(st, chat)
    && (forall i :: 0 < i < |ch.nodes| ==> WorkerOk(sc, keys, st, chat, i))
  }

  /** Only the workers of the chain earn, and only its root spends, until the chat ends. */
  predicate CountedAt(st: State, chat: Chat)
    requires chat in st.chains && st.chains[chat].nodes != []
  {
    var ch := st.chains[chat];
    forall n :: n in st.services ==>
      && (chat in st.services[n].earning ==> n in ch.nodes && n != ch.nodes[0])
      && (chat in st.services[n].spending ==> n == ch.nodes[0] && !ch.ended)
  }

  predicate Unknown(st: State, chat: Chat) {
    forall n :: n in st.services ==>
      && chat !in st.services[n].earning && chat !in st.services[n].spending
      && chat !in st.services[n].rootPks && chat !in st.services[n].checkpoints
  }

  ghost predicate Inv(sc: Scheme, keys: Node -> SecretKey, st: State) {
    && (forall chat :: chat in st.chains ==> ChatOk(sc, keys, st, chat))
    && (forall chat :: chat !in st.chains ==> Unknown(st, chat))
  }

  /** Nothing of `chat` differs between two services. */
  predicate SameFor(s: Service, s': Service, chat: Chat) {
    && (chat in s.earning <==> chat in s'.earning) && (chat in s.earning ==> s'.earning[chat] == s.earning[chat])
    && (chat in s.spending <==> chat in s'.spending) && (chat in s.spending ==> s'.spending[chat] == s.spending[chat])
    && (chat in s.rootPks <==> chat in s'.rootPks) && (chat in s.rootPks ==> s'.rootPks[chat] == s.rootPks[chat])
    && (chat in s.checkpoints <==> chat in s'.checkpoints)
    && (chat in s.checkpoints ==> s'.checkpoints[chat] == s.checkpoints[chat])
  }

  lemma OtherChatKept(sc: Scheme, keys: Node -> SecretKey, st: State, st': State, chat: Chat)
    requires chat in st.chains && ChatOk(sc, keys, st, chat) && chat in st'.chains
    requires st'.chains[chat] == st.chains[chat]
    requires st'.services.Keys == st.services.Keys
    requires forall n :: n in st.services ==> SameFor(st.services[n], st'.services[n], chat)
    ensures ChatOk(sc, keys, st', chat)
  {
    var ch := st.chains[chat];
    assert CountedAt(st', chat) by {
      assert forall n :: n in st'.services ==> SameFor(st.services[n], st'.services[n], chat);
    }
    assert SameFor(st.services[ch.nodes[0]], st'.services[ch.nodes[0]], chat);
    forall i | 0 < i < |ch.nodes|
      ensures WorkerOk(sc, keys, st', chat, i)
    {
      assert WorkerOk(sc, keys, st, chat, i) && SameFor(st.services[ch.nodes[i]], st'.services[ch.nodes[i]], chat);
    }
  }

  lemma StepIsLocal(sc: Scheme, keys: Node -> SecretKey, st: State, e: Event, other: Chat)
    requires Enabled(st, e) && other != e.chat
    ensures var st' := Step(sc, keys, st, e);
            && st'.services.Keys == st.services.Keys && st'.chains.Keys == st.chains.Keys + {e.chat}
            && (other in st.chains ==> st'.chains[other] == st.chains[other])
            && (forall n :: n in st.services ==> SameFor(st.services[n], st'.services[n], other))
  {
  }

  // ---------- each event keeps its own chat ----------

  lemma LostSnoc(lost: seq<nat>, p: nat, i: nat)
    ensures LostBefore(lost + [p], i) == LostBefore(lost, i) + if p <= i then 1 else 0
  {
    assert (lost + [p])[..|lost|] == lost;
  }

  lemma OpenKeeps(sc: Scheme, keys: Node -> SecretKey, st: State, chat: Chat, nodes: seq<Node>)
    requires Inv(sc, keys, st) && Enabled(st, Open(chat, nodes))
    ensures ChatOk(sc, keys, Step(sc, keys, st, Open(chat, nodes)), chat)
  {
    assert Unknown(st, chat);
    var st' := Step(sc, keys, st, Open(chat, nodes));
    forall i | 0 < i < |nodes|
      ensures WorkerOk(sc, keys, st', chat, i)
    {
      assert nodes[i] in nodes[1..] by {
        assert nodes[1..][i - 1] == nodes[i];
      }
    }
    assert nodes[0] !in nodes[1..];
  }

  lemma BeginKeeps(sc: Scheme, keys: Node -> SecretKey, st: State, chat: Chat)
    requires Inv(sc, keys, st) && Enabled(st, Begin(chat))
    ensures ChatOk(sc, keys, Step(sc, keys, st, Begin(chat)), chat)
  {
    assert ChatOk(sc, keys, st, chat);
    var ch, st' := st.chains[chat], Step(sc, keys, st, Begin(chat));
    forall i | 0 < i < |ch.nodes|
      ensures WorkerOk(sc, keys, st', chat, i)
    {
      assert WorkerOk(sc, keys, st, chat, i) && ch.nodes[0] != ch.nodes[i];
    }
  }

  lemma TakeKeeps(sc: Scheme, keys: Node -> SecretKey, st: State, chat: Chat)
    requires sc.Sound() && Inv(sc, keys, st) && Enabled(st, Take(chat))
    ensures ChatOk(sc, keys, Step(sc, keys, st, Take(chat)), chat)
  {
    assert ChatOk(sc, keys, st, chat);
    var ch, st' := st.chains[chat], Step(sc, keys, st, Take(chat));
    var (cp, k) := ch.flight.value;
    assert WorkerOk(sc, keys, st, chat, k);
    assert Verifies(sc, st.services[ch.nodes[k]], chat, cp);
    assert ch.nodes[0] != ch.nodes[k];
    forall i | 0 < i < |ch.nodes|
      ensures WorkerOk(sc, keys, st', chat, i)
    {
      assert WorkerOk(sc, keys, st, chat, i);
      if i != k {
        assert ch.nodes[i] != ch.nodes[k];
      }
    }
  }

  lemma LoseKeeps(sc: Scheme, keys: Node -> SecretKey, st: State, e: Event)
    requires Inv(sc, keys, st) && Enabled(st, e) && (e.Lose? || e.Arrive?)
    ensures ChatOk(sc, keys, Step(sc, keys, st, e), e.chat)
  {
    assert ChatOk(sc, keys, st, e.chat);
    var ch, st' := st.chains[e.chat], Step(sc, keys, st, e);
    forall i | 0 < i < |ch.nodes|
      ensures WorkerOk(sc, keys, st', e.chat, i)
    {
      assert WorkerOk(sc, keys, st, e.chat, i);
      LostSnoc(ch.lost, ch.flight.value.1, i);
    }
  }

  lemma EndKeeps(sc: Scheme, keys: Node -> SecretKey, st: State, e: Event)
    requires Inv(sc, keys, st) && Enabled(st, e) && (e.EndRoot? || e.Claim?)
    ensures ChatOk(sc, keys, Step(sc, keys, st, e), e.chat)
  {
    assert ChatOk(sc, keys, st, e.chat);
    var ch, st' := st.chains[e.chat], Step(sc, keys, st, e);
    forall i | 0 < i < |ch.nodes|
      ensures WorkerOk(sc, keys, st', e.chat, i)
    {
      assert WorkerOk(sc, keys, st, e.chat, i) && ch.nodes[0] != ch.nodes[i];
      if e.Claim? && i != e.i {
        assert ch.nodes[i] != ch.nodes[e.i];
      }
    }
  }

  lemma StepKeepsInv(sc: Scheme, keys: Node -> SecretKey, st: State, e: Event)
    requires sc.Sound() && Inv(sc, keys, st) && Enabled(st, e)
    ensures Inv(sc, keys, Step(sc, keys, st, e))
  {
    var st' := Step(sc, keys, st, e);
    assert ChatOk(sc, keys, st', e.chat) by {
      match e
      case Open(chat, nodes) => OpenKeeps(sc, keys, st, chat, nodes);
      case Begin(chat) => BeginKeeps(sc, keys, st, chat);
      case Take(chat) => TakeKeeps(sc, keys, st, chat);
      case Arrive(_) => LoseKeeps(sc, keys, st, e);
      case Lose(_) => LoseKeeps(sc, keys, st, e);
      case EndRoot(_) => EndKeeps(sc, keys, st, e);
      case Claim(_, _) => EndKeeps(sc, keys, st, e);
    }
    hide ChatOk, Step, Enabled;
    forall chat | chat in st'.chains && chat != e.chat
      ensures ChatOk(sc, keys, st', chat)
    {
      StepIsLocal(sc, keys, st, e, chat);
      OtherChatKept(sc, keys, st, st', chat);
    }
    forall chat | chat !in st'.chains
      ensures Unknown(st', chat)
    {
      StepIsLocal(sc, keys, st, e, chat);
      assert Unknown(st, chat);
    }
  }

  lemma {:induction false} RunKeepsInv(sc: Scheme, keys: Node -> SecretKey, es: seq<Event>, states: seq<State>, n: nat)
    requires sc.Sound() && IsRun(sc, keys, es, states) && Fresh(states[0]) && n < |states|
    ensures Inv(sc, keys, states[n])
  {
    hide Step, Enabled;
    if n > 0 {
      RunKeepsInv(sc, keys, es, states, n - 1);
      hide Inv;
      StepKeepsInv(sc, keys, states[n - 1], es[n - 1]);
    }
  }

  // ---------- what the counts say ----------

  lemma {:induction false} LossGrows(lost: seq<nat>, i: nat, j: nat)
    requires i <= j
    ensures LostBefore(lost, i) <= LostBefore(lost, j)
  {
    if lost != [] {
      LossGrows(lost[..|lost| - 1], i, j);
    }
  }

  lemma {:induction false} NoLoss(lost: seq<nat>, i: nat)
    ensures LostBefore(lost, i) == 0 <==> forall j :: 0 <= j < |lost| ==> lost[j] > i
  {
    if lost != [] {
      NoLoss(lost[..|lost| - 1], i);
    }
  }

  /** While a chat goes on: earned <= checkpointed <= spent at every worker, and earnings never grow down the chain. */
  lemma AccountsInEveryRun(sc: Scheme, keys: Node -> SecretKey, es: seq<Event>, states: seq<State>, n: nat,
                           chat: Chat, i: nat)
    requires sc.Sound() && IsRun(sc, keys, es, states) && Fresh(states[0]) && n < |states|
    requires chat in states[n].chains && !states[n].chains[chat].ended && 0 < i < |states[n].chains[chat].nodes|
    ensures var st, ch := states[n], states[n].chains[chat];
            && ch.nodes[0] in st.services && ch.nodes[i] in st.services
            && var spent, s := Get(st.services[ch.nodes[0]].spending, chat), st.services[ch.nodes[i]];
            && Get(s.earning, chat) <= spent
            && (Get(s.earning, chat) > 0 ==> chat in s.checkpoints)
            && (chat in s.checkpoints ==> Get(s.earning, chat) <= s.checkpoints[chat].count <= spent)
            && (i + 1 < |ch.nodes| ==>
                  && ch.nodes[i + 1] in st.services
                  && Get(st.services[ch.nodes[i + 1]].earning, chat) <= Get(s.earning, chat))
  {
    RunKeepsInv(sc, keys, es, states, n);
    hide IsRun, Fresh;
    var st, ch := states[n], states[n].chains[chat];
    assert ChatOk(sc, keys, st, chat) && WorkerOk(sc, keys, st, chat, i);
    if i + 1 < |ch.nodes| {
      assert WorkerOk(sc, keys, st, chat, i + 1);
      LossGrows(ch.lost, i, i + 1);
    }
  }

  /** What a worker claims never exceeds what its signature verifies; without an earlier loss it is exactly that. */
  lemma ClaimsAreBacked(sc: Scheme, keys: Node -> SecretKey, es: seq<Event>, states: seq<State>, n: nat, chat: Chat,
                        i: nat)
    requires sc.Sound() && IsRun(sc, keys, es, states) && Fresh(states[0]) && n < |states|
    requires chat in states[n].chains && i in states[n].chains[chat].claims && 0 < i < |states[n].chains[chat].nodes|
    ensures var ch := states[n].chains[chat];
            var (claimed, cp) := ch.claims[i];
            ch.nodes != [] && var pk := sc.publicOf(keys(ch.nodes[0]));
            && claimed <= ch.sent
            && (cp.None? ==> claimed == 0)
            && (cp.Some? ==> claimed <= cp.value.count && sc.verify(pk, cp.value.count, cp.value.signature))
            && ((forall j :: 0 <= j < |ch.lost| ==> ch.lost[j] > i) ==>
                  claimed == ch.sent && (cp.Some? ==> sc.verify(pk, claimed, cp.value.signature)))
  {
    RunKeepsInv(sc, keys, es, states, n);
    hide IsRun, Fresh;
    var st, ch := states[n], states[n].chains[chat];
    assert ChatOk(sc, keys, st, chat) && WorkerOk(sc, keys, st, chat, i);
    NoLoss(ch.lost, i);
  }

  /** A node that has the forward before it takes it: no honest checkpoint is turned away. */
  lemma HonestIsTaken(sc: Scheme, keys: Node -> SecretKey, es: seq<Event>, states: seq<State>, n: nat, chat: Chat)
    requires sc.Sound() && IsRun(sc, keys, es, states) && Fresh(states[0]) && n < |states|
    requires Enabled(states[n], Take(chat))
    ensures var ch := states[n].chains[chat];
            var ch' := Step(sc, keys, states[n], Take(chat)).chains[chat];
            var (cp, k) := ch.flight.value;
            ch' == ch.(flight := Some((cp, k + 1)))
  {
    RunKeepsInv(sc, keys, es, states, n);
    hide IsRun, Fresh;
    var st, ch := states[n], states[n].chains[chat];
    assert ChatOk(sc, keys, st, chat) && WorkerOk(sc, keys, st, chat, ch.flight.value.1);
  }

  /**
   Once a worker has claimed it no longer counts the chat, and once the root has ended it, nor does the root; when all
   have claimed, the chat is in no node's counts.
   */
  lemma EndedIsSettled(sc: Scheme, keys: Node -> SecretKey, es: seq<Event>, states: seq<State>, n: nat, chat: Chat)
    requires sc.Sound() && IsRun(sc, keys, es, states) && Fresh(states[0]) && n < |states|
    requires chat in states[n].chains
    ensures var st, ch := states[n], states[n].chains[chat];
            && (forall i :: i in ch.claims && 0 < i < |ch.nodes| ==>
                  ch.nodes[i] in st.services && chat !in st.services[ch.nodes[i]].earning)
            && (ch.ended ==> forall k :: k in st.services ==> chat !in st.services[k].spending)
            && ((forall i :: 0 < i < |ch.nodes| ==> i in ch.claims) ==>
                  forall k :: k in st.services ==> chat !in st.services[k].earning)
  {
    RunKeepsInv(sc, keys, es, states, n);
    hide IsRun, Fresh;
    var st, ch := states[n], states[n].chains[chat];
    assert ChatOk(sc, keys, st, chat);
    forall i | i in ch.claims && 0 < i < |ch.nodes|
      ensures ch.nodes[i] in st.services && chat !in st.services[ch.nodes[i]].earning
    {
      assert WorkerOk(sc, keys, st, chat, i);
    }
    if forall i :: 0 < i < |ch.nodes| ==> i in ch.claims {
      forall k | k in st.services
        ensures chat !in st.services[k].earning
      {
        if k in ch.nodes && k != ch.nodes[0] {
          var i :| 0 <= i < |ch.nodes| && ch.nodes[i] == k;
          assert i in ch.claims;
        }
      }
    }
  }

  // ---------- why one at a time ----------

  /** A worker fed verified checkpoints one after the other. */
  function Fed(sc: Scheme, s: Service, chat: Chat, cps: seq<Checkpoint>): Service {
    if cps == [] then s else OnForwardWorker(sc, Fed(sc, s, chat, cps[..|cps| - 1]), chat, Some(cps[|cps| - 1])).0
  }

  lemma {:induction false} FedCounts(sc: Scheme, s: Service, chat: Chat, cps: seq<Checkpoint>)
    requires forall j :: 0 <= j < |cps| ==> Verifies(sc, s, chat, cps[j])
    ensures var t := Fed(sc, s, chat, cps);
            && t.rootPks == s.rootPks && Get(t.earning, chat) == Get(s.earning, chat) + |cps|
            && (cps != [] ==> chat in t.checkpoints && t.checkpoints[chat] == cps[|cps| - 1])
  {
    if cps != [] {
      FedCounts(sc, s, chat, cps[..|cps| - 1]);
    }
  }

  predicate Covered(s: Service, chat: Chat) {
    chat in s.checkpoints && Get(s.earning, chat) <= s.checkpoints[chat].count
  }

  /**
   The checkpoint is overwritten without comparing counts: a fresh worker's earning stays within its stored count
   after every forward exactly when the j-th forward to arrive carries a count of at least j.
   */
  lemma OrderIff(sc: Scheme, s: Service, chat: Chat, cps: seq<Checkpoint>)
    requires chat !in s.earning && forall j :: 0 <= j < |cps| ==> Verifies(sc, s, chat, cps[j])
    ensures (forall n :: 0 < n <= |cps| ==>
               Covered(Fed(sc, s, chat, cps[..n]), chat))
            <==> (forall j :: 0 <= j < |cps| ==> cps[j].count >= j + 1)
  {
    forall n | 0 < n <= |cps|
      ensures var t := Fed(sc, s, chat, cps[..n]);
              chat in t.checkpoints && (Get(t.earning, chat) <= t.checkpoints[chat].count <==> cps[n - 1].count >= n)
    {
      FedCounts(sc, s, chat, cps[..n]);
    }
    if forall n :: 0 < n <= |cps| ==>
         Covered(Fed(sc, s, chat, cps[..n]), chat) {
      forall j | 0 <= j < |cps|
        ensures cps[j].count >= j + 1
      {
        var t := Fed(sc, s, chat, cps[..j + 1]);
        assert Get(t.earning, chat) <= t.checkpoints[chat].count;
      }
    }
  }
}
