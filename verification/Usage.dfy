/** Token accounting of one node: what it spends as a root, what it earns as a worker, and the signed counts. */
module UsageService {
  import opened Options

  type Chat = nat

  type SecretKey(!new)
  type PublicKey(!new, ==)
  type Signature(!new, ==)

  /** Signing a token count, and checking a signature against one. */
  datatype Scheme = Scheme(
    publicOf: SecretKey -> PublicKey,
    sign: (SecretKey, nat) -> Signature,
    verify: (PublicKey, nat, Signature) -> bool)
  {
    /** A signature made with a key verifies under that key for the signed count and no other. */
    ghost predicate Sound() {
      forall k: SecretKey, n: nat, signed: nat :: verify(publicOf(k), n, sign(k, signed)) <==> n == signed
    }
  }

  datatype Checkpoint = Checkpoint(count: nat, signature: Signature)

  type Counts = map<Chat, nat>

  datatype Service = Service(
    earning: Counts,
    spending: Counts,
    rootPks: map<Chat, PublicKey>,
    checkpoints: map<Chat, Checkpoint>)

  function Get(m: Counts, chat: Chat): nat {
    if chat in m then m[chat] else 0
  }

  function Increase(m: Counts, chat: Chat, tokens: nat): Counts {
    m[chat := Get(m, chat) + tokens]
  }

  predicate SameButFor(m: Counts, m': Counts, chat: Chat) {
    && m'.Keys - {chat} == m.Keys - {chat}
    && forall c :: c in m && c in m' && c != chat ==> m'[c] == m[c]
  }

  ghost function Total(m: Counts): nat
    decreases |m|
  {
    if m == map[] then 0
    else
      var chat :| chat in m;
      m[chat] + Total(m - {chat})
  }

  lemma {:induction false} TotalWithout(m: Counts, chat: Chat)
    requires chat in m
    ensures Total(m) == m[chat] + Total(m - {chat})
    decreases |m|
  {
    var pick :| pick in m && Total(m) == m[pick] + Total(m - {pick});
    if pick != chat {
      TotalWithout(m - {pick}, chat);
      TotalWithout(m - {chat}, pick);
      assert m - {pick} - {chat} == m - {chat} - {pick};
    }
  }

  /** Counting tokens moves the total by exactly as much, and finishing a chat takes out exactly its count. */
  lemma TotalMoves(m: Counts, chat: Chat, tokens: nat)
    ensures Total(Increase(m, chat, tokens)) == Total(m) + tokens
    ensures Total(m - {chat}) + Get(m, chat) == Total(m)
  {
    var more := Increase(m, chat, tokens);
    TotalWithout(more, chat);
    assert more - {chat} == m - {chat};
    if chat in m {
      TotalWithout(m, chat);
    } else {
      assert m - {chat} == m;
    }
  }

  // ---------- the hooks ----------

  function OnStartWorker(s: Service, chat: Chat, rootPk: PublicKey): Service {
    s.(rootPks := s.rootPks[chat := rootPk])
  }

  function OnForwardRoot(sc: Scheme, sk: SecretKey, s: Service, chat: Chat): (Service, Checkpoint) {
    var spending := Increase(s.spending, chat, 1);
    var cp := Checkpoint(Get(spending, chat), sc.sign(sk, Get(spending, chat)));
    (s.(spending := spending, checkpoints := s.checkpoints[chat := cp]), cp)
  }

  predicate Verifies(sc: Scheme, s: Service, chat: Chat, cp: Checkpoint) {
    chat in s.rootPks && sc.verify(s.rootPks[chat], cp.count, cp.signature)
  }

  function OnForwardWorker(sc: Scheme, s: Service, chat: Chat, cp: Option<Checkpoint>): (Service, bool) {
    if cp.Some? && Verifies(sc, s, chat, cp.value)
    then (s.(checkpoints := s.checkpoints[chat := cp.value], earning := Increase(s.earning, chat, 1)), true)
    else (s, false)
  }

  function OnEndRoot(s: Service, chat: Chat): Service {
    s.(spending := s.spending - {chat})
  }

  /** The count a worker claims, and the checkpoint it submits with it. */
  function OnEndWorker(s: Service, chat: Chat): (Service, nat, Option<Checkpoint>) {
    (s.(earning := s.earning - {chat}), Get(s.earning, chat),
     if chat in s.checkpoints then Some(s.checkpoints[chat]) else None)
  }

  class OnChainService {
    const scheme: Scheme
    const secret: SecretKey
    var earning: Counts
    var spending: Counts
    var rootPks: map<Chat, PublicKey>
    var checkpoints: map<Chat, Checkpoint>

    ghost function State(): Service
      reads this
    {
      Service(earning, spending, rootPks, checkpoints)
    }

    constructor (scheme: Scheme, secret: SecretKey)
      ensures this.scheme == scheme && this.secret == secret && State() == Service(map[], map[], map[], map[])
    {
      this.scheme, this.secret := scheme, secret;
      earning, spending, rootPks, checkpoints := map[], map[], map[], map[];
    }

    method PreStartWorker(chat: Chat, rootPk: PublicKey)
      modifies this
      ensures State() == OnStartWorker(old(State()), chat, rootPk)
      ensures rootPks == old(rootPks)[chat := rootPk]
      ensures earning == old(earning) && spending == old(spending) && checkpoints == old(checkpoints)
    {
      rootPks := rootPks[chat := rootPk];
    }

    method PreForwardRoot(chat: Chat) returns (cp: Checkpoint)
      modifies this
      ensures (State(), cp) == OnForwardRoot(scheme, secret, old(State()), chat)
      ensures cp.count == 1 + (if chat in old(spending) then old(spending)[chat] else 0)
      ensures cp.signature == scheme.sign(secret, cp.count)
      ensures spending == old(spending)[chat := cp.count] && checkpoints == old(checkpoints)[chat := cp]
      ensures earning == old(earning) && rootPks == old(rootPks) && Total(spending) == Total(old(spending)) + 1
    {
      TotalMoves(spending, chat, 1);
      var count := if chat in spending then spending[chat] else 0;
      spending := spending[chat := count + 1];
      cp := Checkpoint(count + 1, scheme.sign(secret, count + 1));
      checkpoints := checkpoints[chat := cp];
    }

    method PreForwardWorker(chat: Chat, cp: Option<Checkpoint>) returns (ok: bool)
      modifies this
      ensures (State(), ok) == OnForwardWorker(scheme, old(State()), chat, cp)
      ensures ok <==> cp.Some? && chat in old(rootPks)
                      && scheme.verify(old(rootPks)[chat], cp.value.count, cp.value.signature)
      ensures ok ==> checkpoints == old(checkpoints)[chat := cp.value]
      ensures ok ==> chat in earning && earning[chat] == 1 + if chat in old(earning) then old(earning)[chat] else 0
      ensures SameButFor(old(earning), earning, chat)
      ensures !ok ==> checkpoints == old(checkpoints) && earning == old(earning)
      ensures spending == old(spending) && rootPks == old(rootPks)
      ensures Total(earning) == Total(old(earning)) + if ok then 1 else 0
    {
      TotalMoves(earning, chat, 1);
      if cp.None? || chat !in rootPks {
        return false;
      }
      ok := scheme.verify(rootPks[chat], cp.value.count, cp.value.signature);
      if ok {
        checkpoints := checkpoints[chat := cp.value];
        var count := if chat in earning then earning[chat] else 0;
        earning := earning[chat := count + 1];
      }
    }

    method PreEndRoot(chat: Chat) returns (count: nat)
      modifies this
      ensures State() == OnEndRoot(old(State()), chat)
      ensures count == if chat in old(spending) then old(spending)[chat] else 0
      ensures chat !in spending && Total(spending) + count == Total(old(spending))
      ensures SameButFor(old(spending), spending, chat)
      ensures earning == old(earning) && rootPks == old(rootPks) && checkpoints == old(checkpoints)
    {
      TotalMoves(spending, chat, 0);
      count := if chat in spending then spending[chat] else 0;
      spending := spending - {chat};
    }

    method PostEndWorker(chat: Chat) returns (claimed: nat, cp: Option<Checkpoint>)
      modifies this
      ensures (State(), claimed, cp) == OnEndWorker(old(State()), chat)
      ensures claimed == if chat in old(earning) then old(earning)[chat] else 0
      ensures chat !in earning && Total(earning) + claimed == Total(old(earning))
      ensures SameButFor(old(earning), earning, chat)
      ensures cp == if chat in old(checkpoints) then Some(old(checkpoints)[chat]) else None
      ensures spending == old(spending) && rootPks == old(rootPks) && checkpoints == old(checkpoints)
    {
      TotalMoves(earning, chat, 0);
      claimed := if chat in earning then earning[chat] else 0;
      earning := earning - {chat};
      cp := if chat in checkpoints then Some(checkpoints[chat]) else None;
    }

    method EarningTokenCount() returns (sum: nat)
      ensures sum == Total(earning)
    {
      sum := 0;
      var left := earning;
      while left != map[]
        invariant sum + Total(left) == Total(earning)
        decreases |left|
      {
        var chat :| chat in left;
        TotalWithout(left, chat);
        sum := sum + left[chat];
        left := left - {chat};
      }
    }
  }
}
