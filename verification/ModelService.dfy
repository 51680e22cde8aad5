/** One worker's part of a session: what START, FORWARD and END do before and without the next hop. */
module ModelServices {
  import opened Options
  import opened RouteTables
  import opened Layers
  import opened LayerTraces

  /** Session identifiers, drawn fresh by the source. */
  type Sid = nat

  datatype Container = Container(chat: nat, local: Option<Range>, remote: Option<(Node, Sid)>)

  /** The value of a worker: its loaded layers, its sessions, and the layer caches it keeps per session. */
  datatype Worker<C> = Worker(loaded: Range, sessions: map<Sid, Container>, caches: map<Sid, seq<C>>)

  /** `index` is the hop's place in the chain. */
  datatype Body<E> = Start(chat: nat, from: nat, index: nat) | Forward(pos: Pos, x: E) | End

  /** The lists a START gathers on its way back. */
  datatype Shares = Shares(addresses: seq<Node>, layers: seq<nat>)

  const NO_SHARES := Shares([], [])

  datatype Answer<E> = Answer(ok: bool, x: Option<E>, shares: Shares)

  /** What a request leads to: an answer, or the same request one hop further. */
  datatype Out<E> = Reply(answer: Answer<E>) | Call(dest: Node, sid: Sid, body: Body<E>)

  /** Whether the usage hook before a request passes, and whether the one after it leaves the answer standing. */
  datatype Hooks = Hooks(pre: bool, post: bool)

  function Refused<E>(): Answer<E> {
    Answer(false, None, NO_SHARES)
  }

  /** Counts are 32-bit on their way into the list. */
  function U32(x: int): nat {
    x % 0x1_0000_0000
  }

  /** What a worker other than the root adds to the lists it got back. */
  function Extend(below: Shares, address: Node, end: nat, from: nat): Shares {
    Shares(below.addresses + [address], below.layers + [U32(end - from + 1)])
  }

  /**
   The hook on an answer's way back.  After START the root puts the lists on the chain, which can fail, and any other
   worker adds its share; after END the claim can fail.
   */
  function Post<E>(post: bool, req: Body<E>, a: Answer<E>, self: Node, end: nat): Answer<E> {
    match req
    case Start(_, from, index) =>
      if index == 0 then a.(ok := a.ok && post) else a.(shares := Extend(a.shares, self, end, from))
    case Forward(_, _) => a
    case End => a.(ok := a.ok && post)
  }

  /** What a resumed call makes of the answer it got back. */
  lemma PostLaw<E>(post: bool, req: Body<E>, a: Answer<E>, self: Node, end: nat)
    ensures var b := Post(post, req, a, self, end);
            && b.x == a.x
            && (req.Forward? ==> b == a)
            && (req.End? || (req.Start? && req.index == 0) ==> (b.ok <==> a.ok && post) && b.shares == a.shares)
            && (req.Start? && req.index > 0 ==>
                  && b.ok == a.ok && b.shares.addresses == a.shares.addresses + [self]
                  && b.shares.layers == a.shares.layers + [(end - req.from + 1) % 0x1_0000_0000])
  {
  }

  /** START with the route the router gives at that moment, and a fresh session id for the next hop. */
  function OnStart<C, E>(m: Model<C, E>, w: Worker<C>, self: Node, sid: Sid, chat: nat, from: nat, index: nat,
                         route: Option<RoutePath>, cacheOk: bool, nextSid: Sid, hooks: Hooks)
    : (Worker<C>, Out<E>)
  {
    if !hooks.pre || route.None? then (w, Reply(Refused()))
    else
      var r := route.value;
      var remote := if r.remote.Some? then Some((r.remote.value.dest, nextSid)) else None;
      var pinned := w.(sessions := w.sessions[sid := Container(chat, r.local, remote)]);
      if r.local.Some? && !cacheOk then (pinned, Reply(Refused()))
      else
        (if r.local.Some? then pinned.(caches := w.caches[sid := StageCaches(m, Stage(w.loaded, r.local))]) else pinned,
         if r.remote.Some? then Call(r.remote.value.dest, nextSid, Start(chat, r.remote.value.layers.lo, index + 1))
         else Reply(Post(hooks.post, Start(chat, from, index), Answer(true, None, NO_SHARES), self, w.loaded.hi)))
  }

  /** A session with local layers has its caches; without them the layer worker panics. */
  predicate CacheReady<C>(w: Worker<C>, sid: Sid) {
    sid in w.sessions && w.sessions[sid].local.Some? ==> sid in w.caches
  }

  /** FORWARD runs every loaded layer when the session has a local part at all. */
  function OnForward<C, E>(m: Model<C, E>, w: Worker<C>, sid: Sid, pos: Pos, x: E, hooks: Hooks): (Worker<C>, Out<E>)
    requires CacheReady(w, sid)
  {
    if sid !in w.sessions || !hooks.pre then (w, Reply(Refused()))
    else
      var c := w.sessions[sid];
      var (w', y) :=
        if c.local.None? then (w, x)
        else
          var (caches, y) := RunLayers(m, w.loaded.lo, w.caches[sid], pos, x);
          (w.(caches := w.caches[sid := caches]), y);
      (w',
       if c.remote.Some? then Call(c.remote.value.0, c.remote.value.1, Forward(pos, y))
       else Reply(Answer(true, Some(y), NO_SHARES)))
  }

  /** The session goes first: when the hook fails its caches stay behind. */
  function OnEnd<C, E>(w: Worker<C>, sid: Sid, hooks: Hooks): (Worker<C>, Out<E>) {
    if sid !in w.sessions then (w, Reply(Refused()))
    else
      var c := w.sessions[sid];
      var gone := w.(sessions := w.sessions - {sid});
      if !hooks.pre then (gone, Reply(Refused()))
      else
        (if c.local.Some? then gone.(caches := w.caches - {sid}) else gone,
         if c.remote.Some? then Call(c.remote.value.0, c.remote.value.1, End)
         else Reply(Answer(hooks.post, None, NO_SHARES)))
  }

  // ---------- what the requests promise, without saying how ----------

  /** Where a session's embedding goes: to the pinned next hop, or back as the answer. */
  predicate PassesOn<E(==)>(c: Container, pos: Pos, y: E, out: Out<E>) {
    out == if c.remote.Some? then Call(c.remote.value.0, c.remote.value.1, Forward(pos, y))
           else Reply(Answer(true, Some(y), Shares([], [])))
  }

  predicate Fails<E>(out: Out<E>) {
    out.Reply? && !out.answer.ok && out.answer.x.None? && out.answer.shares == Shares([], [])
  }

  /**
    What one FORWARD does to the session's caches, and sends on, in terms of single layers from the first loaded on.
   */
  ghost predicate Forwards<C(!new), E(!new)>(m: Model<C, E>, loaded: Range, c: Container, before: seq<C>, pos: Pos,
                             x: E,
                                             after: seq<C>, out: Out<E>) {
    exists y :: Takes(m, loaded.lo, before, pos, x, after, y) && PassesOn(c, pos, y, out)
  }

  class ModelService<C(!new), E(!new)> {
    const model: Model<C, E>
    const self: Node
    const loaded: Range
    var sessions: map<Sid, Container>
    var caches: map<Sid, seq<C>>

    ghost function State(): Worker<C>
      reads this
    {
      Worker(loaded, sessions, caches)
    }

    constructor (model: Model<C, E>, self: Node, loaded: Range)
      ensures this.model == model && this.self == self && State() == Worker(loaded, map[], map[])
    {
      this.model, this.self, this.loaded := model, self, loaded;
      sessions, caches := map[], map[];
    }

    method StartSession(sid: Sid, chat: nat, from: nat, index: nat, route: Option<RoutePath>, cacheOk: bool,
                        nextSid: Sid,
                        hooks: Hooks)
      returns (out: Out<E>)
      modifies this
      ensures (State(), out)
              == OnStart(model, old(State()), self, sid, chat, from, index, route, cacheOk, nextSid, hooks)
      ensures !hooks.pre || route.None? ==> Fails(out) && sessions == old(sessions) && caches == old(caches)
      ensures hooks.pre && route.Some? ==>
                var remote := route.value.remote;
                var next := if remote.Some? then Some((remote.value.dest, nextSid)) else None;
                sessions == old(sessions)[sid := Container(chat, route.value.local, next)]
      ensures hooks.pre && route.Some? && route.value.local.Some? && !cacheOk ==> Fails(out) && caches == old(caches)
      ensures hooks.pre && route.Some? && route.value.local.None? ==> caches == old(caches)
      ensures hooks.pre && route.Some? && route.value.local.Some? && cacheOk ==>
                && sid in caches && caches - {sid} == old(caches) - {sid}
                && |caches[sid]| == (if loaded.lo < loaded.hi then loaded.hi - loaded.lo else 0)
                && forall l :: 0 <= l < |caches[sid]| ==> caches[sid][l] == model.init
      ensures hooks.pre && route.Some? && (route.value.local.None? || cacheOk) && route.value.remote.Some? ==>
                var hop := route.value.remote.value;
                out == Call(hop.dest, nextSid, Start(chat, hop.layers.lo, index + 1))
      ensures hooks.pre && route.Some? && (route.value.local.None? || cacheOk) && route.value.remote.None? ==>
                && out.Reply? && out.answer.ok == (index == 0 ==> hooks.post) && out.answer.x.None?
                && (index == 0 ==> out.answer.shares == Shares([], []))
                && (index > 0 ==> out.answer.shares == Shares([self], [(loaded.hi - from + 1) % 0x1_0000_0000]))
    {
      if !hooks.pre {
        return Reply(Refused());
      }
      if route.None? {
        return Reply(Refused());
      }
      var local, remote := route.value.local, route.value.remote;
      var next := if remote.Some? then Some((remote.value.dest, nextSid)) else None;
      sessions := sessions[sid := Container(chat, local, next)];
      if local.Some? {
        if !cacheOk {
          return Reply(Refused());
        }
        caches := caches[sid := StageCaches(model, Stage(loaded, local))];
      }
      if remote.Some? {
        out := Call(remote.value.dest, nextSid, Start(chat, remote.value.layers.lo, index + 1));
      } else {
        out := Reply(Post(hooks.post, Start(chat, from, index), Answer(true, None, NO_SHARES), self, loaded.hi));
      }
    }

    method ForwardSession(sid: Sid, pos: Pos, x: E, hooks: Hooks) returns (out: Out<E>)
      requires CacheReady(State(), sid)
      modifies this
      ensures (State(), out) == OnForward(model, old(State()), sid, pos, x, hooks)
      ensures sessions == old(sessions)
      ensures sid !in sessions || !hooks.pre ==> Fails(out) && caches == old(caches)
      ensures sid in sessions && hooks.pre && sessions[sid].local.None? ==>
                caches == old(caches) && PassesOn(sessions[sid], pos, x, out)
      ensures sid in sessions && hooks.pre && sessions[sid].local.Some? ==>
                && sid in caches && caches - {sid} == old(caches) - {sid}
                && Forwards(model, loaded, sessions[sid], old(caches)[sid], pos, x, caches[sid], out)
    {
      if sid !in sessions {
        return Reply(Refused());
      }
      if !hooks.pre {
        return Reply(Refused());
      }
      var container, y := sessions[sid], x;
      if container.local.Some? {
        var cs := caches[sid];
        ghost var whole := RunLayers(model, loaded.lo, cs, pos, x);
        var i := 0;
        var done: seq<C> := [];
        assert cs[0..] == cs && [] + whole.0 == whole.0;
        while i < |cs|
          invariant 0 <= i <= |cs| && |done| == i
          invariant unchanged(this)
          invariant whole == (done + RunLayers(model, loaded.lo + i, cs[i..], pos, y).0,
                              RunLayers(model, loaded.lo + i, cs[i..], pos, y).1)
        {
          var (c, z) := model.apply(loaded.lo + i, pos, cs[i], y);
          assert cs[i..][1..] == cs[i + 1..] && cs[i..][0] == cs[i];
          ghost var rest := RunLayers(model, loaded.lo + i + 1, cs[i + 1..], pos, z);
          assert RunLayers(model, loaded.lo + i, cs[i..], pos, y) == ([c] + rest.0, rest.1);
          assert done + ([c] + rest.0) == done + [c] + rest.0;
          done, y, i := done + [c], z, i + 1;
        }
        assert cs[i..] == [] && done + [] == done;
        caches := caches[sid := done];
        RunTakes(model, loaded.lo, cs, pos, x);
      }
      if container.remote.Some? {
        out := Call(container.remote.value.0, container.remote.value.1, Forward(pos, y));
      } else {
        out := Reply(Answer(true, Some(y), NO_SHARES));
      }
    }

    method EndSession(sid: Sid, hooks: Hooks) returns (out: Out<E>)
      modifies this
      ensures (State(), out) == OnEnd(old(State()), sid, hooks)
      ensures sessions == old(sessions) - {sid}
      ensures sid !in old(sessions) || !hooks.pre ==> Fails(out) && caches == old(caches)
      ensures sid in old(sessions) && hooks.pre ==>
                var c := old(sessions)[sid];
                && caches == (if c.local.Some? then old(caches) - {sid} else old(caches))
                && out == if c.remote.Some? then Call(c.remote.value.0, c.remote.value.1, End)
                          else Reply(Answer(hooks.post, None, Shares([], [])))
    {
      if sid !in sessions {
        return Reply(Refused());
      }
      var container := sessions[sid];
      sessions := sessions - {sid};
      if !hooks.pre {
        return Reply(Refused());
      }
      if container.local.Some? {
        caches := caches - {sid};
      }
      if container.remote.Some? {
        out := Call(container.remote.value.0, container.remote.value.1, End);
      } else {
        out := Reply(Answer(hooks.post, None, NO_SHARES));
      }
    }
  }
}
