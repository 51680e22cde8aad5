/** A channel of messages read as one stream of bytes, in pieces the reader's buffer has room for. */
module StreamReader {
  import opened Options
  import opened Sequences

  /** `queue` and `closed` are the channel; `buffer` is the message being read, up to `offset`. */
  datatype Reader = Reader(queue: seq<Bytes>, closed: bool, buffer: Option<Bytes>, offset: nat)
  {
    /** Between two polls a message is kept only while it has unread bytes. */
    predicate Valid() {
      if buffer.None? then offset == 0 else offset < |buffer.value|
    }

    function Tail(): Bytes {
      if buffer.None? || offset > |buffer.value| then [] else buffer.value[offset..]
    }

    /** Everything sent and not yet delivered. */
    function Rest(): Bytes {
      Tail() + Concat(queue)
    }
  }

  /** `Ready` without bytes is the end of the stream. */
  datatype Poll = Ready | Pending

  datatype Polled = Polled(reader: Reader, poll: Poll, bytes: Bytes)

  function Min(a: nat, b: nat): nat {
    if a <= b then a else b
  }

  /** One turn of the loop: what the buffer gives, and the reader after it. */
  function Take(r: Reader, room: nat): (Reader, Bytes) {
    var n := Min(|r.Tail()|, room);
    (if r.buffer.None? || n == |r.Tail()| then r.(buffer := None, offset := 0) else r.(offset := r.offset + n),
     r.Tail()[..n])
  }

  function PollRead(r: Reader, room: nat): Polled
    decreases |r.queue|
  {
    var (r1, bytes) := Take(r, room);
    if bytes != [] then Polled(r1, Ready, bytes)
    else if r1.queue != [] then PollRead(Reader(r1.queue[1..], r1.closed, Some(r1.queue[0]), 0), room)
    else Polled(r1, if r1.closed then Ready else Pending, [])
  }

  class AsyncReadRx {
    var queue: seq<Bytes>
    var closed: bool
    var buffer: Option<Bytes>
    var offset: nat

    function State(): Reader
      reads this
    {
      Reader(queue, closed, buffer, offset)
    }

    constructor ()
      ensures State() == Reader([], false, None, 0)
    {
      queue, closed, buffer, offset := [], false, None, 0;
    }

    /** What the sending half does. */
    method Send(message: Bytes)
      modifies this
      ensures State() == old(State()).(queue := old(queue) + [message])
    {
      queue := queue + [message];
    }

    method Close()
      modifies this
      ensures State() == old(State()).(closed := true)
    {
      closed := true;
    }

    /** Fills a destination with room for `room` bytes. */
    method Read(room: nat) returns (poll: Poll, bytes: Bytes)
      requires State().Valid()
      modifies this
      ensures Polled(State(), poll, bytes) == PollRead(old(State()), room)
    {
      bytes := [];
      while true
        invariant bytes == [] && PollRead(State(), room) == PollRead(old(State()), room)
        invariant buffer.Some? ==> offset <= |buffer.value|
        invariant buffer.None? ==> offset == 0
        decreases |queue|
      {
        if buffer.Some? {
          var available := |buffer.value| - offset;
          var toRead := Min(available, room);
          bytes := bytes + buffer.value[offset..offset + toRead];
          offset := offset + toRead;
          if offset >= |buffer.value| {
            buffer, offset := None, 0;
          }
          if toRead > 0 {
            return Ready, bytes;
          }
        }
        if queue != [] {
          buffer, offset, queue := Some(queue[0]), 0, queue[1..];
        } else {
          return if closed then Ready else Pending, bytes;
        }
      }
    }
  }

  // ---------- one poll ----------

  /** What is left of the message being read, or else the first message that has bytes. */
  function FirstPiece(tail: Bytes, queue: seq<Bytes>): Bytes
    decreases |queue|
  {
    if tail != [] || queue == [] then tail else FirstPiece(queue[0], queue[1..])
  }

  lemma TakeSplits(r: Reader, room: nat)
    requires r.buffer.None? ==> r.offset == 0
    ensures var (r1, bytes) := Take(r, room);
            && r1.Valid() && r1.queue == r.queue && r1.closed == r.closed
            && bytes + r1.Tail() == r.Tail() && |bytes| == Min(|r.Tail()|, room)
  {
    var n := Min(|r.Tail()|, room);
    assert r.Tail() == r.Tail()[..n] + r.Tail()[n..];
  }

  lemma NothingQueued(r: Reader)
    requires r.queue == []
    ensures r.Rest() == r.Tail()
  {
  }

  lemma ReceiveKeepsRest(r: Reader)
    requires r.queue != [] && r.Tail() == []
    ensures var next := Reader(r.queue[1..], r.closed, Some(r.queue[0]), 0);
            next.Rest() == r.Rest() && next.Tail() == r.queue[0]
  {
  }

  /** With room in the destination nothing is lost, and something is read whenever there is anything. */
  lemma {:induction false} RoomConserves(r: Reader, room: nat)
    requires room > 0 && (r.buffer.None? ==> r.offset == 0)
    ensures var p := PollRead(r, room);
            && p.reader.Valid() && p.bytes + p.reader.Rest() == r.Rest()
            && |p.bytes| == Min(room, |FirstPiece(r.Tail(), r.queue)|)
            && (p.bytes != [] <==> r.Rest() != [])
            && (p.poll.Pending? <==> r.Rest() == [] && !r.closed)
            && p.reader.closed == r.closed
    decreases |r.queue|
  {
    hide Concat, Take, Reader.Tail;
    TakeSplits(r, room);
    var (r1, bytes) := Take(r, room);
    if bytes != [] {
      assert bytes + (r1.Tail() + Concat(r.queue)) == bytes + r1.Tail() + Concat(r.queue);
    } else if r.queue != [] {
      ReceiveKeepsRest(r1);
      RoomConserves(Reader(r.queue[1..], r.closed, Some(r.queue[0]), 0), room);
      assert r1.Rest() == r.Rest();
    } else {
      NothingQueued(r);
      NothingQueued(r1);
    }
  }

  /** Without room every queued message replaces the one before, and only the last is kept. */
  lemma {:induction false} NoRoomKeepsLast(r: Reader)
    requires r.buffer.None? ==> r.offset == 0
    ensures var p := PollRead(r, 0);
            && p.reader.Valid() && p.bytes == [] && p.reader.closed == r.closed && p.reader.queue == []
            && p.reader.Rest() == if r.queue == [] then r.Tail() else r.queue[|r.queue| - 1]
    decreases |r.queue|
  {
    if r.queue != [] {
      var next := Reader(r.queue[1..], r.closed, Some(r.queue[0]), 0);
      NoRoomKeepsLast(next);
    }
  }

  /** What a caller can tell beforehand: there is room, or there is nothing to overwrite. */
  predicate Harmless(r: Reader, room: nat) {
    room > 0 || r.queue == [] || (r.Tail() == [] && forall i :: 0 <= i < |r.queue| - 1 ==> r.queue[i] == [])
  }

  lemma {:induction false} ConcatLength(messages: seq<Bytes>)
    requires messages != []
    ensures |Concat(messages)| >= |messages[|messages| - 1]|
    ensures |Concat(messages)| == |messages[|messages| - 1]| <==>
            forall i :: 0 <= i < |messages| - 1 ==> messages[i] == []
    decreases |messages|
  {
    var rest := messages[1..];
    if rest != [] {
      ConcatLength(rest);
      assert rest[|rest| - 1] == messages[|messages| - 1];
      assert forall i :: 0 <= i < |rest| - 1 ==> rest[i] == messages[i + 1];
      assert (forall i :: 0 <= i < |rest| - 1 ==> rest[i] == []) && messages[0] == [] ==>
          forall i :: 0 <= i < |messages| - 1 ==> messages[i] == [] by {
        assert forall i :: 0 < i < |messages| ==> messages[i] == rest[i - 1];
      }
    }
  }

  lemma {:induction false} ConcatOfEmpties(messages: seq<Bytes>)
    requires messages != [] && forall i :: 0 <= i < |messages| - 1 ==> messages[i] == []
    ensures Concat(messages) == messages[|messages| - 1]
    decreases |messages|
  {
    if |messages| > 1 {
      ConcatOfEmpties(messages[1..]);
    }
  }

  /** A poll conserves bytes exactly when it is harmless, and otherwise it loses some. */
  lemma PollConservesIff(r: Reader, room: nat)
    requires r.Valid()
    ensures var p := PollRead(r, room);
            && p.reader.Valid() && p.reader.closed == r.closed
            && (Harmless(r, room) ==> p.bytes + p.reader.Rest() == r.Rest())
            && (!Harmless(r, room) ==> |p.bytes| + |p.reader.Rest()| < |r.Rest()|)
  {
    hide PollRead, Concat;
    if room > 0 {
      RoomConserves(r, room);
    } else {
      NoRoomKeepsLast(r);
      if r.queue == [] {
        NothingQueued(r);
      } else {
        ConcatLength(r.queue);
        if Harmless(r, room) {
          ConcatOfEmpties(r.queue);
        }
      }
    }
  }

  // ---------- runs ----------

  datatype Event = Send(message: Bytes) | Close | Read(room: nat)

  function Step(r: Reader, e: Event): Reader {
    match e
    case Send(message) => r.(queue := r.queue + [message])
    case Close => r.(closed := true)
    case Read(room) => PollRead(r, room).reader
  }

  predicate IsRun(es: seq<Event>, states: seq<Reader>) {
    && |states| == |es| + 1 && states[0] == Reader([], false, None, 0)
    && forall i :: 0 <= i < |es| ==> states[i + 1] == Step(states[i], es[i])
  }

  /** All bytes sent in the first `n` events. */
  function Sent(es: seq<Event>, n: nat): Bytes
    requires n <= |es|
  {
    if n == 0 then [] else Sent(es, n - 1) + if es[n - 1].Send? then es[n - 1].message else []
  }

  /** All bytes handed out by them. */
  function Delivered(es: seq<Event>, states: seq<Reader>, n: nat): Bytes
    requires IsRun(es, states) && n <= |es|
  {
    if n == 0 then []
    else Delivered(es, states, n - 1) + if es[n - 1].Read? then PollRead(states[n - 1], es[n - 1].room).bytes else []
  }

  predicate AllHarmless(es: seq<Event>, states: seq<Reader>, n: nat)
    requires IsRun(es, states) && n <= |es|
  {
    forall i :: 0 <= i < n && es[i].Read? ==> Harmless(states[i], es[i].room)
  }

  lemma SendAppends(r: Reader, message: Bytes)
    ensures Step(r, Send(message)).Rest() == r.Rest() + message
  {
    ConcatSplit(r.queue, [message]);
    assert [message][1..] == [];
    assert r.Tail() + (Concat(r.queue) + message) == r.Tail() + Concat(r.queue) + message;
  }

  /** `whole`: nothing has been lost; otherwise something has. */
  predicate Accounts(delivered: Bytes, rest: Bytes, sent: Bytes, whole: bool) {
    if whole then delivered + rest == sent else |delivered| + |rest| < |sent|
  }

  lemma AccountsAfterSend(delivered: Bytes, rest: Bytes, sent: Bytes, whole: bool, message: Bytes)
    requires Accounts(delivered, rest, sent, whole)
    ensures Accounts(delivered, rest + message, sent + message, whole)
  {
    assert delivered + (rest + message) == delivered + rest + message;
  }

  lemma AccountsAfterRead(delivered: Bytes, r: Reader, sent: Bytes, whole: bool, room: nat)
    requires Accounts(delivered, r.Rest(), sent, whole) && r.Valid()
    ensures var p := PollRead(r, room);
            Accounts(delivered + p.bytes, p.reader.Rest(), sent, whole && Harmless(r, room))
  {
    hide PollRead, Harmless, Reader.Rest;
    PollConservesIff(r, room);
    var p := PollRead(r, room);
    assert delivered + (p.bytes + p.reader.Rest()) == delivered + p.bytes + p.reader.Rest();
    assert Harmless(r, room) ==> |p.bytes| + |p.reader.Rest()| == |p.bytes + p.reader.Rest()| == |r.Rest()|;
    assert whole ==> |delivered| + |r.Rest()| == |delivered + r.Rest()| == |sent|;
  }

  lemma {:induction false} RunAccounts(es: seq<Event>, states: seq<Reader>, n: nat)
    requires IsRun(es, states) && n <= |es|
    ensures states[n].Valid()
    ensures Accounts(Delivered(es, states, n), states[n].Rest(), Sent(es, n), AllHarmless(es, states, n))
  {
    hide PollRead, Harmless, Reader.Rest, Accounts;
    if n == 0 {
      NothingAccounts(states[0]);
    } else {
      RunAccounts(es, states, n - 1);
      var e, r := es[n - 1], states[n - 1];
      assert states[n] == Step(r, e);
      assert AllHarmless(es, states, n) <==> AllHarmless(es, states, n - 1) && (e.Read? ==> Harmless(r, e.room));
      var delivered, sent, whole := Delivered(es, states, n - 1), Sent(es, n - 1), AllHarmless(es, states, n - 1);
      match e
      case Send(message) =>
        SendAppends(r, message);
        AccountsAfterSend(delivered, r.Rest(), sent, whole, message);
        assert Delivered(es, states, n) == delivered;
      case Close =>
        assert Delivered(es, states, n) == delivered;
        assert Sent(es, n) == sent;
        assert states[n].Rest() == r.Rest() by { CloseKeepsRest(r); }
      case Read(room) =>
        AccountsAfterRead(delivered, r, sent, whole, room);
        PollConservesIff(r, room);
        assert Sent(es, n) == sent;
    }
  }

  lemma CloseKeepsRest(r: Reader)
    ensures r.(closed := true).Rest() == r.Rest()
  {
  }

  lemma NothingAccounts(r: Reader)
    requires r == Reader([], false, None, 0)
    ensures Accounts([], r.Rest(), [], true)
  {
  }

  /**
   Delivered bytes, then the unread rest, are the concatenation of all messages sent exactly when every read was
   harmless; bytes lost by one that was not are never made up for.
   */
  lemma StreamConservesIff(es: seq<Event>, states: seq<Reader>, n: nat)
    requires IsRun(es, states) && n <= |es|
    ensures Delivered(es, states, n) + states[n].Rest() == Sent(es, n) <==> AllHarmless(es, states, n)
    ensures |Delivered(es, states, n)| + |states[n].Rest()| <= |Sent(es, n)|
  {
    hide PollRead, Harmless, Reader.Rest;
    RunAccounts(es, states, n);
    var delivered, rest := Delivered(es, states, n), states[n].Rest();
    assert |delivered + rest| == |delivered| + |rest|;
  }

  /**
    Reading with room loses nothing, and the end is reported exactly when the channel is closed and all was delivered.
   */
  lemma EndOfStream(es: seq<Event>, states: seq<Reader>, n: nat)
    requires IsRun(es, states) && n < |es| && es[n].Read? && es[n].room > 0
    requires forall i :: 0 <= i < n && es[i].Read? ==> es[i].room > 0
    ensures var p := PollRead(states[n], es[n].room);
            && (p.poll.Ready? && p.bytes == [] <==> states[n].closed && Delivered(es, states, n) == Sent(es, n))
            && (p.poll.Pending? <==> !states[n].closed && Delivered(es, states, n) == Sent(es, n))
  {
    hide PollRead, Concat;
    RunAccounts(es, states, n);
    RoomConserves(states[n], es[n].room);
    var rest, got := states[n].Rest(), Delivered(es, states, n);
    assert got + rest == Sent(es, n);
    assert rest == [] <==> |got + rest| == |got|;
  }
}
