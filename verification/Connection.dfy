/** The connection lifecycle of packages/client/src/connection.ts, with listeners and transports that
    may call back into the connection at every call-out. */
module Connection {

  import opened Options

  type AttemptId = nat

  /** The transport of an attempt is named by the attempt. `handshaking` says that the promise of the
      attempt is still held by the lifecycle. */
  datatype Lifecycle =
    | Disconnected
    | Connecting(id: AttemptId, hasTransport: bool)
    | Connected(id: AttemptId, handshaking: bool)

  /** What a hello or an envelope carries. */
  type Payload(==, !new)

  datatype Handshake = Pending | Resolved(snapshot: Payload) | Rejected

  /** What became of the transport asked for by an attempt. `Refused` is a factory that failed. */
  datatype Transport = Asked | Refused | Yielded(closed: bool, reported: bool)

  datatype Message = Hello(snapshot: Payload) | HelloError | Envelope(body: Payload)

  /** What foreign code may do while it runs: use the connection, or play the part of a transport. */
  datatype Op =
    | Connect
    | Disconnect
    | Send
    | Data(id: AttemptId, decoded: Option<seq<Message>>)
    | Close(id: AttemptId)
    | Error(id: AttemptId)

  /** Foreign code: at each call-out it performs operations until it returns or throws. */
  datatype Cue = Do(op: Op) | Return(throws: bool)

  type Tape = seq<Cue>

  /** Foreign code that throws at once. */
  const THROWS: Tape := [Return(true)]

  datatype State = IsDisconnected | IsConnecting | IsConnected

  /** A call of foreign code: a listener is told of a state, the factory is asked, a transport is to send or to
      close, or a callback is handed a message. That is recorded with the connection that decoded the message
      and the lifecycle at that moment. */
  datatype Call =
    | Announces(state: State)
    | Asks(id: AttemptId)
    | SendsHello(id: AttemptId)
    | SendsFrame(id: AttemptId)
    | Closes(id: AttemptId)
    | Delivers(from: AttemptId, message: Message, seen: Lifecycle)

  /** A connection as a value, with every call of foreign code so far. */
  datatype View = View(
    lifecycle: Lifecycle,
    sequence: nat,
    handshakes: map<AttemptId, Handshake>,
    transports: map<AttemptId, Transport>,
    calls: seq<Call>)

  const NEW := View(Disconnected, 0, map[], map[], [])

  // ---------- The connection with foreign code that does nothing ----------

  predicate HasTransport(l: Lifecycle) {
    l.Connected? || (l.Connecting? && l.hasTransport)
  }

  predicate IsAt(l: Lifecycle, id: AttemptId) {
    !l.Disconnected? && l.id == id
  }

  function Calling(v: View, call: Call): View {
    v.(calls := v.calls + [call])
  }

  /** `#fail`. */
  function Fail(v: View): View {
    if v.lifecycle.Disconnected? then v
    else
      Calling(v.(lifecycle := Disconnected,
                 handshakes := if v.lifecycle.Connecting? || v.lifecycle.handshaking
                   then v.handshakes[v.lifecycle.id := Rejected] else v.handshakes),
              Announces(IsDisconnected))
  }

  predicate IsYielded(v: View, id: AttemptId) {
    id in v.transports && v.transports[id].Yielded?
  }

  function CloseOf(v: View, id: AttemptId): View
    requires IsYielded(v, id)
  {
    Calling(v.(transports := v.transports[id := v.transports[id].(closed := true)]), Closes(id))
  }

  /** `#failAndClose`. */
  function Shut(v: View): View {
    if HasTransport(v.lifecycle) && IsYielded(v, v.lifecycle.id) then CloseOf(Fail(v), v.lifecycle.id) else Fail(v)
  }

  /** `#handleMessage`. */
  function Hear(v: View, message: Message): View {
    match v.lifecycle
    case Disconnected => v
    case Connecting(id, hasTransport) =>
      if message.Hello? && hasTransport then
        Calling(Calling(v, Delivers(id, message, Connected(id, true))), Announces(IsConnected)).(
          lifecycle := Connected(id, false),
          handshakes := v.handshakes[id := Resolved(message.snapshot)])
      else Shut(v)
    case Connected(id, _) =>
      if message.Envelope? then Calling(v, Delivers(id, message, v.lifecycle)) else Shut(v)
  }

  function HearAll(v: View, messages: seq<Message>): View {
    if messages == [] then v else Hear(HearAll(v, messages[..|messages| - 1]), messages[|messages| - 1])
  }

  lemma {:induction false} HearsNoMore(v: View, messages: seq<Message>, i: nat)
    requires i <= |messages| && HearAll(v, messages[..i]).lifecycle.Disconnected?
    ensures HearAll(v, messages) == HearAll(v, messages[..i])
  {
    if i < |messages| {
      var front := messages[..|messages| - 1];
      assert front[..i] == messages[..i];
      HearsNoMore(v, front, i);
    } else {
      assert messages[..i] == messages;
    }
  }

  /** `#handleData`. */
  function HearData(v: View, id: AttemptId, decoded: Option<seq<Message>>): View {
    if !IsAt(v.lifecycle, id) then v
    else if !HasTransport(v.lifecycle) || decoded.None? then Shut(v)
    else HearAll(v, decoded.value)
  }

  /** `connect` up to the call of the factory. */
  function Open(v: View): View {
    if !v.lifecycle.Disconnected? then v
    else
      var id := v.sequence + 1;
      Calling(Calling(v, Announces(IsConnecting)), Asks(id)).(
        lifecycle := Connecting(id, false), sequence := id,
        handshakes := v.handshakes[id := Pending], transports := v.transports[id := Asked])
  }

  function Closing(v: View, id: AttemptId): View {
    var w := if IsYielded(v, id) then v.(transports := v.transports[id := v.transports[id].(reported := true)]) else v;
    if IsAt(v.lifecycle, id) then Fail(w) else w
  }

  function Done(v: View, op: Op): View {
    match op
    case Connect => Open(v)
    case Disconnect => Shut(v)
    case Send => if v.lifecycle.Connected? then Calling(v, SendsFrame(v.lifecycle.id)) else v
    case Data(id, decoded) => HearData(v, id, decoded)
    case Close(id) => Closing(v, id)
    case Error(id) => if IsAt(v.lifecycle, id) then Shut(v) else v
  }

  /** The factory's promise resolves. */
  function Yield(v: View, id: AttemptId): View {
    if v.lifecycle.Connecting? && v.lifecycle.id == id then
      Calling(v.(transports := v.transports[id := Yielded(false, false)], lifecycle := Connecting(id, true)),
              SendsHello(id))
    else Calling(v.(transports := v.transports[id := Yielded(true, false)]), Closes(id))
  }

  function Refuse(v: View, id: AttemptId): View {
    var w := v.(transports := v.transports[id := Refused]);
    if IsAt(v.lifecycle, id) then Fail(w) else w
  }

  predicate IsAsked(v: View, id: AttemptId) {
    id in v.transports && v.transports[id].Asked?
  }

  function Took(v: View, event: Event): View {
    match event
    case Operation(op) => Done(v, op)
    case Yields(id) => if IsAsked(v, id) then Yield(v, id) else v
    case Fails(id) => if IsAsked(v, id) then Refuse(v, id) else v
    case SendRejects(id) => if IsAt(v.lifecycle, id) && HasTransport(v.lifecycle) then Shut(v) else v
  }

  function TookAll(v: View, events: seq<Event>): View {
    if events == [] then v else Took(TookAll(v, events[..|events| - 1]), events[|events| - 1])
  }

  // ---------- The connection itself ----------

  class Connection {
    var lifecycle: Lifecycle
    var sequence: nat
    var handshakes: map<AttemptId, Handshake>
    var transports: map<AttemptId, Transport>
    /** Transports about to be closed by a call that is still running. */
    ghost var closing: set<AttemptId>
    ghost var calls: seq<Call>

    ghost function Now(): View
      reads this
    {
      View(lifecycle, sequence, handshakes, transports, calls)
    }

    ghost predicate HoldsPromise(id: AttemptId)
      reads this
    {
      && !lifecycle.Disconnected? && lifecycle.id == id
      && (lifecycle.Connected? ==> lifecycle.handshaking)
    }

    ghost predicate IsCurrentTransport(id: AttemptId)
      reads this
    {
      && !lifecycle.Disconnected? && lifecycle.id == id
      && (lifecycle.Connecting? ==> lifecycle.hasTransport)
    }

    ghost predicate IsOpen(id: AttemptId)
      reads this
    {
      id in transports && transports[id].Yielded? && !transports[id].closed && !transports[id].reported
    }

    /** The promise of an attempt is unsettled exactly while the lifecycle holds it; a transport that is
        neither closed nor has reported its own close is the current one or is being closed. */
    ghost predicate Inv()
      reads this
    {
      && (forall id :: id in handshakes <==> 0 < id <= sequence)
      && (forall id :: id in transports || id in closing ==> id in handshakes)
      && (!lifecycle.Disconnected? ==> lifecycle.id in handshakes && lifecycle.id !in closing)
      && (forall id :: id in handshakes ==> (handshakes[id].Pending? <==> HoldsPromise(id)))
      && (forall id :: IsCurrentTransport(id) ==> id in transports && transports[id].Yielded? && !transports[id].closed)
      && (forall id :: IsOpen(id) ==> IsCurrentTransport(id) || id in closing)
      && (lifecycle.Connected? && !lifecycle.handshaking ==> handshakes[lifecycle.id].Resolved?)
      && (forall d :: d in calls && d.Delivers? ==> d.seen.Connected? && d.seen.id == d.from)
    }

    /** What a synchronous run can change, whatever foreign code does in it: no factory yields within it. */
    twostate predicate Sync()
      reads this
    {
      && old(sequence) <= sequence && old(calls) <= calls
      && (lifecycle.Disconnected? || (!old(lifecycle).Disconnected? && lifecycle.id == old(lifecycle).id)
          || (lifecycle.id > old(sequence) && !IsCurrentTransport(lifecycle.id)))
      && (forall id :: id in old(handshakes) && !old(handshakes)[id].Pending? ==>
            id in handshakes && handshakes[id] == old(handshakes)[id])
      && (forall id :: id in old(transports) ==>
            id in transports && transports[id].Yielded? == old(transports)[id].Yielded?)
      && (forall id :: id in transports && transports[id].Yielded? ==>
            id in old(transports) && old(transports)[id].Yielded?)
      && (forall id :: id in old(transports) && old(transports)[id].Yielded? && old(transports)[id].closed ==>
            transports[id].closed)
    }

    /** The attempt that was current is over, and its promise is rejected if it was still held. */
    twostate predicate Dropped()
      reads this
    {
      && (!lifecycle.Disconnected? ==> lifecycle.id > old(sequence))
      && (forall id :: old(HoldsPromise(id)) ==> id in handshakes && handshakes[id] == Rejected)
    }

    /** The transport that was current has been closed. */
    twostate predicate Closed()
      reads this
    {
      forall id :: old(IsCurrentTransport(id)) ==> id in transports && transports[id].Yielded? && transports[id].closed
    }

    /** No synchronous run leaves a handshake half done that it did not find so, or gives an attempt its transport;
        and it cannot resolve the promise of one that it found half done. */
    twostate predicate Steady()
      reads this
    {
      && (lifecycle.Connected? && lifecycle.handshaking ==> lifecycle == old(lifecycle))
      && (lifecycle.Connecting? && !old(lifecycle).Disconnected? && lifecycle.id == old(lifecycle).id ==>
            lifecycle == old(lifecycle))
      && (old(lifecycle).Connected? && old(lifecycle).handshaking && lifecycle != old(lifecycle) ==>
            old(lifecycle).id in handshakes && handshakes[old(lifecycle).id].Rejected?)
    }

    constructor ()
      ensures Inv() && closing == {} && Now() == NEW
    {
      lifecycle, sequence, handshakes, transports, closing, calls := Disconnected, 0, map[], map[], {}, [];
    }

    /** A promise is settled at most once. */
    method Settle(id: AttemptId, outcome: Handshake)
      requires id in handshakes && handshakes[id].Pending? && !outcome.Pending?
      modifies this`handshakes
      ensures handshakes == old(handshakes)[id := outcome]
    {
      handshakes := handshakes[id := outcome];
    }

    /** A call of foreign code goes on record. */
    ghost method Record(call: Call)
      requires Inv() && (call.Delivers? ==> call.seen.Connected? && call.seen.id == call.from)
      modifies this`calls
      ensures Inv() && Sync() && Steady() && Now() == Calling(old(Now()), call)
    {
      calls := calls + [call];
    }

    /** Foreign code runs. */
    method CallOut(call: Call, tape: Tape) returns (rest: Tape, throws: bool)
      requires Inv() && (call.Delivers? ==> call.seen.Connected? && call.seen.id == call.from)
      modifies this
      ensures Inv() && Sync() && Steady() && closing == old(closing) && |rest| <= |tape|
      ensures old(calls) + [call] <= calls
      ensures tape == [] ==> !throws && Now() == Calling(old(Now()), call)
      ensures tape != [] && tape[0].Return? ==>
        rest == tape[1..] && throws == tape[0].throws && Now() == Calling(old(Now()), call)
      decreases |tape|, 0
    {
      hide Inv, Fail, Shut, Done;
      rest := tape;
      Record(call);
      while rest != []
        invariant Inv() && Sync() && Steady() && closing == old(closing) && |rest| <= |tape|
        invariant old(calls) + [call] <= calls
        invariant tape == [] ==> Now() == Calling(old(Now()), call)
        invariant tape != [] && tape[0].Return? ==> rest == tape && Now() == Calling(old(Now()), call)
        decreases |rest|
      {
        match rest[0] {
          case Return(b) => return rest[1..], b;
          case Do(op) => rest := Perform(op, rest[1..]);
        }
      }
      throws := false;
    }

    /** `onHandshake` and `onMessage` are only reached from the connection that is current. */
    method Deliver(from: AttemptId, message: Message, tape: Tape) returns (rest: Tape, throws: bool)
      requires Inv() && lifecycle.Connected? && lifecycle.id == from
      modifies this
      ensures old(calls) + [Delivers(from, message, old(lifecycle))] <= calls
      ensures tape == [] ==> !throws && Now() == Calling(old(Now()), Delivers(from, message, old(lifecycle)))
      ensures tape == THROWS ==>
        rest == [] && throws && Now() == Calling(old(Now()), Delivers(from, message, old(lifecycle)))
      ensures Inv() && Sync() && Steady() && closing == old(closing) && |rest| <= |tape|
      decreases |tape|, 1
    {
      rest, throws := CallOut(Delivers(from, message, lifecycle), tape);
    }

    /** The lifecycle leaves its attempt and rejects the promise it held; with `closeAfter` the transport is
        about to be closed. */
    method Leave(ghost closeAfter: bool)
      requires Inv() && !lifecycle.Disconnected? && (IsOpen(lifecycle.id) ==> closeAfter)
      modifies this`lifecycle, this`handshakes, this`closing
      ensures Inv() && lifecycle.Disconnected?
      ensures closing == if closeAfter then old(closing) + {old(lifecycle).id} else old(closing)
      ensures handshakes ==
        if old(HoldsPromise(lifecycle.id)) then old(handshakes)[old(lifecycle).id := Rejected] else old(handshakes)
    {
      var left := lifecycle;
      lifecycle := Disconnected;
      if closeAfter { closing := closing + {left.id}; }
      if left.Connecting? || left.handshaking { Settle(left.id, Rejected); }
    }

    /** `#fail`; `closeAfter` says that the caller closes the transport when it gets control back. */
    method FailNow(ghost closeAfter: bool, tape: Tape) returns (rest: Tape)
      requires Inv()
      requires !lifecycle.Disconnected? && IsOpen(lifecycle.id) ==> closeAfter
      modifies this
      ensures Inv() && Sync() && Steady() && |rest| <= |tape|
      ensures closing ==
        if closeAfter && !old(lifecycle).Disconnected? then old(closing) + {old(lifecycle).id} else old(closing)
      ensures Dropped()
      ensures !old(lifecycle).Disconnected? ==> old(calls) + [Announces(IsDisconnected)] <= calls
      ensures tape == [] ==> Now() == Fail(old(Now()))
      decreases |tape|, 1
    {
      if lifecycle.Disconnected? { return tape; }
      Leave(closeAfter);
      hide Inv;
      var ignored;
      rest, ignored := CallOut(Announces(IsDisconnected), tape);
    }

    method CloseTransport(id: AttemptId, tape: Tape) returns (rest: Tape)
      requires Inv() && id in transports && transports[id].Yielded? && !IsCurrentTransport(id)
      modifies this
      ensures Inv() && Sync() && Steady() && closing == old(closing) - {id} && |rest| <= |tape|
      ensures id in transports && transports[id].Yielded? && transports[id].closed
      ensures tape == [] ==> Now() == CloseOf(old(Now()), id)
      decreases |tape|, 1
    {
      transports := transports[id := transports[id].(closed := true)];
      closing := closing - {id};
      var ignored;
      rest, ignored := CallOut(Closes(id), tape);
    }

    /** `#failAndClose`. */
    method FailAndClose(tape: Tape) returns (rest: Tape)
      requires Inv()
      modifies this
      ensures Inv() && Sync() && Steady() && closing == old(closing) && |rest| <= |tape|
      ensures Dropped() && Closed()
      ensures tape == [] ==> Now() == Shut(old(Now()))
      decreases |tape|, 2
    {
      var left := lifecycle;
      var hasTransport := left.Connected? || (left.Connecting? && left.hasTransport);
      rest := FailNow(hasTransport, tape);
      if hasTransport { rest := CloseTransport(left.id, rest); }
    }

    /** The first half of the handshake: the snapshot is delivered. `settled` says that this did not
        end in a failure or in another lifecycle. */
    method Establish(hello: Message, tape: Tape) returns (rest: Tape, settled: bool)
      requires Inv() && lifecycle.Connecting? && lifecycle.hasTransport
      modifies this
      ensures Inv() && Sync() && closing == old(closing) && |rest| <= |tape|
      ensures old(calls) + [Delivers(old(lifecycle).id, hello, Connected(old(lifecycle).id, true))] <= calls
      ensures tape == [] ==>
        settled
        && Now() == Calling(old(Now()).(lifecycle := Connected(old(lifecycle).id, true)),
                            Delivers(old(lifecycle).id, hello, Connected(old(lifecycle).id, true)))
      ensures tape == THROWS ==>
        !settled
        && Now() == Shut(Calling(old(Now()).(lifecycle := Connected(old(lifecycle).id, true)),
                                 Delivers(old(lifecycle).id, hello, Connected(old(lifecycle).id, true))))
      ensures !settled ==> old(lifecycle).id in handshakes && handshakes[old(lifecycle).id].Rejected?
      ensures settled ==> lifecycle == Connected(old(lifecycle).id, true)
      ensures !settled ==> !(lifecycle.Connected? && lifecycle.handshaking)
      ensures lifecycle.Connecting? ==> lifecycle.id != old(lifecycle).id
      decreases |tape|, 3
    {
      var connected := Connected(lifecycle.id, true);
      lifecycle := connected;
      var failed;
      rest, failed := Deliver(connected.id, hello, tape);
      settled := !failed && lifecycle == connected;
      if failed && lifecycle == connected { rest := FailAndClose(rest); }
    }

    /** The second half: listeners learn of the new state, then the promise is resolved, unless the
        connection was lost or replaced meanwhile. */
    method Announce(snapshot: Payload, tape: Tape) returns (rest: Tape)
      requires Inv() && lifecycle.Connected? && lifecycle.handshaking
      modifies this
      ensures Inv() && Sync() && closing == old(closing) && |rest| <= |tape|
      ensures !(lifecycle.Connected? && lifecycle.handshaking)
      ensures lifecycle.Connecting? ==> lifecycle.id != old(lifecycle).id
      ensures old(calls) + [Announces(IsConnected)] <= calls
      ensures old(lifecycle).id in handshakes
        && (handshakes[old(lifecycle).id].Rejected? || handshakes[old(lifecycle).id] == Resolved(snapshot))
      ensures tape == [] ==>
        Now() == Calling(old(Now()), Announces(IsConnected)).(
                   lifecycle := Connected(old(lifecycle).id, false),
                   handshakes := old(handshakes)[old(lifecycle).id := Resolved(snapshot)])
      decreases |tape|, 2
    {
      var connected := lifecycle;
      var ignored;
      rest, ignored := CallOut(Announces(IsConnected), tape);
      if lifecycle != connected { return; }
      lifecycle := Connected(connected.id, false);
      Settle(connected.id, Resolved(snapshot));
    }

    /** `#handleMessage` for a server hello. */
    method CompleteHandshake(hello: Message, tape: Tape) returns (rest: Tape)
      requires Inv() && lifecycle.Connecting? && lifecycle.hasTransport && hello.Hello?
      modifies this
      ensures Inv() && Sync() && Steady() && closing == old(closing) && |rest| <= |tape|
      ensures old(calls) + [Delivers(old(lifecycle).id, hello, Connected(old(lifecycle).id, true))] <= calls
      ensures old(lifecycle).id in handshakes
        && (handshakes[old(lifecycle).id].Rejected? || handshakes[old(lifecycle).id] == Resolved(hello.snapshot))
      ensures tape == [] ==> Now() == Hear(old(Now()), hello)
      ensures tape == THROWS ==>
        Now() == Shut(Calling(old(Now()).(lifecycle := Connected(old(lifecycle).id, true)),
                              Delivers(old(lifecycle).id, hello, Connected(old(lifecycle).id, true))))
      decreases |tape|, 4
    {
      var settled;
      rest, settled := Establish(hello, tape);
      if settled { rest := Announce(hello.snapshot, rest); }
    }

    /** What became of a message: without a connection, nothing; out of place, the end of the attempt or connection
        it found; the hello, handed on and the promise settled, with it if at all; an envelope, handed on. */
    twostate predicate Treated(from: AttemptId, message: Message)
      reads this
    {
      match old(lifecycle)
      case Disconnected => unchanged(this)
      case Connecting(id, hasTransport) =>
        if message.Hello? && hasTransport then
          && old(calls) + [Delivers(id, message, Connected(id, true))] <= calls && id in handshakes
          && (handshakes[id].Rejected? || handshakes[id] == Resolved(message.snapshot))
        else Dropped() && Closed()
      case Connected(_, _) =>
        if message.Envelope? then old(calls) + [Delivers(from, message, old(lifecycle))] <= calls
        else Dropped() && Closed()
    }

    /** `#handleMessage` of a message decoded by the connection of attempt `from`. When foreign code has
        replaced that connection meanwhile, the message fails the new attempt, but it is not delivered. */
    method HandleMessage(from: AttemptId, message: Message, tape: Tape) returns (rest: Tape, throws: bool)
      requires Inv()
      requires !lifecycle.Disconnected? ==> lifecycle.id == from || !IsCurrentTransport(lifecycle.id)
      modifies this
      ensures Inv() && Sync() && Steady() && closing == old(closing) && |rest| <= |tape|
      ensures Treated(from, message)
      ensures tape == [] ==> !throws && Now() == Hear(old(Now()), message)
      ensures tape == THROWS && old(lifecycle).Connected? && message.Envelope? ==>
        throws && Now() == Hear(old(Now()), message)
      decreases |tape|, 5
    {
      rest, throws := tape, false;
      match lifecycle {
        case Disconnected =>
        case Connecting(id, hasTransport) =>
          if !message.Hello? || !hasTransport { rest := FailAndClose(rest); }
          else { rest := CompleteHandshake(message, rest); }
        case Connected(id, _) =>
          if !message.Envelope? { rest := FailAndClose(rest); }
          else { rest, throws := Deliver(from, message, rest); }
      }
    }

    /** Data that ends its connection: it comes before the transport, or cannot be decoded. */
    ghost predicate IsDead(id: AttemptId, decoded: Option<seq<Message>>)
      reads this
    {
      && !lifecycle.Disconnected? && lifecycle.id == id
      && ((lifecycle.Connecting? && !lifecycle.hasTransport) || decoded.None?)
    }

    /** `#handleData`; `decoded` is `None` when the decoder throws. */
    method HandleData(id: AttemptId, decoded: Option<seq<Message>>, tape: Tape) returns (rest: Tape)
      requires Inv()
      modifies this
      ensures Inv() && Sync() && Steady() && closing == old(closing) && |rest| <= |tape|
      ensures old(lifecycle).Disconnected? || old(lifecycle).id != id ==> unchanged(this)
      ensures old(IsDead(id, decoded)) ==> Dropped() && Closed()
      ensures tape == [] ==> Now() == HearData(old(Now()), id, decoded)
      decreases |tape|, 6, 1
    {
      rest := tape;
      if lifecycle.Disconnected? || lifecycle.id != id { return; }
      if (lifecycle.Connecting? && !lifecycle.hasTransport) || decoded.None? {
        rest := FailAndClose(rest);
        return;
      }
      rest := HandleAll(id, decoded.value, rest);
    }

    method HandleAll(id: AttemptId, messages: seq<Message>, tape: Tape) returns (rest: Tape)
      requires Inv() && !lifecycle.Disconnected? && lifecycle.id == id && HasTransport(lifecycle)
      modifies this
      ensures Inv() && Sync() && Steady() && closing == old(closing) && |rest| <= |tape|
      ensures tape == [] ==> Now() == HearAll(old(Now()), messages)
      ensures tape == THROWS && old(lifecycle).Connected? && messages != [] && messages[0].Envelope? ==>
        Now() == Hear(old(Now()), messages[0])
      decreases |tape|, 6, 0
    {
      assert id in handshakes && id <= sequence;
      hide Inv, Treated, Hear, Shut, IsAt;
      rest := tape;
      for i := 0 to |messages|
        invariant Inv() && Sync() && Steady() && closing == old(closing) && |rest| <= |tape|
        invariant tape == [] ==>
          Now() == HearAll(old(Now()), messages[..i])
        invariant tape == THROWS && old(lifecycle).Connected? && messages != [] && messages[0].Envelope? ==>
          i == 0 && rest == tape && unchanged(this)
      {
        if lifecycle.Disconnected? {
          if tape == [] { HearsNoMore(old(Now()), messages, i); }
          return;
        }
        var throws;
        rest, throws := HandleMessage(id, messages[i], rest);
        if throws { return; }
        assert messages[..i + 1][..i] == messages[..i];
      }
      assert messages[..|messages|] == messages;
    }

    method BeginAttempt(tape: Tape) returns (id: AttemptId, rest: Tape)
      requires Inv() && lifecycle.Disconnected?
      modifies this
      ensures Inv() && Sync() && Steady() && closing == old(closing) && |rest| <= |tape|
      ensures id == old(sequence) + 1 <= sequence && id in handshakes && id !in old(transports)
      ensures id in transports ==> !transports[id].Yielded?
      ensures old(calls) + [Announces(IsConnecting)] <= calls
      ensures tape == [] ==>
        Now() == Calling(old(Now()), Announces(IsConnecting)).(
                   lifecycle := Connecting(id, false), sequence := id, handshakes := old(handshakes)[id := Pending])
      decreases |tape|, 5
    {
      sequence := sequence + 1;
      id := sequence;
      handshakes := handshakes[id := Pending];
      lifecycle := Connecting(id, false);
      var ignored;
      rest, ignored := CallOut(Announces(IsConnecting), tape);
    }

    /** The transport factory throws, or its promise rejects. */
    method FactoryFails(id: AttemptId, tape: Tape) returns (rest: Tape)
      requires Inv() && id in transports && !transports[id].Yielded?
      modifies this
      ensures Inv() && Sync() && Steady() && closing == old(closing) && |rest| <= |tape|
      ensures old(lifecycle).Connecting? && old(lifecycle).id == id ==> Dropped()
      ensures id in transports
      ensures tape == [] ==> Now() == Refuse(old(Now()), id)
      decreases |tape|, 4
    {
      rest := tape;
      transports := transports[id := Refused];
      if !lifecycle.Disconnected? && lifecycle.id == id { rest := FailNow(false, rest); }
    }

    method MarkAsked(id: AttemptId)
      requires Inv() && id in handshakes && (id in transports ==> !transports[id].Yielded?)
      modifies this`transports
      ensures Inv() && Sync() && Steady() && transports == old(transports)[id := Asked]
    {
      transports := transports[id := Asked];
    }

    /** The factory is called. */
    method CallFactory(id: AttemptId, tape: Tape) returns (rest: Tape, throws: bool)
      requires Inv() && id in handshakes && (id in transports ==> !transports[id].Yielded?)
      modifies this
      ensures Inv() && Sync() && Steady() && closing == old(closing) && |rest| <= |tape|
      ensures id in transports && !transports[id].Yielded? && old(calls) + [Asks(id)] <= calls
      ensures tape == [] ==>
        !throws && Now() == Calling(old(Now()), Asks(id)).(transports := old(transports)[id := Asked])
      ensures tape == THROWS ==>
        rest == [] && throws && Now() == Calling(old(Now()), Asks(id)).(transports := old(transports)[id := Asked])
      decreases |tape|, 4
    {
      MarkAsked(id);
      hide Inv;
      rest, throws := CallOut(Asks(id), tape);
    }

    /** The synchronous part of `#openTransport`, also for an attempt that is over already. */
    method AskFactory(id: AttemptId, tape: Tape) returns (rest: Tape)
      requires Inv() && id in handshakes && (id in transports ==> !transports[id].Yielded?)
      modifies this
      ensures Inv() && Sync() && Steady() && closing == old(closing) && |rest| <= |tape|
      ensures id in transports && old(calls) + [Asks(id)] <= calls
      ensures tape == [] ==> Now() == Calling(old(Now()), Asks(id)).(transports := old(transports)[id := Asked])
      ensures tape == THROWS ==>
        Now() == Refuse(Calling(old(Now()), Asks(id)).(transports := old(transports)[id := Asked]), id)
      decreases |tape|, 5
    {
      var throws;
      rest, throws := CallFactory(id, tape);
      if throws { rest := FactoryFails(id, rest); }
    }

    /** `connect`, up to and including the call of the transport factory. */
    method ConnectNow(tape: Tape) returns (rest: Tape)
      requires Inv()
      modifies this
      ensures Inv() && Sync() && Steady() && closing == old(closing) && |rest| <= |tape|
      ensures !old(lifecycle).Disconnected? ==> unchanged(this)
      ensures old(lifecycle).Disconnected? ==> 
        && old(sequence) + 1 in handshakes && old(sequence) + 1 in transports
        && old(calls) + [Announces(IsConnecting)] <= calls && Asks(old(sequence) + 1) in calls
      ensures tape == [] ==> Now() == Open(old(Now()))
      decreases |tape|, 7
    {
      if !lifecycle.Disconnected? { return tape; }
      var id;
      id, rest := BeginAttempt(tape);
      ghost var begun := calls;
      rest := AskFactory(id, rest);
      assert (begun + [Asks(id)])[|begun|] == calls[|begun|];
    }

    /** `send`; a call that is refused changes nothing. */
    method SendNow(tape: Tape) returns (rest: Tape)
      requires Inv()
      modifies this
      ensures Inv() && Sync() && Steady() && closing == old(closing) && |rest| <= |tape|
      ensures !old(lifecycle).Connected? ==> unchanged(this)
      ensures old(lifecycle).Connected? ==> old(calls) + [SendsFrame(old(lifecycle).id)] <= calls
      ensures tape == [] ==> Now() == Done(old(Now()), Send)
      ensures tape == THROWS && old(lifecycle).Connected? ==> Now() == Shut(Done(old(Now()), Send))
      decreases |tape|, 8
    {
      rest := tape;
      if lifecycle.Connected? {
        var throws;
        rest, throws := CallOut(SendsFrame(lifecycle.id), rest);
        if throws { rest := FailAndClose(rest); }
      }
    }

    /** `onClose` of a transport. */
    method HandleClose(id: AttemptId, tape: Tape) returns (rest: Tape)
      requires Inv()
      modifies this
      ensures Inv() && Sync() && Steady() && closing == old(closing) && |rest| <= |tape|
      ensures !old(lifecycle).Disconnected? && old(lifecycle).id == id ==> Dropped()
      ensures tape == [] ==> Now() == Closing(old(Now()), id)
      decreases |tape|, 8
    {
      rest := tape;
      if id in transports && transports[id].Yielded? { MarkReported(id); }
      if !lifecycle.Disconnected? && lifecycle.id == id {
        assert !IsOpen(id);
        hide Inv, Fail;
        rest := FailNow(false, rest);
      }
    }

    method MarkReported(id: AttemptId)
      requires Inv() && IsYielded(Now(), id)
      modifies this`transports
      ensures Inv() && Sync() && Steady()
      ensures transports == old(transports)[id := old(transports)[id].(reported := true)]
    {
      transports := transports[id := transports[id].(reported := true)];
    }

    /** One synchronous operation of foreign code. */
    method Perform(op: Op, tape: Tape) returns (rest: Tape)
      requires Inv()
      modifies this
      ensures Inv() && Sync() && Steady() && closing == old(closing) && |rest| <= |tape|
      ensures op.Disconnect? ==> Dropped() && Closed()
      ensures tape == [] ==> Now() == Done(old(Now()), op)
      decreases |tape|, 9
    {
      rest := tape;
      match op {
        case Connect => rest := ConnectNow(rest);
        case Disconnect => rest := FailAndClose(rest);
        case Send => rest := SendNow(rest);
        case Data(id, decoded) => rest := HandleData(id, decoded, rest);
        case Close(id) => rest := HandleClose(id, rest);
        case Error(id) => if !lifecycle.Disconnected? && lifecycle.id == id { rest := FailAndClose(rest); }
      }
    }

    // ---------- What arrives between synchronous runs ----------

    /** The factory's promise resolves: `#openTransport` goes on, with the transport of attempt `id`. */
    method FactoryYields(id: AttemptId, tape: Tape)
      requires Inv() && closing == {} && id in transports && transports[id].Asked?
      modifies this
      ensures Inv() && closing == {}
      ensures lifecycle.Connected? && lifecycle.handshaking ==> lifecycle == old(lifecycle)
      ensures id in transports && transports[id].Yielded?
      ensures !(old(lifecycle).Connecting? && old(lifecycle).id == id) ==>
        transports[id].closed && old(calls) + [Closes(id)] <= calls
      ensures old(lifecycle).Connecting? && old(lifecycle).id == id ==>
        && old(calls) + [SendsHello(id)] <= calls
        && (IsAt(lifecycle, id) ==> IsCurrentTransport(id) && !transports[id].closed)
      ensures tape == [] ==> Now() == Yield(old(Now()), id)
      ensures tape == THROWS && old(lifecycle).Connecting? && old(lifecycle).id == id ==>
        Now() == Shut(Yield(old(Now()), id))
    {
      var rest := tape;
      if lifecycle.Connecting? && lifecycle.id == id {
        transports := transports[id := Yielded(false, false)];
        lifecycle := Connecting(id, true);
        SendHello(id, tape);
      } else {
        transports := transports[id := Yielded(true, false)];
        var ignored;
        rest, ignored := CallOut(Closes(id), rest);
      }
    }

    method SendHello(id: AttemptId, tape: Tape)
      requires Inv() && closing == {}
      modifies this
      ensures Inv() && Sync() && Steady() && closing == {}
      ensures old(calls) + [SendsHello(id)] <= calls
      ensures tape == [] ==> Now() == Calling(old(Now()), SendsHello(id))
      ensures tape == THROWS && old(IsAt(lifecycle, id)) ==> Now() == Shut(Calling(old(Now()), SendsHello(id)))
    {
      var rest, throws := CallOut(SendsHello(id), tape);
      if throws && !lifecycle.Disconnected? && lifecycle.id == id { rest := FailAndClose(rest); }
    }

    /** The promise of a frame sent on the transport of attempt `id` rejects. */
    method SendingFails(id: AttemptId, tape: Tape)
      requires Inv() && closing == {}
      modifies this
      ensures Inv() && Steady() && closing == {}
      ensures old(IsCurrentTransport(id)) ==> Dropped() && Closed()
      ensures !old(IsCurrentTransport(id)) ==> unchanged(this)
      ensures tape == [] ==> Now() == Took(old(Now()), SendRejects(id))
    {
      if !lifecycle.Disconnected? && lifecycle.id == id && (lifecycle.Connected? || lifecycle.hasTransport) {
        var rest := FailAndClose(tape);
      }
    }

    /** One event from outside. */
    method Receive(event: Event, tape: Tape)
      requires Inv() && closing == {} && !(lifecycle.Connected? && lifecycle.handshaking)
      modifies this
      ensures Inv() && closing == {} && !(lifecycle.Connected? && lifecycle.handshaking)
      ensures tape == [] ==> Now() == Took(old(Now()), event)
    {
      hide Inv, Done, Yield, Refuse, Shut;
      match event {
        case Operation(op) => var rest := Perform(op, tape);
        case Yields(id) => if id in transports && transports[id].Asked? { FactoryYields(id, tape); }
        case Fails(id) => if id in transports && transports[id].Asked? { var rest := FactoryFails(id, tape); }
        case SendRejects(id) => SendingFails(id, tape);
      }
    }
  }

  datatype Event =
    | Operation(op: Op)
    | Yields(id: AttemptId)
    | Fails(id: AttemptId)
    | SendRejects(id: AttemptId)

  function EventsOf(events: seq<(Event, Tape)>): (r: seq<Event>)
    ensures |r| == |events|
  {
    seq(|events|, i requires 0 <= i < |events| => events[i].0)
  }

  /** Over every run: each attempt that the lifecycle has left has its promise settled, each transport
      yielded is current, has been closed, or has reported its own close, and callbacks are only reached from
      the connection that is current at that moment. */
  method Run(events: seq<(Event, Tape)>) returns (c: Connection)
    ensures c.Inv() && c.closing == {}
    ensures forall id :: 0 < id <= c.sequence && !c.HoldsPromise(id) ==>
      id in c.handshakes && !c.handshakes[id].Pending?
    ensures c.lifecycle.Connected? ==> c.handshakes[c.lifecycle.id].Resolved?
    ensures forall id :: c.IsOpen(id) ==> c.IsCurrentTransport(id)
    ensures forall d :: d in c.calls && d.Delivers? ==> d.seen.Connected? && d.seen.id == d.from
    ensures (forall i :: 0 <= i < |events| ==> events[i].1 == []) ==> c.Now() == TookAll(NEW, EventsOf(events))
  {
    c := new Connection();
    hide Took;
    for i := 0 to |events|
      invariant c.Inv() && c.closing == {} && !(c.lifecycle.Connected? && c.lifecycle.handshaking)
      invariant fresh(c)
      invariant (forall k :: 0 <= k < |events| ==> events[k].1 == []) ==> c.Now() == TookAll(NEW, EventsOf(events[..i]))
    {
      var (event, tape) := events[i];
      c.Receive(event, tape);
      assert EventsOf(events[..i + 1])[..i] == EventsOf(events[..i]);
    }
    assert events[..|events|] == events;
  }
}
