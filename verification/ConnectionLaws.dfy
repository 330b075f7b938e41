/** What runs of a connection do whose callbacks do nothing, told without the code: when an attempt ends, what becomes
    of its promise and its transport, and what foreign code sees. */
module ConnectionLaws {

  import opened Connection
  import opened Options

  /** What holds between two events. */
  ghost predicate Good(v: View) {
    && (forall id :: id in v.handshakes <==> 0 < id <= v.sequence)
    && (forall id :: id in v.transports ==> id in v.handshakes)
    && (forall id :: id in v.handshakes ==>
          (v.handshakes[id].Pending? <==> v.lifecycle.Connecting? && v.lifecycle.id == id))
    && (forall id :: IsOpen(v, id) <==> IsAt(v.lifecycle, id) && HasTransport(v.lifecycle))
    && match v.lifecycle
       case Disconnected => true
       case Connecting(id, hasTransport) => id in v.handshakes && (!hasTransport ==> IsAsked(v, id))
       case Connected(id, handshaking) => id in v.handshakes && !handshaking && v.handshakes[id].Resolved?
  }

  /** The transport was yielded, and neither closed nor has it reported its own close. */
  predicate IsOpen(v: View, id: AttemptId) {
    IsYielded(v, id) && !v.transports[id].closed && !v.transports[id].reported
  }

  /** Of these messages one is out of place: the first of a connection is a hello, and the others are envelopes. */
  predicate Spoils(l: Lifecycle, messages: seq<Message>) {
    exists i :: 0 <= i < |messages| && if i == 0 && l.Connecting? then !messages[i].Hello? else !messages[i].Envelope?
  }

  /** The event ends the attempt or connection of `v`. */
  predicate Ends(v: View, event: Event) {
    !v.lifecycle.Disconnected? &&
    match event
    case Operation(Disconnect) => true
    case Operation(Data(id, decoded)) =>
      IsAt(v.lifecycle, id)
      && (!HasTransport(v.lifecycle) || decoded.None? || Spoils(v.lifecycle, decoded.value))
    case Operation(Close(id)) => IsAt(v.lifecycle, id)
    case Operation(Error(id)) => IsAt(v.lifecycle, id)
    case Fails(id) => IsAt(v.lifecycle, id) && IsAsked(v, id)
    case SendRejects(id) => IsAt(v.lifecycle, id) && HasTransport(v.lifecycle)
    case _ => false
  }

  /** Data for an attempt that has its transport and waits for its hello; it begins with one. */
  predicate Greets(v: View, event: Event) {
    && event.Operation? && event.op.Data? && v.lifecycle == Connecting(event.op.id, true)
    && event.op.decoded.Some? && event.op.decoded.value != [] && event.op.decoded.value[0].Hello?
  }

  /** Where the lifecycle goes from `v`. */
  function Next(v: View, event: Event): Lifecycle {
    if Ends(v, event) then Disconnected
    else if Greets(v, event) then Connected(v.lifecycle.id, false)
    else match event
      case Operation(Connect) => if v.lifecycle.Disconnected? then Connecting(v.sequence + 1, false) else v.lifecycle
      case Yields(id) => if v.lifecycle == Connecting(id, false) then Connecting(id, true) else v.lifecycle
      case _ => v.lifecycle
  }

  /** The current transport is closed with its attempt. */
  lemma ShutIs(v: View)
    requires Good(v)
    ensures var w := Shut(v);
      && Good(w) && w.lifecycle.Disconnected? && w.sequence == v.sequence
      && w.handshakes == (if v.lifecycle.Connecting? then v.handshakes[v.lifecycle.id := Rejected] else v.handshakes)
      && w.transports == (if HasTransport(v.lifecycle) then v.transports[v.lifecycle.id := Yielded(true, false)]
                          else v.transports)
  {
    if HasTransport(v.lifecycle) { assert IsOpen(v, v.lifecycle.id); }
    forall id ensures IsOpen(Shut(v), id) <==> false { assert IsOpen(v, id) ==> IsAt(v.lifecycle, id); }
  }

  lemma HelloIs(v: View, message: Message)
    requires Good(v) && v.lifecycle.Connecting? && v.lifecycle.hasTransport && message.Hello?
    ensures var w, id := Hear(v, message), v.lifecycle.id;
      && Good(w) && w.lifecycle == Connected(id, false) && w.sequence == v.sequence
      && w.handshakes == v.handshakes[id := Resolved(message.snapshot)] && w.transports == v.transports
  {
    forall id ensures IsOpen(Hear(v, message), id) <==> IsOpen(v, id) {}
  }

  lemma EnvelopeIs(v: View, message: Message)
    requires Good(v) && v.lifecycle.Connected? && message.Envelope?
    ensures Good(Hear(v, message)) && Hear(v, message) == v.(calls := Hear(v, message).calls)
  {
    forall id ensures IsOpen(Hear(v, message), id) <==> IsOpen(v, id) {}
  }

  lemma {:induction false} HearAllIs(v: View, messages: seq<Message>)
    requires Good(v) && HasTransport(v.lifecycle)
    ensures var w, id := HearAll(v, messages), v.lifecycle.id;
      && Good(w) && w.sequence == v.sequence
      && w.lifecycle == (if Spoils(v.lifecycle, messages) then Disconnected
                         else if messages == [] then v.lifecycle else Connected(id, false))
      && w.handshakes == (if messages == [] || v.lifecycle.Connected? then v.handshakes
                          else v.handshakes[id :=
                            if messages[0].Hello? then Resolved(messages[0].snapshot) else Rejected])
      && w.transports ==
         (if Spoils(v.lifecycle, messages) then v.transports[id := Yielded(true, false)] else v.transports)
  {
    if messages == [] {
      assert !Spoils(v.lifecycle, messages);
    } else {
      var front, last := messages[..|messages| - 1], |messages| - 1;
      HearAllIs(v, front);
      SpoilsNext(v.lifecycle, messages);
      var u := HearAll(v, front);
      hide Good, Spoils, HasTransport, Shut;
      if u.lifecycle.Disconnected? {
        assert HearAll(v, messages) == u;
      } else if u.lifecycle.Connecting? && messages[last].Hello? {
        HelloIs(u, messages[last]);
      } else if u.lifecycle.Connected? && messages[last].Envelope? {
        EnvelopeIs(u, messages[last]);
      } else {
        ShutIs(u);
      }
    }
  }

  lemma SpoilsNext(l: Lifecycle, messages: seq<Message>)
    requires messages != []
    ensures var last := |messages| - 1;
      Spoils(l, messages) <==>
        Spoils(l, messages[..last])
        || if last == 0 && l.Connecting? then !messages[last].Hello? else !messages[last].Envelope?
  {
    var front, last := messages[..|messages| - 1], |messages| - 1;
    assert forall i :: 0 <= i < last ==> front[i] == messages[i];
    assert if last == 0 && l.Connecting? then !messages[last].Hello? ==> Spoils(l, messages)
      else !messages[last].Envelope? ==> Spoils(l, messages);
  }

  // ---------- One event ----------

  predicate IsPending(v: View, id: AttemptId) {
    id in v.handshakes && v.handshakes[id].Pending?
  }

  predicate Begins(v: View, event: Event) {
    event == Operation(Connect) && v.lifecycle.Disconnected?
  }

  /** A promise is settled by the hello of its attempt, or rejected when the attempt ends before that. */
  ghost predicate PromisesAre(v: View, event: Event, w: View) {
    && (forall id :: id in w.handshakes <==> id in v.handshakes || (Begins(v, event) && id == v.sequence + 1))
    && (forall id :: id in w.handshakes ==>
          w.handshakes[id] ==
            if id !in v.handshakes then Pending
            else if !v.handshakes[id].Pending? then v.handshakes[id]
            else if Greets(v, event) then Resolved(event.op.decoded.value[0].snapshot)
            else if Ends(v, event) then Rejected else Pending)
  }

  /** A transport is yielded, or refused, once. One that comes too late is closed at once, and one that is open is
      closed when its attempt ends, unless by its own close. */
  ghost predicate TransportsAre(v: View, event: Event, w: View) {
    && (forall id :: id in w.transports <==> id in v.transports || (Begins(v, event) && id == v.sequence + 1))
    && (forall id :: id in w.transports ==>
          w.transports[id] ==
            if id !in v.transports then Asked
            else match v.transports[id]
              case Refused => Refused
              case Asked =>
                if event == Fails(id) then Refused
                else if event == Yields(id) then Yielded(!IsAt(v.lifecycle, id), false) else Asked
              case Yielded(closed, reported) =>
                Yielded(closed || (IsOpen(v, id) && Ends(v, event) && event != Operation(Close(id))),
                        reported || event == Operation(Close(id))))
  }

  ghost predicate StepIs(v: View, event: Event, w: View) {
    && Good(w) && w.lifecycle == Next(v, event) && w.sequence == v.sequence + (if Begins(v, event) then 1 else 0)
    && PromisesAre(v, event, w) && TransportsAre(v, event, w)
  }

  /** Nothing that matters has changed. */
  lemma Stays(v: View, event: Event, w: View)
    requires Good(v) && w == v.(calls := w.calls) && !Ends(v, event) && !Greets(v, event) && !Begins(v, event)
    requires Next(v, event) == v.lifecycle
    requires event.Fails? || event.Yields? ==> !IsAsked(v, event.id)
    requires event.Operation? && event.op.Close? ==> !IsYielded(v, event.op.id)
    ensures StepIs(v, event, w)
  {
    forall id ensures IsOpen(w, id) <==> IsOpen(v, id) {}
    hide Ends, Greets;
  }

  lemma Shuts(v: View, event: Event)
    requires Good(v) && Ends(v, event) && !Greets(v, event)
    requires (!event.Operation? || !event.op.Close?) && !event.Yields? && !event.Fails?
    ensures StepIs(v, event, Shut(v))
  {
    ShutIs(v);
    hide Ends, Greets, Good, Shut;
    assert Good(v) ==> forall id :: (IsOpen(v, id) <==> IsAt(v.lifecycle, id) && HasTransport(v.lifecycle));
  }

  lemma OpenIs(v: View)
    requires Good(v)
    ensures StepIs(v, Operation(Connect), Took(v, Operation(Connect)))
  {
    var w := Took(v, Operation(Connect));
    if v.lifecycle.Disconnected? {
      forall id ensures IsOpen(w, id) <==> IsOpen(v, id) {}
    } else {
      Stays(v, Operation(Connect), w);
    }
  }

  lemma DataIs(v: View, id: AttemptId, decoded: Option<seq<Message>>)
    requires Good(v)
    ensures var event := Operation(Data(id, decoded)); StepIs(v, event, Took(v, event))
  {
    var event := Operation(Data(id, decoded));
    if !IsAt(v.lifecycle, id) {
      Stays(v, event, v);
    } else if !HasTransport(v.lifecycle) || decoded.None? {
      Shuts(v, event);
    } else {
      HearAllIs(v, decoded.value);
      HeardIs(v, id, decoded.value, HearAll(v, decoded.value));
    }
  }

  lemma HeardIs(v: View, id: AttemptId, messages: seq<Message>, w: View)
    requires Good(v) && Good(w) && IsAt(v.lifecycle, id) && HasTransport(v.lifecycle) && w.sequence == v.sequence
    requires w.lifecycle == (if Spoils(v.lifecycle, messages) then Disconnected
                             else if messages == [] then v.lifecycle else Connected(id, false))
    requires w.handshakes ==
      (if messages == [] || v.lifecycle.Connected? then v.handshakes
       else v.handshakes[id := if messages[0].Hello? then Resolved(messages[0].snapshot) else Rejected])
    requires w.transports ==
      (if Spoils(v.lifecycle, messages) then v.transports[id := Yielded(true, false)] else v.transports)
    ensures StepIs(v, Operation(Data(id, Some(messages))), w)
  {
    assert messages == [] ==> !Spoils(v.lifecycle, messages);
    assert messages != [] && v.lifecycle.Connecting? && !messages[0].Hello? ==> Spoils(v.lifecycle, messages);
    hide Spoils;
    assert IsOpen(v, id);
  }

  lemma CloseIs(v: View, id: AttemptId)
    requires Good(v)
    ensures var event := Operation(Close(id)); StepIs(v, event, Took(v, event))
  {
    var w := Took(v, Operation(Close(id)));
    forall k ensures IsOpen(w, k) <==> IsOpen(v, k) && k != id {}
    assert IsAt(v.lifecycle, id) && IsAsked(v, id) ==> !HasTransport(v.lifecycle) by {
      assert !IsOpen(v, id) || IsYielded(v, id);
    }
    hide HasTransport, Spoils;
  }

  lemma YieldIs(v: View, id: AttemptId)
    requires Good(v)
    ensures StepIs(v, Yields(id), Took(v, Yields(id)))
  {
    if IsAsked(v, id) {
      forall k ensures IsOpen(Took(v, Yields(id)), k) <==> IsOpen(v, k) || (k == id && IsAt(v.lifecycle, id)) {}
    } else {
      Stays(v, Yields(id), v);
    }
  }

  lemma RefuseIs(v: View, id: AttemptId)
    requires Good(v)
    ensures StepIs(v, Fails(id), Took(v, Fails(id)))
  {
    if IsAsked(v, id) {
      forall k ensures IsOpen(Took(v, Fails(id)), k) <==> IsOpen(v, k) {}
    } else {
      Stays(v, Fails(id), v);
    }
  }

  /** Every event does exactly this to lifecycle, promises and transports. */
  lemma EventIs(v: View, event: Event)
    requires Good(v)
    ensures StepIs(v, event, Took(v, event))
  {
    hide StepIs;
    match event {
      case Operation(Connect) => OpenIs(v);
      case Operation(Disconnect) => if v.lifecycle.Disconnected? { Stays(v, event, v); } else { Shuts(v, event); }
      case Operation(Send) => Stays(v, event, Took(v, event));
      case Operation(Data(id, decoded)) => DataIs(v, id, decoded);
      case Operation(Close(id)) => CloseIs(v, id);
      case Operation(Error(id)) => if IsAt(v.lifecycle, id) { Shuts(v, event); } else { Stays(v, event, v); }
      case Yields(id) => YieldIs(v, id);
      case Fails(id) => RefuseIs(v, id);
      case SendRejects(id) =>
        if IsAt(v.lifecycle, id) && HasTransport(v.lifecycle) { Shuts(v, event); } else { Stays(v, event, v); }
    }
  }

  lemma {:induction false} GoodRun(events: seq<Event>)
    ensures Good(TookAll(NEW, events))
  {
    if events != [] {
      GoodRun(events[..|events| - 1]);
      EventIs(TookAll(NEW, events[..|events| - 1]), events[|events| - 1]);
    }
  }

  // ---------- What foreign code sees ----------

  /** What can be told of a connection from the calls alone. */
  datatype Reading =
    | Off
    | Begun
    | Opening(id: AttemptId)
    | Greeting(id: AttemptId)
    | Handed(id: AttemptId)
    | Up(id: AttemptId)
    | Garbled

  predicate IsOf(r: Reading, id: AttemptId) {
    (r.Opening? || r.Greeting? || r.Handed? || r.Up?) && r.id == id
  }

  /** An attempt is announced and asks for its transport; the hello is sent on it; the server's hello is handed on
      before the connection is announced; then frames are sent and envelopes handed on, from this connection alone;
      and its end is announced before its transport is closed. */
  function Follow(r: Reading, call: Call): Reading {
    match call
    case Announces(IsConnecting) => if r.Off? then Begun else Garbled
    case Asks(id) => if r.Begun? then Opening(id) else Garbled
    case SendsHello(id) => if r == Opening(id) then Greeting(id) else Garbled
    case Delivers(id, message, seen) =>
      if r == Greeting(id) && message.Hello? && seen == Connected(id, true) then Handed(id)
      else if r == Up(id) && message.Envelope? && seen == Connected(id, false) then r
      else Garbled
    case Announces(IsConnected) => if r.Handed? then Up(r.id) else Garbled
    case SendsFrame(id) => if r == Up(id) then r else Garbled
    case Announces(IsDisconnected) => if r.Opening? || r.Greeting? || r.Up? then Off else Garbled
    case Closes(id) => if IsOf(r, id) then Garbled else r
  }

  function Read(calls: seq<Call>): Reading {
    if calls == [] then Off else Follow(Read(calls[..|calls| - 1]), calls[|calls| - 1])
  }

  lemma ReadsOn(calls: seq<Call>, call: Call)
    ensures Read(calls + [call]) == Follow(Read(calls), call)
  {
    assert (calls + [call])[..|calls|] == calls;
  }

  function Shows(l: Lifecycle): Reading {
    match l
    case Disconnected => Off
    case Connecting(id, hasTransport) => if hasTransport then Greeting(id) else Opening(id)
    case Connected(id, _) => Up(id)
  }

  /** The messages handed on, in order. */
  function Received(calls: seq<Call>): seq<Message> {
    if calls == [] then []
    else
      var last := calls[|calls| - 1];
      Received(calls[..|calls| - 1]) + if last.Delivers? then [last.message] else []
  }

  lemma ReceivesOn(calls: seq<Call>, call: Call)
    ensures Received(calls + [call]) == Received(calls) + if call.Delivers? then [call.message] else []
  {
    assert (calls + [call])[..|calls|] == calls;
  }

  /** How many messages come before the first that is out of place. */
  function Clean(l: Lifecycle, messages: seq<Message>): (n: nat)
    ensures n <= |messages| && (n == |messages| <==> !Spoils(l, messages))
    ensures !Spoils(l, messages[..n])
  {
    if messages == [] then 0
    else
      SpoilsNext(l, messages);
      var front := messages[..|messages| - 1];
      assert messages[..|messages|] == messages && forall k :: 0 <= k < |messages| ==> front[..k] == messages[..k];
      if !Spoils(l, messages) then |messages| else Clean(l, front)
  }

  predicate IsClosed(v: View, id: AttemptId) {
    IsYielded(v, id) && v.transports[id].closed
  }

  /** Calls that foreign code could have got: they read as the lifecycle stands, and each transport was closed once
      if it was closed. */
  ghost predicate Seen(v: View) {
    && Read(v.calls) == Shows(v.lifecycle)
    && forall id :: multiset(v.calls)[Closes(id)] == if IsClosed(v, id) then 1 else 0
  }

  /** One call goes with a change that it shows. */
  ghost predicate Fits(v: View, call: Call, w: View) {
    && w.calls == v.calls + [call] && Shows(w.lifecycle) == Follow(Shows(v.lifecycle), call)
    && (forall id :: IsClosed(w, id) <==> IsClosed(v, id) || call == Closes(id))
    && (call.Closes? ==> !IsClosed(v, call.id))
  }

  lemma SeenBy(v: View, call: Call, w: View)
    requires Seen(v) && Fits(v, call, w)
    ensures Seen(w) && Received(w.calls) == Received(v.calls) + if call.Delivers? then [call.message] else []
  {
    ReadsOn(v.calls, call);
    ReceivesOn(v.calls, call);
    assert multiset(w.calls) == multiset(v.calls) + multiset{call};
    hide IsClosed, Shows, Follow, Read, Received;
  }

  /** So do two calls in a row. */
  lemma SeenByTwo(v: View, first: Call, second: Call, w: View)
    requires Seen(v) && w.calls == v.calls + [first] + [second] && !first.Closes? && !second.Closes?
    requires Shows(w.lifecycle) == Follow(Follow(Shows(v.lifecycle), first), second)
    requires forall id :: IsClosed(w, id) <==> IsClosed(v, id)
    ensures Seen(w)
    ensures Received(w.calls) ==
      Received(v.calls) + (if first.Delivers? then [first.message] else [])
      + (if second.Delivers? then [second.message] else [])
  {
    ReadsOn(v.calls, first);
    ReadsOn(v.calls + [first], second);
    ReceivesOn(v.calls, first);
    ReceivesOn(v.calls + [first], second);
    assert multiset(w.calls) == multiset(v.calls) + multiset{first} + multiset{second};
    hide IsClosed, Shows, Follow, Read, Received;
  }

  lemma SeenFail(v: View)
    requires Seen(v)
    ensures Seen(Fail(v)) && Received(Fail(v).calls) == Received(v.calls)
  {
    if !v.lifecycle.Disconnected? {
      assert forall id :: IsClosed(Fail(v), id) <==> IsClosed(v, id);
      hide Seen, Received;
      SeenBy(v, Announces(IsDisconnected), Fail(v));
    }
  }

  lemma SeenClose(v: View, id: AttemptId)
    requires Seen(v) && !IsAt(v.lifecycle, id) && IsYielded(v, id) && !v.transports[id].closed
    ensures Seen(CloseOf(v, id)) && Received(CloseOf(v, id).calls) == Received(v.calls)
  {
    assert forall k :: IsClosed(CloseOf(v, id), k) <==> IsClosed(v, k) || k == id;
    hide Seen, Received;
    SeenBy(v, Closes(id), CloseOf(v, id));
  }

  lemma SeenShut(v: View)
    requires Good(v) && Seen(v)
    ensures Seen(Shut(v)) && Received(Shut(v).calls) == Received(v.calls)
  {
    SeenFail(v);
    if HasTransport(v.lifecycle) {
      assert IsOpen(v, v.lifecycle.id);
      hide Seen, Received, Good;
      SeenClose(Fail(v), v.lifecycle.id);
    }
  }

  lemma SeenHello(v: View, message: Message)
    requires Good(v) && Seen(v) && v.lifecycle.Connecting? && v.lifecycle.hasTransport && message.Hello?
    ensures Seen(Hear(v, message)) && Received(Hear(v, message).calls) == Received(v.calls) + [message]
  {
    var call, w := Delivers(v.lifecycle.id, message, Connected(v.lifecycle.id, true)), Hear(v, message);
    assert forall id :: IsClosed(w, id) <==> IsClosed(v, id);
    hide Seen, Received, Good;
    SeenByTwo(v, call, Announces(IsConnected), w);
  }

  lemma SeenEnvelope(v: View, message: Message)
    requires Good(v) && Seen(v) && v.lifecycle.Connected? && message.Envelope?
    ensures Seen(Hear(v, message)) && Received(Hear(v, message).calls) == Received(v.calls) + [message]
  {
    var w := Hear(v, message);
    assert forall id :: IsClosed(w, id) <==> IsClosed(v, id);
    hide Seen, Received;
    SeenBy(v, Delivers(v.lifecycle.id, message, v.lifecycle), w);
  }

  /** The message that an attempt with its transport, or a connection, waits for. */
  predicate InPlace(l: Lifecycle, message: Message) {
    (l.Connecting? && l.hasTransport && message.Hello?) || (l.Connected? && message.Envelope?)
  }

  lemma SeenHear(v: View, message: Message)
    requires Good(v) && Seen(v)
    ensures var w := Hear(v, message);
      && Seen(w)
      && Received(w.calls) == Received(v.calls) +
         (if InPlace(v.lifecycle, message) then [message] else [])
  {
    hide Seen, Received, Good, Shut;
    if v.lifecycle.Disconnected? {
    } else if v.lifecycle.Connecting? && v.lifecycle.hasTransport && message.Hello? {
      SeenHello(v, message);
    } else if v.lifecycle.Connected? && message.Envelope? {
      SeenEnvelope(v, message);
    } else {
      SeenShut(v);
    }
  }

  lemma CleanNext(l: Lifecycle, messages: seq<Message>)
    requires messages != []
    ensures var front, last := messages[..|messages| - 1], |messages| - 1;
      messages[..Clean(l, messages)] ==
      front[..Clean(l, front)]
      + (if !Spoils(l, front)
            && (if last == 0 && l.Connecting? then messages[last].Hello? else messages[last].Envelope?)
         then [messages[last]] else [])
  {
    var front, last := messages[..|messages| - 1], |messages| - 1;
    SpoilsNext(l, messages);
    hide Spoils;
    assert front[..Clean(l, front)] == messages[..Clean(l, front)];
    if !Spoils(l, messages) { assert messages == front + [messages[last]] && front[..|front|] == front; }
  }

  lemma InPlaceAfter(v: View, messages: seq<Message>)
    requires Good(v) && HasTransport(v.lifecycle) && messages != []
    ensures var front, last := messages[..|messages| - 1], |messages| - 1;
      && Good(HearAll(v, front)) && HearAll(v, messages) == Hear(HearAll(v, front), messages[last])
      && (InPlace(HearAll(v, front).lifecycle, messages[last]) <==>
            !Spoils(v.lifecycle, front)
            && if last == 0 && v.lifecycle.Connecting? then messages[last].Hello? else messages[last].Envelope?)
  {
    HearAllIs(v, messages[..|messages| - 1]);
    hide Good, Spoils, Hear;
  }

  lemma {:induction false} SeenHearAll(v: View, messages: seq<Message>)
    requires Good(v) && Seen(v) && HasTransport(v.lifecycle)
    ensures var w := HearAll(v, messages);
      Seen(w) && Received(w.calls) == Received(v.calls) + messages[..Clean(v.lifecycle, messages)]
  {
    if messages == [] {
      assert messages[..0] == [];
    } else {
      var front, m := messages[..|messages| - 1], messages[|messages| - 1];
      hide *;
      SeenHearAll(v, front);
      InPlaceAfter(v, messages);
      var u := HearAll(v, front);
      SeenHear(u, m);
      CleanNext(v.lifecycle, messages);
      var some := if InPlace(u.lifecycle, m) then [m] else [];
      assert Received(v.calls) + front[..Clean(v.lifecycle, front)] + some ==
        Received(v.calls) + (front[..Clean(v.lifecycle, front)] + some);
    }
  }

  /** What the event hands on: of data for the attempt, once it has its transport, what comes before a message that is
      out of place. */
  function Brings(v: View, event: Event): seq<Message> {
    if event.Operation? && event.op.Data? && IsAt(v.lifecycle, event.op.id) && HasTransport(v.lifecycle)
       && event.op.decoded.Some?
    then event.op.decoded.value[..Clean(v.lifecycle, event.op.decoded.value)]
    else []
  }

  ghost predicate SeenStep(v: View, event: Event, w: View) {
    Seen(w) && Received(w.calls) == Received(v.calls) + Brings(v, event)
  }

  lemma SeenOpen(v: View)
    requires Good(v) && Seen(v)
    ensures SeenStep(v, Operation(Connect), Open(v))
  {
    if v.lifecycle.Disconnected? {
      assert forall id :: IsClosed(Open(v), id) <==> IsClosed(v, id);
      hide Seen, Received;
      SeenByTwo(v, Announces(IsConnecting), Asks(v.sequence + 1), Open(v));
    }
  }

  lemma SeenData(v: View, id: AttemptId, decoded: Option<seq<Message>>)
    requires Good(v) && Seen(v)
    ensures SeenStep(v, Operation(Data(id, decoded)), HearData(v, id, decoded))
  {
    if IsAt(v.lifecycle, id) && HasTransport(v.lifecycle) && decoded.Some? { SeenHearAll(v, decoded.value); }
    else { SeenShut(v); }
    hide Good, Seen, Shut, HearAll, Received, Clean;
  }

  lemma SeenSend(v: View)
    requires Good(v) && Seen(v)
    ensures SeenStep(v, Operation(Send), Done(v, Send))
  {
    if v.lifecycle.Connected? {
      var w := Done(v, Send);
      assert forall id :: IsClosed(w, id) <==> IsClosed(v, id);
      hide Seen, Received;
      SeenBy(v, SendsFrame(v.lifecycle.id), w);
    }
  }

  lemma SeenReport(v: View, id: AttemptId)
    requires Good(v) && Seen(v)
    ensures SeenStep(v, Operation(Close(id)), Closing(v, id))
  {
    var w := if IsYielded(v, id) then v.(transports := v.transports[id := v.transports[id].(reported := true)]) else v;
    assert forall k :: IsClosed(w, k) <==> IsClosed(v, k);
    assert Seen(w);
    hide Seen, Received, Good, Fail;
    SeenFail(w);
  }

  lemma SeenRefuse(v: View, id: AttemptId)
    requires Good(v) && Seen(v)
    ensures SeenStep(v, Fails(id), Took(v, Fails(id)))
  {
    var w := Took(v, Fails(id));
    if IsAt(v.lifecycle, id) && IsAsked(v, id) {
      RefuseFits(v, id);
      hide Seen, Received, Good, Fits, Took;
      SeenBy(v, Announces(IsDisconnected), w);
    } else {
      assert forall k :: IsClosed(w, k) <==> IsClosed(v, k);
      hide Received, Good;
    }
  }

  lemma RefuseFits(v: View, id: AttemptId)
    requires Good(v) && IsAt(v.lifecycle, id) && IsAsked(v, id)
    ensures Fits(v, Announces(IsDisconnected), Took(v, Fails(id)))
  {}

  lemma SeenYield(v: View, id: AttemptId)
    requires Good(v) && Seen(v)
    ensures SeenStep(v, Yields(id), Took(v, Yields(id)))
  {
    if IsAsked(v, id) {
      assert !IsClosed(v, id) && (IsAt(v.lifecycle, id) ==> v.lifecycle == Connecting(id, false)) by {
        assert !IsOpen(v, id);
      }
      hide Seen, Received, Good;
      if IsAt(v.lifecycle, id) { YieldFits(v, id); SeenBy(v, SendsHello(id), Yield(v, id)); }
      else { LateFits(v, id); SeenBy(v, Closes(id), Yield(v, id)); }
      hide Yield, Fits;
    }
  }

  lemma YieldFits(v: View, id: AttemptId)
    requires IsAsked(v, id) && v.lifecycle == Connecting(id, false)
    ensures Fits(v, SendsHello(id), Yield(v, id))
  {}

  lemma LateFits(v: View, id: AttemptId)
    requires IsAsked(v, id) && !IsAt(v.lifecycle, id)
    ensures Fits(v, Closes(id), Yield(v, id))
  {}

  lemma SeenNext(v: View, event: Event)
    requires Good(v) && Seen(v)
    ensures SeenStep(v, event, Took(v, event))
  {
    hide Good, Seen, Shut, Received, HearAll, HearData, Open, Closing;
    match event {
      case Operation(Connect) => SeenOpen(v);
      case Operation(Data(id, decoded)) => SeenData(v, id, decoded);
      case Operation(Send) => SeenSend(v);
      case Operation(Close(id)) => SeenReport(v, id);
      case Yields(id) => SeenYield(v, id); hide SeenStep;
      case Fails(id) => SeenRefuse(v, id); hide SeenStep;
      case _ => SeenShut(v);
    }
  }

  /** On every run with callbacks that do nothing, foreign code is called in this order, and is told the state that the
      connection is in. */
  lemma {:induction false} CallsAreRead(events: seq<Event>)
    ensures Good(TookAll(NEW, events)) && Seen(TookAll(NEW, events))
  {
    GoodRun(events);
    if events != [] {
      var front, last := events[..|events| - 1], events[|events| - 1];
      CallsAreRead(front);
      SeenNext(TookAll(NEW, front), last);
      hide Good, Seen, Took;
    }
  }

  // ---------- The handshake ----------

  /** From any state without connection: connecting, the transport that the factory yields, and the hello of the server
      establish a connection whose promise is resolved with that hello and whose transport is open, and what follows
      the hello is handed on in order. */
  lemma Handshake(events: seq<Event>, hello: Message, messages: seq<Message>)
    requires TookAll(NEW, events).lifecycle.Disconnected? && hello.Hello?
    requires forall i :: 0 <= i < |messages| ==> messages[i].Envelope?
    ensures var v := TookAll(NEW, events);
      var id := v.sequence + 1;
      var w := Took(Took(Took(v, Operation(Connect)), Yields(id)), Operation(Data(id, Some([hello] + messages))));
      && w.lifecycle == Connected(id, false) && id in w.handshakes && w.handshakes[id] == Resolved(hello.snapshot)
      && IsOpen(w, id) && Received(w.calls) == Received(v.calls) + [hello] + messages
  {
    var v := TookAll(NEW, events);
    var id, all := v.sequence + 1, [hello] + messages;
    hide *;
    CallsAreRead(events);
    Connects(v);
    IsGiven(Took(v, Operation(Connect)), id);
    IsGreeted(Took(Took(v, Operation(Connect)), Yields(id)), id, hello, messages);
    assert Received(v.calls) + [hello] + messages == Received(v.calls) + all;
  }

  lemma Connects(v: View)
    requires Good(v) && Seen(v) && v.lifecycle.Disconnected?
    ensures var w := Took(v, Operation(Connect));
      && Good(w) && Seen(w) && w.lifecycle == Connecting(v.sequence + 1, false)
      && Received(w.calls) == Received(v.calls)
  {
    EventIs(v, Operation(Connect));
    SeenNext(v, Operation(Connect));
    hide Took, Received, Seen, Good, TransportsAre, PromisesAre;
  }

  lemma IsGiven(v: View, id: AttemptId)
    requires Good(v) && Seen(v) && v.lifecycle == Connecting(id, false)
    ensures var w := Took(v, Yields(id));
      && Good(w) && Seen(w) && w.lifecycle == Connecting(id, true) && Received(w.calls) == Received(v.calls)
  {
    EventIs(v, Yields(id));
    SeenNext(v, Yields(id));
    hide Took, Received, Seen, Good, TransportsAre, PromisesAre;
  }

  lemma IsGreeted(v: View, id: AttemptId, hello: Message, messages: seq<Message>)
    requires Good(v) && Seen(v) && v.lifecycle == Connecting(id, true) && hello.Hello?
    requires forall i :: 0 <= i < |messages| ==> messages[i].Envelope?
    ensures var w := Took(v, Operation(Data(id, Some([hello] + messages))));
      && w.lifecycle == Connected(id, false) && id in w.handshakes && w.handshakes[id] == Resolved(hello.snapshot)
      && IsOpen(w, id) && Received(w.calls) == Received(v.calls) + ([hello] + messages)
  {
    var all := [hello] + messages;
    var event := Operation(Data(id, Some(all)));
    EventIs(v, event);
    SeenNext(v, event);
    assert !Spoils(v.lifecycle, all);
    assert all[..|all|] == all;
    assert IsPending(v, id);
    hide Took, Received, Seen, Spoils, TransportsAre, Clean;
    assert Good(Took(v, event)) ==> (IsOpen(Took(v, event), id) <==> IsAt(Took(v, event).lifecycle, id));
    assert Greets(v, event) && !Ends(v, event);
  }
}
