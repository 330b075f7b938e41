/** The read loop of runtimes/pi/packages/agent/src/proxy.ts: chunks of text become lines, lines become
    events, and the events of the stream depend on the text alone. */
module ProxyReader {

  import opened Lines
  import opened Options
  import opened Proxy

  /** The message and what the event stream has taken: after `done` or `error` it takes nothing more. */
  datatype State = State(message: Message, events: seq<Event>, done: bool)

  const START := State(EMPTY, [], false)

  function Push(s: State, e: Event): State {
    if s.done then s else s.(events := s.events + [e], done := e.Completed? || e.Failed?)
  }

  /** What `trim` removes. */
  predicate Blank(ch: char) {
    ch in "\t\n\r \U{0B}\U{0C}\U{00A0}\U{1680}\U{2028}\U{2029}\U{202F}\U{205F}\U{3000}\U{FEFF}"
      || '\U{2000}' <= ch <= '\U{200A}'
  }

  function TrimStart(s: string): string {
    if s != "" && Blank(s[0]) then TrimStart(s[1..]) else s
  }

  function TrimEnd(s: string): string {
    if s != "" && Blank(s[|s| - 1]) then TrimEnd(s[..|s| - 1]) else s
  }

  /** The payload of a line, if it has one. */
  function Payload(line: string): Option<string> {
    if "data: " <= line && TrimEnd(TrimStart(line[6..])) != "" then Some(TrimEnd(TrimStart(line[6..]))) else None
  }

  /** A line fails with the text of the exception, or is consumed. */
  datatype Reading = Broke(state: State, text: string) | Read(state: State)

  function ReadLine(c: Codec, s: State, line: string): Reading {
    match Payload(line)
    case None => Read(s)
    case Some(data) =>
      match c.parse(data)
      case Failure(text) => Broke(s, text)
      case Value(e) =>
        match Process(c, s.message, e)
        case Throws(text) => Broke(s, text)
        case Keeps(m, None) => Read(s.(message := m))
        case Keeps(m, Some(event)) => Read(Push(s.(message := m), event))
  }

  /** Lines in order, up to the first that fails. */
  function ReadLines(c: Codec, s: State, lines: seq<string>): Reading {
    if lines == [] then Read(s)
    else
      match ReadLines(c, s, lines[..|lines| - 1])
      case Broke(s', text) => Broke(s', text)
      case Read(s') => ReadLine(c, s', lines[|lines| - 1])
  }

  /** The end of the stream, with an `error` event for a failure. */
  function Finish(r: Reading): State {
    match r
    case Read(s) => s.(done := true)
    case Broke(s, text) =>
      var m := s.message.(stopReason := "error", errorMessage := Some(text));
      Push(s.(message := m), Failed(m)).(done := true)
  }

  lemma {:induction false} ReadAppend(c: Codec, s: State, a: seq<string>, b: seq<string>)
    ensures ReadLines(c, s, a + b) ==
      match ReadLines(c, s, a) case Broke(s', text) => Broke(s', text) case Read(s') => ReadLines(c, s', b)
  {
    if b == [] {
      assert a + b == a;
    } else {
      ReadAppend(c, s, a, b[..|b| - 1]);
      assert (a + b)[..|a + b| - 1] == a + b[..|b| - 1];
    }
  }

  class ProxyStream {
    const codec: Codec
    var message: Message
    var buffer: string
    var events: seq<Event>
    var done: bool

    ghost function View(): State
      reads this
    {
      State(message, events, done)
    }

    constructor (c: Codec)
      ensures codec == c && View() == START && buffer == ""
    {
      codec, message, buffer, events, done := c, EMPTY, "", [], false;
    }

    method PushEvent(e: Event)
      modifies this`events, this`done
      ensures View() == Push(old(View()), e)
    {
      if !done {
        done := e.Completed? || e.Failed?;
        events := events + [e];
      }
    }

    method ConsumeLine(line: string) returns (failure: Option<string>)
      modifies this`message, this`events, this`done
      ensures ReadLine(codec, old(View()), line) == if failure.Some? then Broke(View(), failure.value) else Read(View())
    {
      failure := None;
      var data := Payload(line);
      if data.Some? {
        match codec.parse(data.value) {
          case Failure(text) => failure := Some(text);
          case Value(e) =>
            match Process(codec, message, e) {
              case Throws(text) => failure := Some(text);
              case Keeps(m, event) =>
                message := m;
                if event.Some? { PushEvent(event.value); }
            }
        }
      }
    }

    method ConsumeLines(lines: seq<string>) returns (failure: Option<string>)
      modifies this`message, this`events, this`done
      ensures ReadLines(codec, old(View()), lines) == if failure.Some? then Broke(View(), failure.value)
        else Read(View())
    {
      failure := None;
      var i := 0;
      while i < |lines| && failure.None?
        invariant 0 <= i <= |lines|
        invariant ReadLines(codec, old(View()), lines[..i]) == if failure.Some? then Broke(View(), failure.value)
          else Read(View())
        decreases if failure.Some? then 0 else 1, |lines| - i
      {
        assert lines[..i + 1][..i] == lines[..i];
        failure := ConsumeLine(lines[i]);
        i := i + 1;
      }
      ReadAppend(codec, old(View()), lines[..i], lines[i..]);
      assert lines == lines[..i] + lines[i..];
    }

    /** The events do not depend on how the text was cut into chunks: they are those of the lines of the
        whole text that end in a line break, up to the first that fails. */
    method ReadAll(chunks: seq<string>)
      requires View() == START && buffer == ""
      modifies this
      ensures View() == Finish(ReadLines(codec, START, Front(Split(Concat(chunks)))))
    {
      var i := 0;
      var failure := None;
      assert chunks[..0] == [];
      while i < |chunks| && failure.None?
        invariant 0 <= i <= |chunks|
        invariant failure.None? ==> buffer == Last(Split(Concat(chunks[..i])))
        invariant ReadLines(codec, START, Front(Split(Concat(chunks[..i])))) ==
                  if failure.Some? then Broke(View(), failure.value) else Read(View())
        decreases if failure.Some? then 0 else 1, |chunks| - i
      {
        ghost var before, kept := Concat(chunks[..i]), buffer;
        assert chunks[..i + 1][..i] == chunks[..i];
        SplitAppend(before, chunks[i]);
        buffer := buffer + chunks[i];
        var lines := Split(buffer);
        buffer := Last(lines);
        failure := ConsumeLines(Front(lines));
        ReadAppend(codec, START, Front(Split(before)), Front(lines));
        i := i + 1;
        assert Concat(chunks[..i]) == before + chunks[i - 1];
        assert Front(Split(Concat(chunks[..i]))) == Front(Split(before)) + Front(lines);
      }
      ghost var seen := chunks[..i];
      TheRestDoesNotMatter(codec, chunks, i);
      if failure.Some? {
        message := message.(stopReason := "error", errorMessage := failure);
        PushEvent(Failed(message));
      } else {
        assert chunks[..i] == chunks;
      }
      done := true;
    }
  }

  lemma {:induction false} ConcatAppend(a: seq<string>, b: seq<string>)
    ensures Concat(a + b) == Concat(a) + Concat(b)
  {
    if b == [] {
      assert a + b == a;
    } else {
      var front, last := b[..|b| - 1], b[|b| - 1];
      ConcatAppend(a, front);
      assert (a + b)[..|a + b| - 1] == a + front && (a + b)[|a + b| - 1] == last;
      assert Concat(a) + Concat(front) + last == Concat(a) + (Concat(front) + last);
    }
  }

  /** Once a line has failed, what follows is not read. */
  lemma TheRestDoesNotMatter(c: Codec, chunks: seq<string>, i: nat)
    requires i <= |chunks|
    ensures var r := ReadLines(c, START, Front(Split(Concat(chunks[..i]))));
      r.Broke? ==> ReadLines(c, START, Front(Split(Concat(chunks)))) == r
  {
    var a, b := Concat(chunks[..i]), Concat(chunks[i..]);
    assert chunks == chunks[..i] + chunks[i..];
    ConcatAppend(chunks[..i], chunks[i..]);
    SplitAppend(a, b);
    var more := Split(Last(Split(a)) + b);
    assert Front(Split(a + b)) == Front(Split(a)) + Front(more);
    ReadAppend(c, START, Front(Split(a)), Front(more));
  }

  // ---------- What reaches the reader of the stream ----------

  /** The proxy events of the lines, in order. */
  function EventsOf(c: Codec, lines: seq<string>): seq<ProxyEvent> {
    if lines == [] then []
    else
      var front, data := EventsOf(c, lines[..|lines| - 1]), Payload(lines[|lines| - 1]);
      if data.Some? && c.parse(data.value).Value? then front + [c.parse(data.value).value] else front
  }

  /** Reading lines without failure rebuilds the message of their events. */
  lemma {:induction false} ReadingRebuilds(c: Codec, lines: seq<string>)
    requires ReadLines(c, START, lines).Read?
    ensures Rebuild(c, EventsOf(c, lines)) == Some(ReadLines(c, START, lines).state.message)
  {
    if lines != [] {
      var front := lines[..|lines| - 1];
      ReadingRebuilds(c, front);
      var data := Payload(lines[|lines| - 1]);
      if data.Some? { Latest(EventsOf(c, front), c.parse(data.value).value); }
    }
  }

  predicate Closes(c: Codec, line: string) {
    Payload(line).Some? && c.parse(Payload(line).value).Value? &&
    (c.parse(Payload(line).value).value.Done? || c.parse(Payload(line).value).value.Error?)
  }

  /** The stream holds at most one `done` or `error`, and nothing after it. */
  ghost predicate EndsOnce(s: State) {
    && (forall i :: 0 <= i < |s.events| && (s.events[i].Completed? || s.events[i].Failed?) ==> i == |s.events| - 1)
  }

  ghost predicate Settled(s: State) {
    exists i :: 0 <= i < |s.events| && (s.events[i].Completed? || s.events[i].Failed?)
  }

  lemma LinePushes(c: Codec, s: State, line: string)
    ensures var s' := ReadLine(c, s, line).state;
      s' == s.(message := s'.message) || exists e :: s' == Push(s.(message := s'.message), e)
    ensures ReadLine(c, s, line).Read? ==> (ReadLine(c, s, line).state.done <==> s.done || Closes(c, line))
  {
  }

  lemma {:induction false} DoneIsSettled(c: Codec, lines: seq<string>)
    ensures EndsOnce(ReadLines(c, START, lines).state)
    ensures ReadLines(c, START, lines).state.done <==> Settled(ReadLines(c, START, lines).state)
    ensures ReadLines(c, START, lines).Read? ==>
      (ReadLines(c, START, lines).state.done <==> exists k :: 0 <= k < |lines| && Closes(c, lines[k]))
  {
    if lines != [] {
      var n := |lines| - 1;
      var front := lines[..n];
      DoneIsSettled(c, front);
      if ReadLines(c, START, front).Read? {
        var s := ReadLines(c, START, front).state;
        LinePushes(c, s, lines[n]);
        PushKeeps(s, ReadLine(c, s, lines[n]).state);
        hide ReadLine, EndsOnce, Settled, Closes, Push;
        assert forall k :: 0 <= k < n ==> front[k] == lines[k];
      }
    }
  }

  lemma PushKeeps(s: State, s': State)
    requires EndsOnce(s) && (s.done <==> Settled(s))
    requires s' == s.(message := s'.message) || exists e :: s' == Push(s.(message := s'.message), e)
    ensures EndsOnce(s') && (s'.done <==> Settled(s'))
  {
    if s'.events != s.events {
      var e :| s' == Push(s.(message := s'.message), e);
      assert s'.events[|s.events|] == e;
      assert forall i :: 0 <= i < |s.events| ==> s'.events[i] == s.events[i];
    } else if Settled(s) {
      var i :| 0 <= i < |s.events| && (s.events[i].Completed? || s.events[i].Failed?);
      assert s'.events[i] == s.events[i];
    }
  }

  /** The result of the stream settles exactly when a line fails or one carries `done` or `error`; a server
      that stops in the middle of its last line leaves whoever awaits the result waiting. */
  lemma ResultSettlesIff(c: Codec, lines: seq<string>)
    ensures EndsOnce(Finish(ReadLines(c, START, lines)))
    ensures Settled(Finish(ReadLines(c, START, lines))) <==>
      ReadLines(c, START, lines).Broke? || exists k :: 0 <= k < |lines| && Closes(c, lines[k])
  {
    DoneIsSettled(c, lines);
    var r := ReadLines(c, START, lines);
    if r.Broke? {
      var m := r.state.message.(stopReason := "error", errorMessage := Some(r.text));
      PushKeeps(r.state, Push(r.state.(message := m), Failed(m)));
    }
  }
}
