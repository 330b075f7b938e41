/** What the reader of a proxied stream gets, told from the lines alone. */
module ProxyLaws {

  import opened Options
  import opened Proxy
  import opened ProxyReader

  // ---------- Lines ----------

  /** By code point: the white space and the line terminators of ECMAScript. */
  lemma BlankIs(ch: char)
    ensures Blank(ch) <==>
      var code := ch as int;
      || 9 <= code <= 13 || code == 32 || code == 0xA0 || code == 0x1680 || 0x2000 <= code <= 0x200A
      || code == 0x2028 || code == 0x2029 || code == 0x202F || code == 0x205F || code == 0x3000 || code == 0xFEFF
  {}

  ghost predicate AllBlank(s: string) {
    forall i :: 0 <= i < |s| ==> Blank(s[i])
  }

  /** `data` between blanks, without blanks at its own ends. */
  ghost predicate IsTrimmed(s: string, data: string) {
    data != "" && !Blank(data[0]) && !Blank(data[|data| - 1])
    && exists before, after :: AllBlank(before) && AllBlank(after) && s == before + data + after
  }

  lemma {:induction false} StartIsTrimmed(s: string)
    ensures var t := TrimStart(s);
      && (t != "" ==> !Blank(t[0])) && |t| <= |s| && t == s[|s| - |t|..]
      && forall i :: 0 <= i < |s| - |t| ==> Blank(s[i])
  {
    hide Blank;
    if s != "" && Blank(s[0]) { StartIsTrimmed(s[1..]); }
  }

  lemma {:induction false} EndIsTrimmed(s: string)
    ensures var t := TrimEnd(s);
      && (t != "" ==> !Blank(t[|t| - 1])) && |t| <= |s| && t == s[..|t|]
      && forall i :: |t| <= i < |s| ==> Blank(s[i])
  {
    hide Blank;
    if s != "" && Blank(s[|s| - 1]) {
      EndIsTrimmed(s[..|s| - 1]);
      assert forall i :: 0 <= i < |s| - 1 ==> s[..|s| - 1][i] == s[i];
    }
  }

  lemma {:induction false} TrimStartOf(before: string, data: string)
    requires AllBlank(before) && (data != "" ==> !Blank(data[0]))
    ensures TrimStart(before + data) == data
  {
    hide Blank;
    if before != "" {
      assert (before + data)[1..] == before[1..] + data;
      TrimStartOf(before[1..], data);
    } else {
      assert before + data == data;
    }
  }

  lemma {:induction false} TrimEndOf(data: string, after: string)
    requires AllBlank(after) && (data != "" ==> !Blank(data[|data| - 1]))
    ensures TrimEnd(data + after) == data
  {
    hide Blank;
    if after != "" {
      assert (data + after)[..|data + after| - 1] == data + after[..|after| - 1];
      TrimEndOf(data, after[..|after| - 1]);
    } else {
      assert data + after == data;
    }
  }

  lemma TrimmedIs(s: string, data: string)
    ensures IsTrimmed(s, data) <==> data != "" && data == TrimEnd(TrimStart(s))
  {
    hide Blank, TrimStart, TrimEnd;
    if IsTrimmed(s, data) {
      var before, after :| AllBlank(before) && AllBlank(after) && s == before + data + after;
      assert s == before + (data + after);
      TrimStartOf(before, data + after);
      TrimEndOf(data, after);
    }
    if data != "" && data == TrimEnd(TrimStart(s)) { TrimmedFits(s); }
  }

  lemma TrimmedFits(s: string)
    requires TrimEnd(TrimStart(s)) != ""
    ensures IsTrimmed(s, TrimEnd(TrimStart(s)))
  {
    hide Blank, TrimStart, TrimEnd;
    var t, data := TrimStart(s), TrimEnd(TrimStart(s));
    StartIsTrimmed(s);
    EndIsTrimmed(t);
    var before, after := s[..|s| - |t|], t[|data|..];
    assert s == before + data + after;
    assert AllBlank(before) && AllBlank(after);
  }

  /** A line carries a payload exactly if it starts with these six characters and has more than blanks after them. */
  lemma PayloadIs(line: string, data: string)
    ensures Payload(line) == Some(data) <==> "data: " <= line && IsTrimmed(line[6..], data)
  {
    if "data: " <= line { TrimmedIs(line[6..], data); }
    hide IsTrimmed;
  }

  // ---------- Events ----------

  predicate Finishes(e: ProxyEvent) {
    e.Done? || e.Error?
  }

  /** The reason of the last `done` or `error`. */
  function StopReason(es: seq<ProxyEvent>): string {
    if es == [] then "pending"
    else if Finishes(es[|es| - 1]) then es[|es| - 1].reason else StopReason(es[..|es| - 1])
  }

  /** The message of the last `error`. */
  function ErrorMessage(es: seq<ProxyEvent>): Option<string> {
    if es == [] then None
    else if es[|es| - 1].Error? then es[|es| - 1].message else ErrorMessage(es[..|es| - 1])
  }

  lemma {:induction false} StopIs(c: Codec, es: seq<ProxyEvent>)
    requires Rebuild(c, es).Some?
    ensures Rebuild(c, es).value.stopReason == StopReason(es)
    ensures Rebuild(c, es).value.errorMessage == ErrorMessage(es)
  {
    if es != [] { StopIs(c, es[..|es| - 1]); }
  }

  /** The signature that the last end of block `i` gave it, since the block was last started. */
  function Signature(es: seq<ProxyEvent>, i: int): Option<string> {
    if es == [] then None
    else
      var e := es[|es| - 1];
      if About(e, i) && Opens(e) then None
      else if About(e, i) && (e.TextEnd? || e.ThinkingEnd?) then e.signature
      else Signature(es[..|es| - 1], i)
  }

  lemma {:induction false} SignatureIs(c: Codec, es: seq<ProxyEvent>, i: int)
    requires Rebuild(c, es).Some? && i in Rebuild(c, es).value.content
    requires !Rebuild(c, es).value.content[i].ToolCall?
    ensures Rebuild(c, es).value.content[i].signature == Signature(es, i)
  {
    if es != [] {
      var front, e := es[..|es| - 1], es[|es| - 1];
      var m := Rebuild(c, front).value;
      SignatureNext(c, m, e, i);
      if i in m.content && !m.content[i].ToolCall? { SignatureIs(c, front, i); }
    }
  }

  lemma SignatureNext(c: Codec, m: Message, e: ProxyEvent, i: int)
    requires Process(c, m, e).Keeps? && At(Process(c, m, e).message, i).Some?
    requires !At(Process(c, m, e).message, i).value.ToolCall?
    ensures var now := At(Process(c, m, e).message, i).value;
      if About(e, i) && Opens(e) then now.signature.None?
      else if About(e, i) && (e.TextEnd? || e.ThinkingEnd?) then now.signature == e.signature
      else At(m, i).Some? && !At(m, i).value.ToolCall? && now.signature == At(m, i).value.signature
  {
    if !About(e, i) { OtherBlock(c, m, e, i); hide Process; }
  }

  /** What an event that does not fit is refused with. */
  function Refusal(e: ProxyEvent): string {
    match e
    case TextDelta(_, _) => "Received text_delta for non-text content"
    case TextEnd(_, _) => "Received text_end for non-text content"
    case ThinkingDelta(_, _) => "Received thinking_delta for non-thinking content"
    case ThinkingEnd(_, _) => "Received thinking_end for non-thinking content"
    case _ => "Received toolcall_delta for non-toolCall content"
  }

  lemma ThrowsRefusal(c: Codec, m: Message, e: ProxyEvent)
    requires Process(c, m, e).Throws?
    ensures Process(c, m, e).text == Refusal(e)
  {}

  /** The call that ends at this moment has the id and name it was opened with, and its arguments are those of all its
      deltas. */
  ghost predicate IsCallOf(c: Codec, es: seq<ProxyEvent>, i: int, call: Block) {
    && Opening(es, i).Some? && Opening(es, i).value.ToolCallStart?
    && call.ToolCall? && call.id == Opening(es, i).value.id && call.name == Opening(es, i).value.name
    && call.partialJson.None?
    && (Tidy(es, i) ==>
          call.arguments == c.salvage(Deltas(es, i)) || (Deltas(es, i) == "" && call.arguments == c.empty))
  }

  /** What the reader is told of `e`, after the events `es`. */
  ghost predicate Tells(c: Codec, es: seq<ProxyEvent>, e: ProxyEvent, event: Option<Event>) {
    match e
    case Start => event == Some(Begun)
    case TextEnd(i, _) => event == Some(Ended(i, Deltas(es, i)))
    case ThinkingEnd(i, _) => event == Some(Ended(i, Deltas(es, i)))
    case ToolCallEnd(i) =>
      if Opening(es, i).Some? && Opening(es, i).value.ToolCallStart?
      then event.Some? && event.value.Called? && event.value.index == i && IsCallOf(c, es, i, event.value.call)
      else event.None?
    case Done(reason) => event.Some? && event.value.Completed? && Some(event.value.message) == Rebuild(c, es + [e])
    case Error(reason, _) => event.Some? && event.value.Failed? && Some(event.value.message) == Rebuild(c, es + [e])
    case Unknown => event.None?
    case _ => event == Some(if Opens(e) then Opened(e) else Grown(e))
  }

  lemma EventTells(c: Codec, es: seq<ProxyEvent>, e: ProxyEvent)
    requires Rebuild(c, es + [e]).Some?
    ensures Rebuild(c, es).Some? && Process(c, Rebuild(c, es).value, e).Keeps?
    ensures Tells(c, es, e, Process(c, Rebuild(c, es).value, e).event)
  {
    Latest(es, e);
    RebuiltBlocks(c, es);
    if e.TextEnd? || e.ThinkingEnd? || e.ToolCallEnd? {
      assert Rebuilt(c, es, e.index, Rebuild(c, es).value.content);
    }
    hide Rebuild, Opening, Deltas, Tidy, Closed;
  }

  ghost predicate AnyFinishes(es: seq<ProxyEvent>) {
    exists k :: 0 <= k < |es| && Finishes(es[k])
  }

  /** What is told, event by event, until the first that finishes the stream. */
  ghost function Told(c: Codec, es: seq<ProxyEvent>): seq<Event> {
    if es == [] then []
    else
      var front, e := es[..|es| - 1], es[|es| - 1];
      var m := Rebuild(c, front);
      if AnyFinishes(front) || m.None? then Told(c, front)
      else
        match Process(c, m.value, e)
        case Throws(_) => Told(c, front)
        case Keeps(_, None) => Told(c, front)
        case Keeps(_, Some(event)) => Told(c, front) + [event]
  }

  lemma FinishesNext(es: seq<ProxyEvent>, e: ProxyEvent)
    ensures AnyFinishes(es + [e]) <==> AnyFinishes(es) || Finishes(e)
  {
    var all := es + [e];
    assert all[|es|] == e && forall k :: 0 <= k < |es| ==> all[k] == es[k];
    hide Finishes;
    if Finishes(e) { assert Finishes(all[|es|]); }
    if AnyFinishes(es) {
      var k :| 0 <= k < |es| && Finishes(es[k]);
      assert Finishes(all[k]);
    }
  }

  ghost predicate AnyCloses(c: Codec, lines: seq<string>) {
    exists k :: 0 <= k < |lines| && Closes(c, lines[k])
  }

  lemma ClosesNext(c: Codec, lines: seq<string>, line: string)
    ensures AnyCloses(c, lines + [line]) <==> AnyCloses(c, lines) || Closes(c, line)
  {
    var all := lines + [line];
    hide Closes;
    assert all[|lines|] == line && forall k :: 0 <= k < |lines| ==> all[k] == lines[k];
    if Closes(c, line) { assert Closes(c, all[|lines|]); }
    if AnyCloses(c, lines) {
      var k :| 0 <= k < |lines| && Closes(c, lines[k]);
      assert Closes(c, all[k]);
    }
  }

  lemma {:induction false} ClosesIff(c: Codec, lines: seq<string>)
    ensures AnyCloses(c, lines) <==> AnyFinishes(EventsOf(c, lines))
  {
    if lines != [] {
      var front, last := lines[..|lines| - 1], lines[|lines| - 1];
      ClosesIff(c, front);
      var data := Payload(last);
      assert Closes(c, last) <==>
        data.Some? && c.parse(data.value).Value? && Finishes(c.parse(data.value).value);
      hide Closes, Finishes, Payload, AnyFinishes, AnyCloses;
      if data.Some? && c.parse(data.value).Value? { FinishesNext(EventsOf(c, front), c.parse(data.value).value); }
      assert lines == front + [last];
      ClosesNext(c, front, last);
    }
  }

  /** The reader of the stream gets what the events of the lines tell. */
  lemma {:induction false} ReaderIsTold(c: Codec, lines: seq<string>)
    requires ReadLines(c, START, lines).Read?
    ensures ReadLines(c, START, lines).state.events == Told(c, EventsOf(c, lines))
  {
    if lines != [] {
      var front, last := lines[..|lines| - 1], lines[|lines| - 1];
      ReaderIsTold(c, front);
      ReadingRebuilds(c, front);
      DoneIsSettled(c, front);
      ClosesIff(c, front);
      var data := Payload(last);
      if data.Some? { Latest(EventsOf(c, front), c.parse(data.value).value); }
    }
  }

  /** Reading breaks at the first line whose payload is not an event or does not fit those before it. If the stream
      was not finished by then, its reader gets a failure with that text, and the blocks rebuilt so far. */
  lemma {:induction false} BreaksAt(c: Codec, lines: seq<string>)
    requires ReadLines(c, START, lines).Broke?
    ensures exists k :: 0 <= k < |lines| && BreaksThere(c, lines, k)
  {
    var front, n := lines[..|lines| - 1], |lines| - 1;
    if ReadLines(c, START, front).Broke? {
      BreaksAt(c, front);
      var k :| 0 <= k < |front| && BreaksThere(c, front, k);
      assert front[..k] == lines[..k] && front[k] == lines[k];
      assert BreaksThere(c, lines, k);
    } else {
      BreaksLast(c, lines);
      hide BreaksThere;
    }
  }

  lemma BreaksLast(c: Codec, lines: seq<string>)
    requires lines != [] && ReadLines(c, START, lines[..|lines| - 1]).Read? && ReadLines(c, START, lines).Broke?
    ensures BreaksThere(c, lines, |lines| - 1)
  {
    var front, data := lines[..|lines| - 1], Payload(lines[|lines| - 1]);
    ReadingRebuilds(c, front);
    var es, m := EventsOf(c, front), ReadLines(c, START, front).state.message;
    hide ReadLines, EventsOf, Payload, Refusal, Process, Fits, Rebuild;
    assert data.Some? && (c.parse(data.value).Value? ==> Process(c, m, c.parse(data.value).value).Throws?);
    if c.parse(data.value).Value? { Refuses(c, es, m, c.parse(data.value).value); }
  }

  lemma Refuses(c: Codec, es: seq<ProxyEvent>, m: Message, e: ProxyEvent)
    requires Rebuild(c, es) == Some(m) && Process(c, m, e).Throws?
    ensures !Fits(es, e) && Process(c, m, e).text == Refusal(e)
  {
    RebuiltBlocks(c, es);
    FitsOrThrows(c, es, e, m);
    ThrowsRefusal(c, m, e);
    hide *;
  }

  ghost predicate BreaksThere(c: Codec, lines: seq<string>, k: nat)
    requires k < |lines|
  {
    var before, r := ReadLines(c, START, lines[..k]), ReadLines(c, START, lines);
    && before.Read? && r.Broke? && r.state == before.state && Payload(lines[k]).Some?
    && (match c.parse(Payload(lines[k]).value)
        case Failure(text) => r.text == text
        case Value(e) => !Fits(EventsOf(c, lines[..k]), e) && r.text == Refusal(e))
    && var s := Finish(r);
       && s.message == before.state.message.(stopReason := "error", errorMessage := Some(r.text))
       && s.events == if before.state.done then before.state.events else before.state.events + [Failed(s.message)]
  }
}
