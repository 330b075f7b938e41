/** runtimes/pi/packages/agent/src/proxy.ts: one event of the proxy server applied to the message being
    rebuilt, and what a sequence of them rebuilds. */
module Proxy {

  import opened Options

  datatype Parsed<T> = Value(value: T) | Failure(text: string)

  type Json(!new)

  datatype ProxyEvent =
    | Start
    | TextStart(index: int)
    | TextDelta(index: int, delta: string)
    | TextEnd(index: int, signature: Option<string>)
    | ThinkingStart(index: int)
    | ThinkingDelta(index: int, delta: string)
    | ThinkingEnd(index: int, signature: Option<string>)
    | ToolCallStart(index: int, id: string, name: string)
    | ToolCallDelta(index: int, delta: string)
    | ToolCallEnd(index: int)
    | Done(reason: string)
    | Error(reason: string, message: Option<string>)
    | Unknown

  datatype Block =
    | Text(text: string, signature: Option<string>)
    | Thinking(text: string, signature: Option<string>)
    | ToolCall(id: string, name: string, arguments: Json, partialJson: Option<string>)

  datatype Message = Message(content: map<int, Block>, stopReason: string, errorMessage: Option<string>)

  /** What the stream hands to its reader; `Ended` carries the finished text, `Called` the finished call. */
  datatype Event =
    | Begun
    | Opened(of: ProxyEvent)
    | Grown(of: ProxyEvent)
    | Ended(index: int, text: string)
    | Called(index: int, call: Block)
    | Completed(message: Message)
    | Failed(message: Message)

  /** `JSON.parse` with its failures, the tolerant parser of unfinished arguments, and its `{}`. */
  datatype Codec = Codec(parse: string -> Parsed<ProxyEvent>, salvage: string -> Json, empty: Json)

  /** An exception leaves the message as it was. */
  datatype Outcome = Throws(text: string) | Keeps(message: Message, event: Option<Event>)

  function Process(c: Codec, m: Message, e: ProxyEvent): Outcome {
    match e
    case Start => Keeps(m, Some(Begun))
    case TextStart(i) => Keeps(m.(content := m.content[i := Text("", None)]), Some(Opened(e)))
    case TextDelta(i, delta) =>
      if i in m.content && m.content[i].Text?
      then Keeps(m.(content := m.content[i := Text(m.content[i].text + delta, m.content[i].signature)]), Some(Grown(e)))
      else Throws("Received text_delta for non-text content")
    case TextEnd(i, signature) =>
      if i in m.content && m.content[i].Text?
      then Keeps(m.(content := m.content[i := Text(m.content[i].text, signature)]), Some(Ended(i, m.content[i].text)))
      else Throws("Received text_end for non-text content")
    case ThinkingStart(i) => Keeps(m.(content := m.content[i := Thinking("", None)]), Some(Opened(e)))
    case ThinkingDelta(i, delta) =>
      if i in m.content && m.content[i].Thinking?
      then Keeps(m.(content := m.content[i := Thinking(m.content[i].text + delta, m.content[i].signature)]),
        Some(Grown(e)))
      else Throws("Received thinking_delta for non-thinking content")
    case ThinkingEnd(i, signature) =>
      if i in m.content && m.content[i].Thinking?
      then Keeps(m.(content := m.content[i := Thinking(m.content[i].text, signature)]),
        Some(Ended(i, m.content[i].text)))
      else Throws("Received thinking_end for non-thinking content")
    case ToolCallStart(i, id, name) =>
      Keeps(m.(content := m.content[i := ToolCall(id, name, c.empty, Some(""))]), Some(Opened(e)))
    case ToolCallDelta(i, delta) =>
      if i in m.content && m.content[i].ToolCall?
      then
        // After `toolcall_end` the field is gone, and `+=` starts from the word for its absence.
        var json := (if m.content[i].partialJson.Some? then m.content[i].partialJson.value else "undefined") + delta;
        Keeps(m.(content := m.content[i := m.content[i].(partialJson := Some(json), arguments := c.salvage(json))]),
          Some(Grown(e)))
      else Throws("Received toolcall_delta for non-toolCall content")
    case ToolCallEnd(i) =>
      if i in m.content && m.content[i].ToolCall?
      then
        var call := m.content[i].(partialJson := None);
        Keeps(m.(content := m.content[i := call]), Some(Called(i, call)))
      else Keeps(m, None)
    case Done(reason) =>
      var m' := m.(stopReason := reason);
      Keeps(m', Some(Completed(m')))
    case Error(reason, message) =>
      var m' := m.(stopReason := reason, errorMessage := message);
      Keeps(m', Some(Failed(m')))
    case Unknown => Keeps(m, None)
  }

  // ---------- What a sequence of events rebuilds ----------

  const EMPTY := Message(map[], "pending", None)

  /** The message after all events, or `None` if one of them throws. */
  function Rebuild(c: Codec, es: seq<ProxyEvent>): Option<Message> {
    if es == [] then Some(EMPTY)
    else
      match Rebuild(c, es[..|es| - 1])
      case None => None
      case Some(m) =>
        match Process(c, m, es[|es| - 1])
        case Throws(_) => None
        case Keeps(m', _) => Some(m')
  }

  predicate About(e: ProxyEvent, i: int) {
    !e.Start? && !e.Done? && !e.Error? && !e.Unknown? && e.index == i
  }

  predicate Opens(e: ProxyEvent) {
    e.TextStart? || e.ThinkingStart? || e.ToolCallStart?
  }

  predicate Grows(e: ProxyEvent) {
    e.TextDelta? || e.ThinkingDelta? || e.ToolCallDelta?
  }

  /** The last event that started block `i`. */
  function Opening(es: seq<ProxyEvent>, i: int): (r: Option<ProxyEvent>)
    ensures r.Some? ==> Opens(r.value)
  {
    if es == [] then None
    else
      var e := es[|es| - 1];
      if About(e, i) && Opens(e) then Some(e) else Opening(es[..|es| - 1], i)
  }

  /** The deltas of block `i` since it was last started, put together. */
  function Deltas(es: seq<ProxyEvent>, i: int): string {
    if es == [] then ""
    else
      var e, front := es[|es| - 1], es[..|es| - 1];
      if !About(e, i) then Deltas(front, i)
      else if Opens(e) then ""
      else if Grows(e) then Deltas(front, i) + e.delta
      else Deltas(front, i)
  }

  /** Block `i` was ended since it was last started. */
  predicate Closed(es: seq<ProxyEvent>, i: int) {
    es != [] &&
    var e, front := es[|es| - 1], es[..|es| - 1];
    if About(e, i) then e.TextEnd? || e.ThinkingEnd? || e.ToolCallEnd? || (!Opens(e) && Closed(front, i))
    else Closed(front, i)
  }

  /** No delta of block `i` came after its end. */
  predicate Tidy(es: seq<ProxyEvent>, i: int) {
    es == [] ||
    var e, front := es[|es| - 1], es[..|es| - 1];
    if !About(e, i) then Tidy(front, i)
    else if Opens(e) then true
    else Tidy(front, i) && (Grows(e) ==> !Closed(front, i))
  }

  predicate Same(e: ProxyEvent, opening: ProxyEvent) {
    match e
    case TextDelta(_, _) => opening.TextStart?
    case TextEnd(_, _) => opening.TextStart?
    case ThinkingDelta(_, _) => opening.ThinkingStart?
    case ThinkingEnd(_, _) => opening.ThinkingStart?
    case ToolCallDelta(_, _) => opening.ToolCallStart?
    case _ => true
  }

  /** An event that is accepted after `es`: its block was started, as a block of that kind. Only the end of a
      tool call is let through without its start. */
  predicate Fits(es: seq<ProxyEvent>, e: ProxyEvent) {
    e.Start? || e.Done? || e.Error? || e.Unknown? || Opens(e) || e.ToolCallEnd? ||
    (Opening(es, e.index).Some? && Same(e, Opening(es, e.index).value))
  }

  ghost predicate AllFit(es: seq<ProxyEvent>) {
    forall k :: 0 <= k < |es| ==> Fits(es[..k], es[k])
  }

  ghost predicate Rebuilt(c: Codec, es: seq<ProxyEvent>, i: int, content: map<int, Block>) {
    match Opening(es, i)
    case None => i !in content
    case Some(opening) =>
      i in content &&
      match opening
      case TextStart(_) => content[i].Text? && content[i].text == Deltas(es, i)
      case ThinkingStart(_) => content[i].Thinking? && content[i].text == Deltas(es, i)
      case ToolCallStart(_, id, name) =>
        && content[i].ToolCall? && content[i].id == id && content[i].name == name
        && (Tidy(es, i) ==>
              && content[i].partialJson == (if Closed(es, i) then None else Some(Deltas(es, i)))
              && (content[i].arguments == c.salvage(Deltas(es, i))
                    || (Deltas(es, i) == "" && content[i].arguments == c.empty)))
      case _ => true
  }

  lemma Latest(front: seq<ProxyEvent>, e: ProxyEvent)
    ensures (front + [e])[..|front + [e]| - 1] == front && (front + [e])[|front + [e]| - 1] == e
  {
  }

  /** One more event: block `i` follows its own events alone. */
  lemma RebuiltStep(c: Codec, front: seq<ProxyEvent>, e: ProxyEvent, m: Message, i: int)
    requires Rebuilt(c, front, i, m.content)
    requires Process(c, m, e).Keeps?
    ensures Rebuilt(c, front + [e], i, Process(c, m, e).message.content)
  {
    Latest(front, e);
    if !About(e, i) {
      OtherBlock(c, m, e, i);
      hide Process;
    }
  }

  lemma FitsOrThrows(c: Codec, front: seq<ProxyEvent>, e: ProxyEvent, m: Message)
    requires forall i :: Rebuilt(c, front, i, m.content)
    ensures Process(c, m, e).Keeps? <==> Fits(front, e)
  {
    Kept(c, m, e);
    hide Process;
    if !(e.Start? || e.Done? || e.Error? || e.Unknown?) { assert Rebuilt(c, front, e.index, m.content); }
  }

  /** Which events are accepted, by the block they name. */
  lemma Kept(c: Codec, m: Message, e: ProxyEvent)
    ensures Process(c, m, e).Keeps? <==>
      match e
      case TextDelta(i, _) => i in m.content && m.content[i].Text?
      case TextEnd(i, _) => i in m.content && m.content[i].Text?
      case ThinkingDelta(i, _) => i in m.content && m.content[i].Thinking?
      case ThinkingEnd(i, _) => i in m.content && m.content[i].Thinking?
      case ToolCallDelta(i, _) => i in m.content && m.content[i].ToolCall?
      case _ => true
  {}

  /** A sequence of events is accepted exactly when each fits the block it names, and then every block is
      what its own last start and the deltas since then make it, however the blocks are interleaved. */
  lemma {:induction false} RebuiltBlocks(c: Codec, es: seq<ProxyEvent>)
    ensures Rebuild(c, es).Some? <==> AllFit(es)
    ensures Rebuild(c, es).Some? ==> forall i :: Rebuilt(c, es, i, Rebuild(c, es).value.content)
  {
    if es != [] {
      var front, e := es[..|es| - 1], es[|es| - 1];
      assert es == front + [e];
      RebuiltBlocks(c, front);
      LastFits(es);
      if Rebuild(c, front).Some? {
        var m := Rebuild(c, front).value;
        FitsOrThrows(c, front, e, m);
        if Process(c, m, e).Keeps? {
          forall i ensures Rebuilt(c, es, i, Process(c, m, e).message.content) { RebuiltStep(c, front, e, m, i); }
        }
      }
    }
  }

  lemma LastFits(es: seq<ProxyEvent>)
    requires es != []
    ensures AllFit(es) <==> AllFit(es[..|es| - 1]) && Fits(es[..|es| - 1], es[|es| - 1])
  {
    var front := es[..|es| - 1];
    assert forall k :: 0 <= k < |front| ==> es[..k] == front[..k] && es[k] == front[k];
  }

  function Only(es: seq<ProxyEvent>, i: int): seq<ProxyEvent> {
    if es == [] then []
    else if About(es[|es| - 1], i) then Only(es[..|es| - 1], i) + [es[|es| - 1]]
    else Only(es[..|es| - 1], i)
  }

  function At(m: Message, i: int): Option<Block> {
    if i in m.content then Some(m.content[i]) else None
  }

  lemma SameBlock(c: Codec, m: Message, n: Message, e: ProxyEvent, i: int)
    requires Process(c, m, e).Keeps? && About(e, i) && At(m, i) == At(n, i)
    ensures Process(c, n, e).Keeps? && At(Process(c, n, e).message, i) == At(Process(c, m, e).message, i)
  {
  }

  lemma OtherBlock(c: Codec, m: Message, e: ProxyEvent, i: int)
    requires Process(c, m, e).Keeps? && !About(e, i)
    ensures At(Process(c, m, e).message, i) == At(m, i)
  {
  }

  lemma RebuildNext(c: Codec, front: seq<ProxyEvent>, e: ProxyEvent)
    ensures Rebuild(c, front + [e]).Some? <==> Rebuild(c, front).Some? && Process(c, Rebuild(c, front).value, e).Keeps?
    ensures Rebuild(c, front + [e]).Some? ==>
      Rebuild(c, front + [e]).value == Process(c, Rebuild(c, front).value, e).message
  {}

  lemma OnlyNext(front: seq<ProxyEvent>, e: ProxyEvent, i: int)
    ensures Only(front + [e], i) == if About(e, i) then Only(front, i) + [e] else Only(front, i)
  {}

  /** Blocks do not interfere: taking away every event of the other blocks leaves block `i` as it was. */
  lemma {:induction false} BlocksAreIndependent(c: Codec, es: seq<ProxyEvent>, i: int)
    requires Rebuild(c, es).Some?
    ensures Rebuild(c, Only(es, i)).Some? && At(Rebuild(c, Only(es, i)).value, i) == At(Rebuild(c, es).value, i)
  {
    if es != [] {
      var front, e := es[..|es| - 1], es[|es| - 1];
      assert es == front + [e];
      hide Process, At, About, Rebuild, Only;
      RebuildNext(c, front, e);
      OnlyNext(front, e, i);
      BlocksAreIndependent(c, front, i);
      if About(e, i) {
        RebuildNext(c, Only(front, i), e);
        SameBlock(c, Rebuild(c, front).value, Rebuild(c, Only(front, i)).value, e, i);
      } else {
        OtherBlock(c, Rebuild(c, front).value, e, i);
      }
    }
  }

  /** A delta after `toolcall_end` does not go on from the arguments received before it: the text starts
      again from the word for the missing field, so the call is parsed from the wrong text unless the
      earlier deltas happen to spell that word. */
  lemma DeltaAfterEndRestarts(c: Codec, front: seq<ProxyEvent>, i: int, delta: string)
    requires Rebuild(c, front).Some? && Tidy(front, i) && Closed(front, i)
    requires Opening(front, i).Some? && Opening(front, i).value.ToolCallStart?
    ensures var es := front + [ToolCallDelta(i, delta)];
      && Rebuild(c, es).Some? && i in Rebuild(c, es).value.content
      && Rebuild(c, es).value.content[i].ToolCall?
      && Rebuild(c, es).value.content[i].partialJson == Some("undefined" + delta)
      && (Rebuild(c, es).value.content[i].partialJson == Some(Deltas(es, i)) <==> Deltas(front, i) == "undefined")
  {
    RebuiltBlocks(c, front);
    assert Rebuilt(c, front, i, Rebuild(c, front).value.content);
    Latest(front, ToolCallDelta(i, delta));
    var was := Deltas(front, i);
    if was + delta == "undefined" + delta {
      assert |was| == |"undefined"|;
      assert (was + delta)[..|was|] == was && ("undefined" + delta)[..|was|] == "undefined";
    }
  }
}
