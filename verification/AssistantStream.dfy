/** `streamAssistantResponse` of runtimes/pi/packages/agent/src/agent-loop.ts: a provider's stream becomes one
    message of the context and the events that announce it. */
module AssistantStream {

  import opened AgentEvents
  import opened Options

  type AssistantMessage = m: Message | m.Assistant? witness Assistant(Text(""), [], Pending, None)

  /** `Delta` stands for every event that carries a grown partial message, `End` for `done` and `error`. */
  datatype StreamEvent = Start(partial: AssistantMessage) | Delta(partial: AssistantMessage) | End

  /** The events of a stream, which may end with or without `End`, and the result it settles with. */
  datatype Response = Response(events: seq<StreamEvent>, final: AssistantMessage)

  class Context {
    var messages: seq<Message>

    constructor (messages: seq<Message>)
      ensures this.messages == messages
    {
      this.messages := messages;
    }
  }

  /** The events that are looked at. */
  function Live(events: seq<StreamEvent>): (n: nat)
    ensures n <= |events| && (n < |events| ==> events[n].End?)
    ensures forall i :: 0 <= i < n ==> !events[i].End?
  {
    if events == [] || events[0].End? then 0 else 1 + Live(events[1..])
  }

  lemma LiveIs(events: seq<StreamEvent>, n: nat)
    requires n <= |events| && (n < |events| ==> events[n].End?)
    requires forall i :: 0 <= i < n ==> !events[i].End?
    ensures n == Live(events)
  {
  }

  function Starts(events: seq<StreamEvent>): nat {
    if events == [] then 0 else Starts(events[..|events| - 1]) + if events[|events| - 1].Start? then 1 else 0
  }

  /** The partial messages a stream has put into the context: each `start` adds one, and later events
      replace the last. */
  function Pushed(events: seq<StreamEvent>): (r: seq<Message>)
    ensures |r| == Starts(events)
  {
    if events == [] then []
    else
      var front, e := Pushed(events[..|events| - 1]), events[|events| - 1];
      match e
      case Start(p) => front + [p]
      case Delta(p) => if front == [] then [] else front[|front| - 1 := p]
      case End => front
  }

  /** The events these announce. */
  function Shown(events: seq<StreamEvent>): seq<Event> {
    if events == [] then []
    else
      var front, e := Shown(events[..|events| - 1]), events[|events| - 1];
      match e
      case Start(p) => front + [MessageStart(p)]
      case Delta(p) => if Starts(events[..|events| - 1]) == 0 then front else front + [MessageUpdate(p)]
      case End => front
  }

  /** All events of a response: one bracket, opened by the first start or else by the final message. */
  function Announced(r: Response): seq<Event> {
    var live := r.events[..Live(r.events)];
    Shown(live) + (if Starts(live) == 0 then [MessageStart(r.final)] else []) + [MessageEnd(r.final)]
  }

  /** The starts too many: their partial messages stay in the context. */
  function Extra(r: Response): nat {
    var k := Starts(r.events[..Live(r.events)]);
    if k <= 1 then 0 else k - 1
  }

  function Strays(r: Response): (s: seq<Message>)
    ensures |s| == Extra(r)
  {
    var pushed := Pushed(r.events[..Live(r.events)]);
    if pushed == [] then [] else pushed[..|pushed| - 1]
  }

  /** How many events come before the first start. */
  function Before(events: seq<StreamEvent>): (n: nat)
    ensures n <= |events| && (n < |events| ==> events[n].Start?)
    ensures forall i :: 0 <= i < n ==> !events[i].Start?
  {
    if events == [] || events[0].Start? then 0 else 1 + Before(events[1..])
  }

  lemma BeforeIs(events: seq<StreamEvent>, n: nat)
    requires n <= |events| && (n < |events| ==> events[n].Start?) && forall i :: 0 <= i < n ==> !events[i].Start?
    ensures n == Before(events)
  {}

  lemma {:induction false} StartsIff(events: seq<StreamEvent>)
    ensures Starts(events) == 0 <==> Before(events) == |events|
  {
    if events != [] {
      var front := events[..|events| - 1];
      StartsIff(front);
      BeforeIs(front, if Before(events) < |events| then Before(events) else |front|);
    }
  }

  /** From its first start on, every event of a stream is announced, in order and with its own partial message. */
  lemma {:induction false} ShownAre(events: seq<StreamEvent>)
    requires forall i :: 0 <= i < |events| ==> !events[i].End?
    ensures var n, shown := Before(events), Shown(events);
      && |shown| == |events| - n
      && forall i :: 0 <= i < |shown| ==>
        shown[i] == if events[n + i].Start? then MessageStart(events[n + i].partial)
                    else MessageUpdate(events[n + i].partial)
  {
    if events != [] {
      var front := events[..|events| - 1];
      ShownAre(front);
      StartsIff(front);
      BeforeIs(front, if Before(events) < |front| then Before(events) else |front|);
    }
  }

  /** The context holds one partial message for each start, and the last of them is the latest there is; a start
      leaves those before it as they are. */
  lemma PushedAre(events: seq<StreamEvent>, e: StreamEvent)
    requires !e.End?
    ensures var before, after := Pushed(events), Pushed(events + [e]);
      if e.Start? then after == before + [e.partial]
      else |after| == |before| && (after != [] ==>
        after[..|after| - 1] == before[..|before| - 1] && after[|after| - 1] == e.partial)
  {
    assert (events + [e])[..|events|] == events;
  }

  /** After `k` starts: the bracket of the message is open once at most. */
  predicate Streaming(a: Account, b: Account, k: nat) {
    && b.told == a.told && b.open == a.open && b.marks == a.marks
    && (a.heard.Garbled? ==> b.heard.Garbled?)
    && (a.heard.InTurn? && a.open == multiset{} ==>
          if k == 0 then b.heard == a.heard
          else if k == 1 then b.heard.InMessage? && b.heard == InMessage(a.heard.told, a.heard.said, b.heard.started)
            && b.heard.started.Assistant?
          else b.heard.Garbled?)
  }

  /** The message has ended; with more than one start the trace is no longer grammatical. */
  predicate Streamed(a: Account, b: Account, final: Message, extra: nat) {
    && b.told == a.told + [final] && b.open == a.open && b.marks == a.marks
    && (a.heard.Garbled? ==> b.heard.Garbled?)
    && (a.heard.InTurn? && a.open == multiset{} ==>
          b.heard == if extra == 0 then InTurn(a.heard.told, a.heard.said + [final]) else Garbled)
  }

  lemma StreamingStep(a: Account, b: Account, k: nat, e: Event)
    requires Streaming(a, b, k)
    requires (e.MessageStart? || (e.MessageUpdate? && k > 0)) && e.message.Assistant?
    ensures Streaming(a, Count(b, e), if e.MessageStart? then k + 1 else k)
  {
  }

  lemma StreamingEnds(a: Account, b: Account, k: nat, final: Message)
    requires Streaming(a, b, k) && final.Assistant? && k > 0
    ensures Streamed(a, Count(b, MessageEnd(final)), final, k - 1)
  {
  }

  /** The context gains the final message, and one stray partial message for every start after the first;
      the transcript gains the final message alone. */
  method StreamAssistantResponse(context: Context, response: Response, st: AgentState)
    returns (message: AssistantMessage)
    requires st.Valid()
    modifies context, st
    ensures message == response.final
    ensures context.messages == old(context.messages) + Strays(response) + [response.final]
    ensures st.Valid() && st.since == old(st.since) && st.messages == old(st.messages) + [response.final]
    ensures st.trace == old(st.trace) + Announced(response)
    ensures Streamed(old(st.Account()), st.Account(), response.final, Extra(response))
  {
    hide Read, Count, Streaming, Streamed, Pushed, Starts, Shown;
    ghost var a, before := st.Account(), context.messages;
    var addedPartial, i := StreamPartials(context, response.events, st);
    LiveIs(response.events, i);
    ghost var b, k := st.Account(), Starts(response.events[..i]);
    message := response.final;
    if addedPartial {
      context.messages := context.messages[|context.messages| - 1 := message];
    } else {
      context.messages := context.messages + [message];
      StreamingStep(a, b, 0, MessageStart(message));
      st.ProcessEvent(MessageStart(message));
    }
    StreamingEnds(a, st.Account(), if addedPartial then k else 1, message);
    st.ProcessEvent(MessageEnd(message));
  }

  /** The loop over the events, up to `done` or `error`. */
  method StreamPartials(context: Context, events: seq<StreamEvent>, st: AgentState) returns (addedPartial: bool, i: nat)
    requires st.Valid()
    modifies context, st
    ensures i <= |events| && (i < |events| ==> events[i].End?) && forall j :: 0 <= j < i ==> !events[j].End?
    ensures context.messages == old(context.messages) + Pushed(events[..i])
      && addedPartial == (Pushed(events[..i]) != [])
    ensures st.Valid() && st.since == old(st.since) && st.messages == old(st.messages)
    ensures st.trace == old(st.trace) + Shown(events[..i])
    ensures Streaming(old(st.Account()), st.Account(), Starts(events[..i]))
  {
    hide Read, Count, Streaming, Streamed, Pushed, Starts, Shown;
    PushedNone();
    ghost var a := st.Account();
    addedPartial, i := false, 0;
    NothingStreamed(a);
    while i < |events| && !events[i].End?
      invariant 0 <= i <= |events| && forall j :: 0 <= j < i ==> !events[j].End?
      invariant context.messages == old(context.messages) + Pushed(events[..i])
      invariant addedPartial == (Pushed(events[..i]) != [])
      invariant st.Valid() && st.since == old(st.since) && st.messages == old(st.messages)
      invariant st.trace == old(st.trace) + Shown(events[..i])
      invariant Streaming(a, st.Account(), Starts(events[..i]))
    {
      PushedNext(events, i);
      match events[i] {
        case Start(partial) =>
          context.messages := context.messages + [partial];
          addedPartial := true;
          StreamingStep(a, st.Account(), Starts(events[..i]), MessageStart(partial));
          st.ProcessEvent(MessageStart(partial));
        case Delta(partial) =>
          if addedPartial {
            context.messages := context.messages[|context.messages| - 1 := partial];
            StreamingStep(a, st.Account(), Starts(events[..i]), MessageUpdate(partial));
            st.ProcessEvent(MessageUpdate(partial));
          }
      }
      i := i + 1;
    }
  }

  lemma PushedNone()
    ensures Pushed([]) == [] && Starts([]) == 0 && Shown([]) == []
  {
  }

  lemma PushedNext(events: seq<StreamEvent>, i: nat)
    requires i < |events| && !events[i].End?
    ensures Starts(events[..i + 1]) == Starts(events[..i]) + if events[i].Start? then 1 else 0
    ensures var before := Pushed(events[..i]);
      Pushed(events[..i + 1]) ==
        if events[i].Start? then before + [events[i].partial]
        else if before == [] then [] else before[|before| - 1 := events[i].partial]
    ensures Shown(events[..i + 1]) == Shown(events[..i]) +
      if events[i].Start? then [MessageStart(events[i].partial)]
      else if Starts(events[..i]) == 0 then [] else [MessageUpdate(events[i].partial)]
  {
    assert events[..i + 1][..i] == events[..i];
  }

  lemma NothingStreamed(a: Account)
    ensures Streaming(a, a, 0)
  {
  }
}
