/** The events of runtimes/pi/packages/agent/src/agent-loop.ts, the grammar their trace follows, and the
    state that `Agent.processEvents` of agent.ts rebuilds from them. */
module AgentEvents {

  import opened Options

  /** Content of a message: the text of an error result, or anything else. */
  datatype Body = Text(text: string) | Opaque(value: int)

  datatype StopReason = Pending | Stop | Length | ToolUse | Error | Aborted

  datatype ToolCall = ToolCall(id: string, name: string, arguments: Body)

  /** `User` stands for every message that is neither the assistant's nor a tool result. */
  datatype Message =
    | User(body: Body)
    | Assistant(body: Body, calls: seq<ToolCall>, stop: StopReason, error: Option<string>)
    | ToolResult(callId: string, name: string, body: Body, isError: bool)

  datatype Event =
    | AgentStart
    | AgentEnd(messages: seq<Message>)
    | TurnStart
    | TurnEnd(message: Message, results: seq<Message>)
    | MessageStart(message: Message)
    | MessageUpdate(message: Message)
    | MessageEnd(message: Message)
    | ToolStart(call: ToolCall)
    | ToolUpdate(call: ToolCall, partialResult: Body)
    | ToolEnd(call: ToolCall, result: Body, isError: bool)

  // ---------- What a trace says ----------

  /** Where a trace stands: `told` are the messages ended in earlier turns, `said` those of this turn. */
  datatype Heard =
    | Silent
    | Between(told: seq<Message>)
    | InTurn(told: seq<Message>, said: seq<Message>)
    | InMessage(told: seq<Message>, said: seq<Message>, started: Message)
    | Finished
    | Garbled

  /** A turn ends with the assistant's message of that turn and the tool results that followed it. */
  predicate Closes(said: seq<Message>, message: Message, results: seq<Message>) {
    && |said| > |results| && message.Assistant?
    && said[|said| - |results| - 1] == message && said[|said| - |results|..] == results
  }

  /** One event after a trace that stands at `h` with the calls `open`. */
  function Next(h: Heard, open: multiset<string>, e: Event): Heard {
    match e
    case AgentStart => if h.Silent? then Between([]) else Garbled
    case TurnStart => if h.Between? then InTurn(h.told, []) else Garbled
    case MessageStart(m) => if h.InTurn? && open == multiset{} then InMessage(h.told, h.said, m) else Garbled
    case MessageUpdate(m) => if h.InMessage? && h.started.Assistant? && m.Assistant? then h else Garbled
    case MessageEnd(m) =>
      if h.InMessage? && (m == h.started || (m.Assistant? && h.started.Assistant?))
      then InTurn(h.told, h.said + [m])
      else Garbled
    case ToolStart(_) => if h.InTurn? then h else Garbled
    case ToolUpdate(call, _) => if h.InTurn? && call.id in open then h else Garbled
    case ToolEnd(call, _, _) => if h.InTurn? && call.id in open then h else Garbled
    case TurnEnd(m, results) =>
      if h.InTurn? && open == multiset{} && Closes(h.said, m, results) then Between(h.told + h.said) else Garbled
    case AgentEnd(messages) => if h.Between? && messages == h.told then Finished else Garbled
  }

  /** The messages that ended, in order; the ids of the calls started and not ended; all that was said about
      tool calls; and where the trace stands. */
  datatype Account = Account(told: seq<Message>, open: multiset<string>, marks: multiset<Event>, heard: Heard)

  function Count(a: Account, e: Event): Account {
    Account(
      if e.MessageEnd? then a.told + [e.message] else a.told,
      if e.ToolStart? then a.open + multiset{e.call.id}
      else if e.ToolEnd? then a.open - multiset{e.call.id}
      else a.open,
      if e.ToolStart? || e.ToolUpdate? || e.ToolEnd? then a.marks + multiset{e} else a.marks,
      Next(a.heard, a.open, e))
  }

  function Read(es: seq<Event>): Account {
    if es == [] then Account([], multiset{}, multiset{}, Silent) else Count(Read(es[..|es| - 1]), es[|es| - 1])
  }

  lemma ReadSnoc(es: seq<Event>, e: Event)
    ensures Read(es + [e]) == Count(Read(es), e)
  {}

  predicate Tallies(told: seq<Message>, heard: Heard) {
    match heard
    case Silent => told == []
    case Between(before) => told == before
    case InTurn(before, said) => told == before + said
    case InMessage(before, said, _) => told == before + said
    case _ => true
  }

  /** A grammatical trace accounts for every message that ended. */
  predicate Accounted(a: Account) {
    Tallies(a.told, a.heard)
  }

  lemma NextTallies(told: seq<Message>, h: Heard, open: multiset<string>, e: Event)
    requires Tallies(told, h)
    ensures Tallies(if e.MessageEnd? then told + [e.message] else told, Next(h, open, e))
  {
    if e.MessageEnd? && h.InMessage? { assert h.told + h.said + [e.message] == h.told + (h.said + [e.message]); }
    if e.TurnStart? && h.Between? { assert h.told + [] == h.told; }
    hide Closes;
  }

  lemma CountKeeps(a: Account, e: Event)
    requires Accounted(a)
    ensures Accounted(Count(a, e))
  {
    NextTallies(a.told, a.heard, a.open, e);
    hide Next, Tallies;
  }

  lemma {:induction false} HeardIsTold(es: seq<Event>)
    ensures Accounted(Read(es))
  {
    if es != [] {
      HeardIsTold(es[..|es| - 1]);
      CountKeeps(Read(es[..|es| - 1]), es[|es| - 1]);
    }
  }

  lemma EndSays(a: Account, e: Event)
    requires Accounted(a)
    ensures e.AgentEnd? && !Next(a.heard, a.open, e).Garbled? ==>
              Next(a.heard, a.open, e).Finished? && e.messages == a.told == Count(a, e).told
  {}

  lemma {:induction false} Unfolded(es: seq<Event>)
    requires es != []
    ensures var a, e := Read(es[..|es| - 1]), es[|es| - 1];
      Read(es).heard == Next(a.heard, a.open, e) && Read(es).told == Count(a, e).told
  {
    hide Next;
  }

  lemma EndIsLast(h: Heard, open: multiset<string>, e: Event)
    requires h.Finished? || h.Garbled? || e.AgentEnd?
    ensures Next(h, open, e).Garbled? || (Next(h, open, e).Finished? && !h.Finished? && !h.Garbled?)
  {}

  /** A trace that goes on has no `agent_end`. */
  lemma {:induction false} UnfinishedHasNoEnd(es: seq<Event>, i: nat)
    requires i < |es| && !Read(es).heard.Finished? && !Read(es).heard.Garbled?
    ensures !es[i].AgentEnd?
  {
    hide Next, Read, Count;
    var a, e := Read(es[..|es| - 1]), es[|es| - 1];
    Unfolded(es);
    if a.heard.Finished? || a.heard.Garbled? || e.AgentEnd? { EndIsLast(a.heard, a.open, e); }
    if i < |es| - 1 { UnfinishedHasNoEnd(es[..|es| - 1], i); }
  }

  /** `agent_end` comes last and once, and lists every message that ended in the run. */
  lemma {:induction false} NothingAfterTheEnd(es: seq<Event>, i: nat)
    requires i < |es| && es[i].AgentEnd? && !Read(es).heard.Garbled?
    ensures i == |es| - 1 && Read(es).heard.Finished? && es[i].messages == Read(es).told
  {
    var front, e := es[..|es| - 1], es[|es| - 1];
    var a := Read(front);
    Unfolded(es);
    HeardIsTold(front);
    EndSays(a, e);
    hide Next, Read, Accounted, Count;
    if a.heard.Finished? || a.heard.Garbled? { EndIsLast(a.heard, a.open, e); }
    else if i < |es| - 1 { UnfinishedHasNoEnd(front, i); }
  }

  lemma OpenStays(a: Account, e: Event, pending: set<string>)
    requires forall id :: id in pending ==> id in a.open
    ensures var now :=
        if e.ToolStart? then pending + {e.call.id} else if e.ToolEnd? then pending - {e.call.id} else pending;
      forall id :: id in now ==> id in Count(a, e).open
  {
    hide Next;
  }

  // ---------- The agent's state ----------

  class AgentState {
    var messages: seq<Message>
    var streamingMessage: Option<Message>
    var pendingToolCalls: set<string>
    var errorMessage: Option<string>
    /** All events of the run, and the transcript before it. */
    ghost var trace: seq<Event>
    ghost var since: seq<Message>

    ghost function Account(): Account
      reads this
    {
      Read(trace)
    }

    /** The transcript is what it was before the run, then every message that ended since; a call shown as
        pending has started and not ended. */
    ghost predicate Valid()
      reads this
    {
      && messages == since + Account().told
      && (forall id :: id in pendingToolCalls ==> id in Account().open)
    }

    constructor (messages: seq<Message>)
      ensures Valid() && trace == [] && since == messages && this.messages == messages
      ensures streamingMessage.None? && pendingToolCalls == {}
    {
      this.messages, streamingMessage, pendingToolCalls, errorMessage := messages, None, {}, None;
      trace, since := [], messages;
    }

    /** The start of `runWithLifecycle`. */
    method Begin()
      requires pendingToolCalls == {}
      modifies this
      ensures Valid() && trace == [] && since == messages == old(messages) && streamingMessage.None?
        && errorMessage.None?
      ensures pendingToolCalls == {}
    {
      streamingMessage, errorMessage := None, None;
      trace, since := [], messages;
    }

    /** `finishRun`. */
    method Finish()
      requires Valid()
      modifies this
      ensures Valid() && trace == old(trace) && since == old(since) && messages == old(messages)
        && errorMessage == old(errorMessage)
      ensures streamingMessage.None? && pendingToolCalls == {}
    {
      streamingMessage, pendingToolCalls := None, {};
    }

    /** `processEvents`: reduces the state by one event. */
    method ProcessEvent(e: Event)
      requires Valid()
      modifies this
      ensures Valid() && since == old(since) && trace == old(trace) + [e]
      ensures messages == if e.MessageEnd? then old(messages) + [e.message] else old(messages)
      ensures streamingMessage ==
        if e.MessageStart? || e.MessageUpdate? then Some(e.message)
        else if e.MessageEnd? || e.AgentEnd? then None
        else old(streamingMessage)
      ensures errorMessage ==
        if e.TurnEnd? && e.message.Assistant? && e.message.error.Some? && e.message.error.value != ""
        then e.message.error
        else old(errorMessage)
      ensures pendingToolCalls ==
        if e.ToolStart? then old(pendingToolCalls) + {e.call.id}
        else if e.ToolEnd? then old(pendingToolCalls) - {e.call.id}
        else old(pendingToolCalls)
      ensures Account() == Count(old(Account()), e)
    {
      ReadSnoc(trace, e);
      hide Next, Read;
      assert Read(trace + [e]).told == if e.MessageEnd? then Account().told + [e.message] else Account().told;
      OpenStays(Account(), e, pendingToolCalls);
      hide Count;
      trace := trace + [e];
      match e {
        case MessageStart(m) => streamingMessage := Some(m);
        case MessageUpdate(m) => streamingMessage := Some(m);
        case MessageEnd(m) =>
          streamingMessage := None;
          messages := messages + [m];
        case ToolStart(call) => pendingToolCalls := pendingToolCalls + {call.id};
        case ToolEnd(call, _, _) => pendingToolCalls := pendingToolCalls - {call.id};
        case TurnEnd(m, _) =>
          if m.Assistant? && m.error.Some? && m.error.value != "" { errorMessage := m.error; }
        case AgentEnd(_) => streamingMessage := None;
        case _ =>
      }
    }
  }
}
