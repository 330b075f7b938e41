/** Tool batches of runtimes/pi/packages/agent/src/agent-loop.ts: preparing, executing and finalizing calls,
    in order or in parallel, and what every schedule has in common. */
module ToolBatches {

  import opened AgentEvents
  import opened Options

  datatype Tool = Tool(name: string, sequential: bool)

  datatype Result = Result(body: Body, terminate: bool)

  datatype Attempt = Returned(result: Result) | Threw(text: string)

  /** The `beforeToolCall` hook. */
  datatype Verdict = NoHook | Allowed | Blocked(reason: string) | HookThrew(text: string)

  /** The `afterToolCall` hook; absent fields keep what the tool gave. */
  datatype Review =
    | Unchanged
    | Changed(body: Option<Body>, terminate: Option<bool>, isError: Option<bool>)
    | ReviewThrew(text: string)

  /** All that happens outside for one call: `invalid` is the error of preparing or validating its
      arguments; the three flags are the abort signal after the hook, at the end of the preparation, and
      when the call has been dealt with. */
  datatype Input = Input(
    invalid: Option<string>,
    verdict: Verdict,
    abortedAfterHook: bool,
    abortedAtEnd: bool,
    updates: seq<Body>,
    execution: Attempt,
    review: Review,
    abortedAfter: bool)

  datatype Preparation = Immediate(result: Result) | Ready

  datatype Finalized = Finalized(call: ToolCall, result: Result, isError: bool)

  datatype Batch = Batch(messages: seq<Message>, terminate: bool)

  function ErrorResult(text: string): Result {
    Result(Text(text), false)
  }

  predicate Known(tools: seq<Tool>, name: string) {
    exists i :: 0 <= i < |tools| && tools[i].name == name
  }

  function Prepare(tools: seq<Tool>, call: ToolCall, input: Input): Preparation {
    if !Known(tools, call.name) then Immediate(ErrorResult("Tool " + call.name + " not found"))
    else if input.invalid.Some? then Immediate(ErrorResult(input.invalid.value))
    else if input.verdict.HookThrew? then Immediate(ErrorResult(input.verdict.text))
    else if !input.verdict.NoHook? && input.abortedAfterHook then Immediate(ErrorResult("Operation aborted"))
    else if input.verdict.Blocked? then
      Immediate(ErrorResult(if input.verdict.reason != "" then input.verdict.reason else "Tool execution was blocked"))
    else if input.abortedAtEnd then Immediate(ErrorResult("Operation aborted"))
    else Ready
  }

  /** What a tool returns when it is executed, and whether that is an error. */
  function Yielded(input: Input): (Result, bool) {
    match input.execution
    case Returned(result) => (result, false)
    case Threw(text) => (ErrorResult(text), true)
  }

  function Finalize(call: ToolCall, executed: (Result, bool), review: Review): Finalized {
    match review
    case Unchanged => Finalized(call, executed.0, executed.1)
    case Changed(body, terminate, isError) =>
      Finalized(call,
                Result(if body.Some? then body.value else executed.0.body,
                       if terminate.Some? then terminate.value else executed.0.terminate),
                if isError.Some? then isError.value else executed.1)
    case ReviewThrew(text) => Finalized(call, ErrorResult(text), true)
  }

  function Outcome(tools: seq<Tool>, call: ToolCall, input: Input): (f: Finalized)
    ensures f.call == call
  {
    match Prepare(tools, call, input)
    case Immediate(result) => Finalized(call, result, true)
    case Ready => Finalize(call, Yielded(input), input.review)
  }

  function ResultMessage(f: Finalized): Message {
    ToolResult(f.call.id, f.call.name, f.result.body, f.isError)
  }

  /** How many calls are dealt with before the abort signal ends the batch. */
  function Attended(inputs: seq<Input>): (n: nat)
    ensures n <= |inputs| && (inputs != [] ==> n > 0)
    ensures n == |inputs| || inputs[n - 1].abortedAfter
    ensures forall i :: 0 <= i < n - 1 ==> !inputs[i].abortedAfter
  {
    if inputs == [] then 0 else if inputs[0].abortedAfter then 1 else 1 + Attended(inputs[1..])
  }

  function Outcomes(tools: seq<Tool>, calls: seq<ToolCall>, inputs: seq<Input>): (fs: seq<Finalized>)
    requires |calls| == |inputs|
    ensures |fs| == |calls| && forall i :: 0 <= i < |fs| ==> fs[i] == Outcome(tools, calls[i], inputs[i])
  {
    seq(|calls|, i requires 0 <= i < |calls| => Outcome(tools, calls[i], inputs[i]))
  }

  function ResultMessages(fs: seq<Finalized>): (ms: seq<Message>)
    ensures |ms| == |fs| && forall i :: 0 <= i < |ms| ==> ms[i] == ResultMessage(fs[i])
  {
    seq(|fs|, i requires 0 <= i < |fs| => ResultMessage(fs[i]))
  }

  function Terminates(fs: seq<Finalized>): bool {
    |fs| > 0 && forall i :: 0 <= i < |fs| ==> fs[i].result.terminate
  }

  /** The positions of the calls that are executed, among the first `n`. */
  function Executed(tools: seq<Tool>, calls: seq<ToolCall>, inputs: seq<Input>, n: nat): (r: seq<nat>)
    requires n <= |calls| == |inputs|
    ensures forall i :: 0 <= i < |r| ==> r[i] < n
  {
    if n == 0 then []
    else if Prepare(tools, calls[n - 1], inputs[n - 1]).Ready? then Executed(tools, calls, inputs, n - 1) + [n - 1]
    else Executed(tools, calls, inputs, n - 1)
  }

  lemma {:induction false} ExecutedAre(tools: seq<Tool>, calls: seq<ToolCall>, inputs: seq<Input>, n: nat)
    requires n <= |calls| == |inputs|
    ensures var r := Executed(tools, calls, inputs, n);
      && (forall i, j :: 0 <= i < j < |r| ==> r[i] < r[j])
      && (forall k :: 0 <= k < n ==> (k in r <==> Prepare(tools, calls[k], inputs[k]).Ready?))
  {
    hide Prepare;
    if n > 0 { ExecutedAre(tools, calls, inputs, n - 1); }
  }

  /** Those calls, in order. */
  function ExecutedCalls(tools: seq<Tool>, calls: seq<ToolCall>, inputs: seq<Input>, n: nat): seq<ToolCall>
    requires n <= |calls| == |inputs|
  {
    if n == 0 then [] else ExecutedCalls(tools, calls, inputs, n - 1) + IfReady(tools, calls[n - 1], inputs[n - 1])
  }

  function IfReady(tools: seq<Tool>, call: ToolCall, input: Input): seq<ToolCall> {
    if Prepare(tools, call, input).Ready? then [call] else []
  }

  lemma {:induction false} ExecutedAt(tools: seq<Tool>, calls: seq<ToolCall>, inputs: seq<Input>, n: nat)
    requires n <= |calls| == |inputs|
    ensures var positions, executed := Executed(tools, calls, inputs, n), ExecutedCalls(tools, calls, inputs, n);
      |executed| == |positions| && forall j :: 0 <= j < |positions| ==> executed[j] == calls[positions[j]]
  {
    hide Prepare;
    if n > 0 { ExecutedAt(tools, calls, inputs, n - 1); }
  }

  function EndOf(f: Finalized): Event {
    ToolEnd(f.call, f.result.body, f.isError)
  }

  function UpdatesOf(call: ToolCall, updates: seq<Body>): (us: seq<Event>)
    ensures |us| == |updates| && forall i :: 0 <= i < |us| ==> us[i] == ToolUpdate(call, updates[i])
  {
    seq(|updates|, i requires 0 <= i < |updates| => ToolUpdate(call, updates[i]))
  }

  /** What is to be said about one call: its start, the updates of its execution if there is one, its end. */
  function MarksOf(tools: seq<Tool>, call: ToolCall, input: Input): multiset<Event> {
    multiset{ToolStart(call)}
    + (if Prepare(tools, call, input).Ready? then multiset(UpdatesOf(call, input.updates)) else multiset{})
    + multiset{EndOf(Outcome(tools, call, input))}
  }

  /** All that is said about a call: that it starts, what it gives meanwhile if it is executed, and that it ends, with
      the very body and flag of its result message. */
  lemma MarksSay(tools: seq<Tool>, call: ToolCall, input: Input)
    ensures var m := ResultMessage(Outcome(tools, call, input));
      MarksOf(tools, call, input) ==
      multiset{ToolStart(call), ToolEnd(call, m.body, m.isError)}
      + (if Clear(tools, call, input)
         then multiset(seq(|input.updates|, i requires 0 <= i < |input.updates| => ToolUpdate(call, input.updates[i])))
         else multiset{})
  {
    ClearIsReady(tools, [call], [input]);
    assert Clear(tools, [call][0], [input][0]) <==> Prepare(tools, call, input).Ready?;
    hide Prepare, Clear, Outcome;
    assert UpdatesOf(call, input.updates) ==
      seq(|input.updates|, i requires 0 <= i < |input.updates| => ToolUpdate(call, input.updates[i]));
  }

  /** The same of a call that is not executed because the answer was cut off. */
  lemma TruncationSays(call: ToolCall)
    ensures TruncationMarks([call]) ==
      multiset{ToolStart(call), ToolEnd(call, Text(TruncationText(call.name)), true)}
    ensures
      ResultMessage(TruncationError(call)) == ToolResult(call.id, call.name, Text(TruncationText(call.name)), true)
  {
    hide TruncationText;
    assert [call][..0] == [];
    assert TruncationMarks([]) == multiset{};
  }

  function BatchMarks(tools: seq<Tool>, calls: seq<ToolCall>, inputs: seq<Input>, n: nat): multiset<Event>
    requires n <= |calls| == |inputs|
  {
    if n == 0 then multiset{} else BatchMarks(tools, calls, inputs, n - 1) + MarksOf(tools, calls[n - 1], inputs[n - 1])
  }

  // ---------- Methods ----------

  /** The tools of a run. `executed` has every call whose tool was executed, in the order of execution. */
  class ToolRunner {
    const tools: seq<Tool>
    ghost var executed: seq<ToolCall>

    constructor (tools: seq<Tool>)
      ensures this.tools == tools && executed == []
    {
      this.tools, executed := tools, [];
    }

    /** `tool.execute`. */
    method Execute(call: ToolCall, input: Input) returns (yielded: (Result, bool))
      modifies this
      ensures yielded == Yielded(input) && executed == old(executed) + [call]
    {
      executed := executed + [call];
      yielded := Yielded(input);
    }
  }

  /** From `a` to `b` the `results` were told in the same turn, `marks` is all that was said about tool calls,
      and every call that was opened is closed. */
  predicate Adds(a: Account, b: Account, results: seq<Message>, marks: multiset<Event>) {
    && b.told == a.told + results && b.open == a.open && b.marks == a.marks + marks
    && (a.heard.InTurn? && a.open == multiset{} ==> b.heard == InTurn(a.heard.told, a.heard.said + results))
    && (a.heard.Garbled? ==> b.heard.Garbled?)
  }

  /** The trace has gone on, and no call was started. */
  ghost predicate Quiet(before: seq<Event>, after: seq<Event>) {
    before <= after && forall k :: |before| <= k < |after| ==> !after[k].ToolStart?
  }

  /** The trace has gone on, and no call was started while another was open, but for those `open` before. */
  ghost predicate OneByOne(before: seq<Event>, after: seq<Event>, open: multiset<string>) {
    && before <= after
    && forall k :: |before| <= k < |after| && after[k].ToolStart? ==> Read(after[..k]).open == open
  }

  lemma QuietNext(before: seq<Event>, after: seq<Event>, e: Event)
    requires Quiet(before, after) && !e.ToolStart?
    ensures Quiet(before, after + [e])
  {}

  lemma QuietMore(a: seq<Event>, b: seq<Event>, c: seq<Event>, open: multiset<string>)
    requires OneByOne(a, b, open) && Quiet(b, c)
    ensures OneByOne(a, c, open)
  {
    forall k | |a| <= k < |c| && c[k].ToolStart? ensures Read(c[..k]).open == open {
      assert k < |b| && c[k] == b[k] && c[..k] == b[..k];
    }
  }

  lemma Unmoved(before: seq<Event>)
    ensures Quiet(before, before) && forall open :: OneByOne(before, before, open)
  {}

  lemma StartsAlone(before: seq<Event>, call: ToolCall)
    ensures OneByOne(before, before + [ToolStart(call)], Read(before).open)
  {
    assert (before + [ToolStart(call)])[..|before|] == before;
  }

  lemma OneMore(a: seq<Event>, b: seq<Event>, c: seq<Event>, open: multiset<string>)
    requires OneByOne(a, b, open) && OneByOne(b, c, open)
    ensures OneByOne(a, c, open)
  {
    forall k | |a| <= k < |c| && c[k].ToolStart? ensures Read(c[..k]).open == open {
      if k < |b| { assert c[k] == b[k] && c[..k] == b[..k]; }
    }
  }

  lemma NothingAdded(a: Account)
    ensures Adds(a, a, [], multiset{})
  {
  }

  lemma OpenAsBefore(a: Account, b: Account, results: seq<Message>, marks: multiset<Event>)
    requires Adds(a, b, results, marks)
    ensures b.open == a.open
  {}

  lemma SayingAdds(a: Account, m: Message)
    ensures Adds(a, Count(Count(a, MessageStart(m)), MessageEnd(m)), [m], multiset{})
  {
  }

  /** A call that is opened, spoken of and closed. */
  lemma ClosingAdds(a: Account, b: Account, call: ToolCall, marks: multiset<Event>, end: Event)
    requires end.ToolEnd? && end.call == call
    requires b.told == a.told && b.open == a.open + multiset{call.id}
    requires b.marks == a.marks + multiset{ToolStart(call)} + marks
    requires a.heard.InTurn? || a.heard.Garbled? ==> b.heard == a.heard
    ensures Adds(a, Count(b, end), [], multiset{ToolStart(call)} + marks + multiset{end})
  {
    assert a.open + multiset{call.id} - multiset{call.id} == a.open;
    assert a.told + [] == a.told;
    assert a.heard.InTurn? ==> a.heard.said + [] == a.heard.said;
    var m := multiset{ToolStart(call)};
    assert a.marks + m + marks + multiset{end} == a.marks + (m + marks + multiset{end});
  }

  lemma Opening(a: Account, call: ToolCall)
    ensures Count(a, ToolStart(call)) ==
      Account(a.told, a.open + multiset{call.id}, a.marks + multiset{ToolStart(call)}, if a.heard.InTurn? then a.heard
        else Garbled)
  {
  }

  lemma AddsMore(a: Account, b: Account, c: Account, r1: seq<Message>, r2: seq<Message>, m1: multiset<Event>,
                 m2: multiset<Event>)
    requires Adds(a, b, r1, m1) && Adds(b, c, r2, m2)
    ensures Adds(a, c, r1 + r2, m1 + m2)
  {
  }

  method EmitToolResultMessage(m: Message, st: AgentState)
    requires st.Valid()
    modifies st
    ensures st.Valid() && st.since == old(st.since) && Quiet(old(st.trace), st.trace)
    ensures Adds(old(st.Account()), st.Account(), [m], multiset{})
  {
    hide Read, Count;
    SayingAdds(st.Account(), m);
    st.ProcessEvent(MessageStart(m));
    st.ProcessEvent(MessageEnd(m));
  }

  function TruncationText(name: string): string {
    "Tool call \"" + name + "\" was not executed: the response hit the output token limit, "
    + "so its arguments may be truncated. Re-issue the tool call with complete arguments."
  }

  function TruncationError(call: ToolCall): Finalized {
    Finalized(call, ErrorResult(TruncationText(call.name)), true)
  }

  function TruncationErrors(calls: seq<ToolCall>): seq<Finalized> {
    seq(|calls|, i requires 0 <= i < |calls| => TruncationError(calls[i]))
  }

  function TruncationMarks(calls: seq<ToolCall>): multiset<Event> {
    if calls == [] then multiset{}
    else
      var last := calls[|calls| - 1];
      TruncationMarks(calls[..|calls| - 1]) + multiset{ToolStart(last), EndOf(TruncationError(last))}
  }

  method EmitTruncated(f: Finalized, st: AgentState)
    requires st.Valid()
    modifies st
    ensures st.Valid() && st.since == old(st.since)
    ensures OneByOne(old(st.trace), st.trace, old(st.Account()).open)
    ensures Adds(old(st.Account()), st.Account(), [ResultMessage(f)], multiset{ToolStart(f.call), EndOf(f)})
  {
    hide Read, Count, Adds, Quiet, OneByOne;
    ghost var a := st.Account();
    StartsAlone(st.trace, f.call);
    Opening(a, f.call);
    st.ProcessEvent(ToolStart(f.call));
    assert st.Account().marks == st.Account().marks + multiset{};
    ClosingAdds(a, st.Account(), f.call, multiset{}, EndOf(f));
    ghost var begun := st.trace;
    Unmoved(begun);
    QuietNext(begun, begun, EndOf(f));
    st.ProcessEvent(EndOf(f));
    QuietMore(old(st.trace), begun, st.trace, a.open);
    ghost var closed := st.trace;
    ghost var b := st.Account();
    EmitToolResultMessage(ResultMessage(f), st);
    QuietMore(old(st.trace), closed, st.trace, a.open);
    AddsMore(a, b, st.Account(), [], [ResultMessage(f)],
      multiset{ToolStart(f.call)} + multiset{} + multiset{EndOf(f)}, multiset{});
    assert [] + [ResultMessage(f)] == [ResultMessage(f)];
    var s, e := ToolStart(f.call), EndOf(f);
    assert multiset{s} + multiset{} + multiset{e} + multiset{} == multiset{s, e};
  }

  lemma TruncatedNone()
    ensures ResultMessages(TruncationErrors([])) == [] && TruncationMarks([]) == multiset{}
  {
  }

  lemma TruncationGrows(calls: seq<ToolCall>, i: nat)
    requires i < |calls|
    ensures var f := TruncationError(calls[i]);
      && ResultMessages(TruncationErrors(calls[..i + 1])) ==
         ResultMessages(TruncationErrors(calls[..i])) + [ResultMessage(f)]
      && TruncationMarks(calls[..i + 1]) == TruncationMarks(calls[..i]) + multiset{ToolStart(f.call), EndOf(f)}
  {
    hide TruncationText, ResultMessage, EndOf;
    assert calls[..i + 1][..i] == calls[..i];
    assert TruncationErrors(calls[..i + 1]) == TruncationErrors(calls[..i]) + [TruncationError(calls[i])];
  }

  /** None of the calls of a truncated message is executed; each is answered with an error. */
  method FailToolCallsFromTruncatedMessage(calls: seq<ToolCall>, st: AgentState) returns (batch: Batch)
    requires st.Valid()
    modifies st
    ensures batch.messages == ResultMessages(TruncationErrors(calls)) && !batch.terminate
    ensures st.Valid() && st.since == old(st.since)
    ensures OneByOne(old(st.trace), st.trace, old(st.Account()).open)
    ensures Adds(old(st.Account()), st.Account(), batch.messages, TruncationMarks(calls))
  {
    hide Read, Adds, Count, TruncationErrors, TruncationMarks, ResultMessages, TruncationText, ResultMessage, EndOf,
      OneByOne;
    Unmoved(st.trace);
    NothingAdded(st.Account());
    TruncatedNone();
    var messages: seq<Message> := [];
    var i := 0;
    while i < |calls|
      invariant 0 <= i <= |calls|
      invariant messages == ResultMessages(TruncationErrors(calls[..i]))
      invariant st.Valid() && st.since == old(st.since)
      invariant OneByOne(old(st.trace), st.trace, old(st.Account()).open) && st.Account().open == old(st.Account()).open
      invariant Adds(old(st.Account()), st.Account(), messages, TruncationMarks(calls[..i]))
    {
      var f := TruncationError(calls[i]);
      assert f.call == calls[i];
      ghost var a, said := st.Account(), st.trace;
      EmitTruncated(f, st);
      OneMore(old(st.trace), said, st.trace, a.open);
      OpenAsBefore(a, st.Account(), [ResultMessage(f)], multiset{ToolStart(f.call), EndOf(f)});
      AddsMore(old(st.Account()), a, st.Account(), messages, [ResultMessage(f)], TruncationMarks(calls[..i]),
        multiset{ToolStart(f.call), EndOf(f)});
      messages := messages + [ResultMessage(f)];
      TruncationGrows(calls, i);
      i := i + 1;
    }
    assert calls[..i] == calls;
    batch := Batch(messages, false);
  }

  lemma NoOutcomes(tools: seq<Tool>, calls: seq<ToolCall>, inputs: seq<Input>)
    requires |calls| == |inputs|
    ensures Outcomes(tools, calls[..0], inputs[..0]) == [] && ResultMessages([]) == []
      && BatchMarks(tools, calls, inputs, 0) == multiset{}
    ensures ExecutedCalls(tools, calls, inputs, 0) == []
  {}

  lemma OutcomesGrow(tools: seq<Tool>, calls: seq<ToolCall>, inputs: seq<Input>, i: nat)
    requires i < |calls| == |inputs|
    ensures var f, before := Outcome(tools, calls[i], inputs[i]), Outcomes(tools, calls[..i], inputs[..i]);
      && Outcomes(tools, calls[..i + 1], inputs[..i + 1]) == before + [f]
      && ResultMessages(before + [f]) == ResultMessages(before) + [ResultMessage(f)]
  {
    hide Outcome, ResultMessage;
    var f, before := Outcome(tools, calls[i], inputs[i]), Outcomes(tools, calls[..i], inputs[..i]);
    assert Outcomes(tools, calls[..i + 1], inputs[..i + 1]) == before + [f];
    assert ResultMessages(before + [f]) == ResultMessages(before) + [ResultMessage(f)];
  }

  lemma MarksGrow(tools: seq<Tool>, calls: seq<ToolCall>, inputs: seq<Input>, i: nat)
    requires i < |calls| == |inputs|
    ensures BatchMarks(tools, calls, inputs, i + 1) ==
      BatchMarks(tools, calls, inputs, i) + MarksOf(tools, calls[i], inputs[i])
    ensures ExecutedCalls(tools, calls, inputs, i + 1) ==
      ExecutedCalls(tools, calls, inputs, i) + IfReady(tools, calls[i], inputs[i])
  {
    hide MarksOf, IfReady;
  }

  /** One call after the other, until the signal is aborted: none is started before the last has ended. */
  method ExecuteToolCallsSequential(runner: ToolRunner, calls: seq<ToolCall>, inputs: seq<Input>, st: AgentState)
    returns (batch: Batch)
    requires |calls| == |inputs| && st.Valid()
    modifies st, runner
    ensures IsBatch(runner.tools, calls, inputs, batch)
    ensures runner.executed == old(runner.executed) + ExecutedCalls(runner.tools, calls, inputs, Attended(inputs))
    ensures st.Valid() && st.since == old(st.since)
    ensures OneByOne(old(st.trace), st.trace, old(st.Account()).open)
    ensures Adds(old(st.Account()), st.Account(), batch.messages,
                 BatchMarks(runner.tools, calls, inputs, Attended(inputs)))
  {
    hide Read, Adds, Count, MarksOf, Prepare, Outcome, Outcomes, ResultMessages, BatchMarks, IfReady, ExecutedCalls,
      OneByOne;
    Unmoved(st.trace);
    NothingAdded(st.Account());
    NoOutcomes(runner.tools, calls, inputs);
    ghost var tools := runner.tools;
    var messages: seq<Message>, finals: seq<Finalized> := [], [];
    var i, aborted := 0, false;
    while i < |calls| && !aborted
      invariant 0 <= i <= |calls|
      invariant finals == Outcomes(tools, calls[..i], inputs[..i]) && messages == ResultMessages(finals)
      invariant runner.executed == old(runner.executed) + ExecutedCalls(tools, calls, inputs, i)
      invariant forall k :: 0 <= k < i - 1 ==> !inputs[k].abortedAfter
      invariant aborted == (i > 0 && inputs[i - 1].abortedAfter)
      invariant st.Valid() && st.since == old(st.since)
      invariant OneByOne(old(st.trace), st.trace, old(st.Account()).open) && st.Account().open == old(st.Account()).open
      invariant Adds(old(st.Account()), st.Account(), messages, BatchMarks(tools, calls, inputs, i))
    {
      ghost var a, said := st.Account(), st.trace;
      var final := AnswerOne(runner, calls[i], inputs[i], st);
      OneMore(old(st.trace), said, st.trace, a.open);
      OpenAsBefore(a, st.Account(), [ResultMessage(final)], MarksOf(tools, calls[i], inputs[i]));
      AddsMore(old(st.Account()), a, st.Account(), messages, [ResultMessage(final)],
               BatchMarks(tools, calls, inputs, i), MarksOf(tools, calls[i], inputs[i]));
      OutcomesGrow(tools, calls, inputs, i);
      MarksGrow(tools, calls, inputs, i);
      finals := finals + [final];
      messages := messages + [ResultMessage(final)];
      aborted := inputs[i].abortedAfter;
      i := i + 1;
    }
    AttendedIs(inputs, i);
    batch := Batch(messages, Terminates(finals));
  }

  /** The result of a batch, whatever the order of execution: one message per call attended to, in the order
      of the calls, and termination if every outcome asks for it. */
  predicate IsBatch(tools: seq<Tool>, calls: seq<ToolCall>, inputs: seq<Input>, batch: Batch)
    requires |calls| == |inputs|
  {
    var n := Attended(inputs);
    && batch.messages == ResultMessages(Outcomes(tools, calls[..n], inputs[..n]))
    && batch.terminate == Terminates(Outcomes(tools, calls[..n], inputs[..n]))
  }

  /** Results are in the order of the calls, with their ids; there is one per call unless the signal was
      aborted, and then still one at least; the batch terminates exactly when every outcome says so. */
  lemma BatchIsInOrder(tools: seq<Tool>, calls: seq<ToolCall>, inputs: seq<Input>, batch: Batch)
    requires |calls| == |inputs| && IsBatch(tools, calls, inputs, batch)
    ensures |batch.messages| <= |calls| && (calls != [] ==> batch.messages != [])
    ensures (forall i :: 0 <= i < |inputs| ==> !inputs[i].abortedAfter) ==> |batch.messages| == |calls|
    ensures forall i :: 0 <= i < |batch.messages| ==>
      batch.messages[i].ToolResult? && batch.messages[i].callId == calls[i].id
        && batch.messages[i].name == calls[i].name
    ensures batch.terminate <==>
      calls != [] && forall i :: 0 <= i < |batch.messages| ==> Outcome(tools, calls[i], inputs[i]).result.terminate
  {}

  /** Nothing stands in the way of a call: its tool is known, its arguments are valid, and neither the hook nor
      the signal stopped it. */
  predicate Clear(tools: seq<Tool>, call: ToolCall, input: Input) {
    && Known(tools, call.name) && input.invalid.None? && !input.abortedAtEnd
    && (input.verdict.NoHook? || (input.verdict.Allowed? && !input.abortedAfterHook))
  }

  /** The call is answered with this text as an error, and its tool is not executed. */
  predicate Refused(tools: seq<Tool>, call: ToolCall, input: Input, text: string) {
    && ResultMessage(Outcome(tools, call, input)) == ToolResult(call.id, call.name, Text(text), true)
    && !Outcome(tools, call, input).result.terminate && IfReady(tools, call, input) == []
  }

  /** What is said to a call that is not executed. Of several obstacles the first in the order of the code speaks:
      tool, arguments, hook, signal. */
  lemma WhatRefusals(tools: seq<Tool>, call: ToolCall, input: Input)
    ensures Clear(tools, call, input) <==> IfReady(tools, call, input) == [call]
    ensures !Known(tools, call.name) ==> Refused(tools, call, input, "Tool " + call.name + " not found")
    ensures Known(tools, call.name) ==>
      && (input.invalid.Some? ==> Refused(tools, call, input, input.invalid.value))
      && (input.invalid.None? && input.verdict.HookThrew? ==> Refused(tools, call, input, input.verdict.text))
      && (input.invalid.None? && input.verdict.Blocked? && !input.abortedAfterHook ==>
            Refused(tools, call, input,
                    if input.verdict.reason == "" then "Tool execution was blocked" else input.verdict.reason))
      && (input.invalid.None? && (input.verdict.Allowed? || input.verdict.Blocked?) && input.abortedAfterHook ==>
            Refused(tools, call, input, "Operation aborted"))
      && (input.invalid.None? && (input.verdict.Allowed? || input.verdict.NoHook?) && input.abortedAtEnd ==>
            Refused(tools, call, input, "Operation aborted"))
  {}

  /** What a call that is executed is answered with: what the tool returned, or the error it threw, unless the
      hook after it changes that field by field, or throws itself. */
  lemma WhatExecutionsGive(tools: seq<Tool>, call: ToolCall, input: Input)
    requires Clear(tools, call, input)
    ensures var f, plain := Outcome(tools, call, input), Outcome(tools, call, input.(review := Unchanged));
      var m, seen := ResultMessage(f), ResultMessage(plain);
      && m.ToolResult? && m.callId == call.id && m.name == call.name
      && (match input.execution
          case Returned(result) =>
            seen.body == result.body && !seen.isError && plain.result.terminate == result.terminate
          case Threw(text) => seen.body == Text(text) && seen.isError && !plain.result.terminate)
      && (match input.review
          case Unchanged => f == plain
          case ReviewThrew(text) => m.body == Text(text) && m.isError && !f.result.terminate
          case Changed(body, terminate, isError) =>
            && m.body == (if body.Some? then body.value else seen.body)
            && f.result.terminate == (if terminate.Some? then terminate.value else plain.result.terminate)
            && m.isError == (if isError.Some? then isError.value else seen.isError))
  {}

  lemma ClearIsReady(tools: seq<Tool>, calls: seq<ToolCall>, inputs: seq<Input>)
    requires |calls| == |inputs|
    ensures forall i :: 0 <= i < |calls| ==>
      (Clear(tools, calls[i], inputs[i]) <==> Prepare(tools, calls[i], inputs[i]).Ready?)
  {}

  /** The calls executed are some of those attended to, each once and in their order: exactly those that
      nothing stands in the way of. */
  lemma ExecutedOnce(tools: seq<Tool>, calls: seq<ToolCall>, inputs: seq<Input>)
    requires |calls| == |inputs|
    ensures var n := Attended(inputs);
      var positions, executed := Executed(tools, calls, inputs, n), ExecutedCalls(tools, calls, inputs, n);
      && |executed| == |positions| && (forall j :: 0 <= j < |positions| ==> executed[j] == calls[positions[j]])
      && (forall j, k :: 0 <= j < k < |positions| ==> positions[j] < positions[k] < n)
      && (forall i :: 0 <= i < n ==> (i in positions <==> Clear(tools, calls[i], inputs[i])))
  {
    hide Executed, ExecutedCalls, Prepare, Attended, Clear;
    var n := Attended(inputs);
    ExecutedAt(tools, calls, inputs, n);
    ExecutedAre(tools, calls, inputs, n);
    ClearIsReady(tools, calls, inputs);
  }

  lemma AttendedIs(inputs: seq<Input>, n: nat)
    requires n <= |inputs| && (inputs != [] ==> n > 0)
    requires n == |inputs| || inputs[n - 1].abortedAfter
    requires forall i :: 0 <= i < n - 1 ==> !inputs[i].abortedAfter
    ensures n == Attended(inputs)
  {
  }

  /** After some updates of a call that is open. */
  predicate Updated(a: Account, b: Account, updates: multiset<Event>) {
    && b == a.(marks := a.marks + updates, heard := b.heard)
    && (a.heard.InTurn? || a.heard.Garbled? ==> b.heard == a.heard)
  }

  lemma UpdatedMore(a: Account, b: Account, updates: multiset<Event>, e: Event)
    requires Updated(a, b, updates) && e.ToolUpdate? && e.call.id in a.open
    ensures Updated(a, Count(b, e), updates + multiset{e})
  {
    assert a.marks + updates + multiset{e} == a.marks + (updates + multiset{e});
  }

  lemma UpdatesGrow(call: ToolCall, updates: seq<Body>, i: nat)
    requires i < |updates|
    ensures multiset(UpdatesOf(call, updates[..i + 1])) ==
      multiset(UpdatesOf(call, updates[..i])) + multiset{ToolUpdate(call, updates[i])}
  {
    assert UpdatesOf(call, updates[..i + 1]) == UpdatesOf(call, updates[..i]) + [ToolUpdate(call, updates[i])];
  }

  method EmitUpdates(call: ToolCall, updates: seq<Body>, st: AgentState)
    requires st.Valid() && call.id in st.Account().open
    modifies st
    ensures st.Valid() && st.since == old(st.since) && Quiet(old(st.trace), st.trace)
    ensures Updated(old(st.Account()), st.Account(), multiset(UpdatesOf(call, updates)))
  {
    ghost var a := st.Account();
    assert UpdatesOf(call, []) == [] && Updated(a, a, multiset{});
    Unmoved(st.trace);
    hide Read, Count, Updated, UpdatesOf, Quiet, OneByOne;
    var i := 0;
    while i < |updates|
      invariant 0 <= i <= |updates|
      invariant st.Valid() && st.since == old(st.since) && Quiet(old(st.trace), st.trace)
      invariant Updated(a, st.Account(), multiset(UpdatesOf(call, updates[..i])))
    {
      UpdatedMore(a, st.Account(), multiset(UpdatesOf(call, updates[..i])), ToolUpdate(call, updates[i]));
      QuietNext(old(st.trace), st.trace, ToolUpdate(call, updates[i]));
      st.ProcessEvent(ToolUpdate(call, updates[i]));
      UpdatesGrow(call, updates, i);
      i := i + 1;
    }
    assert updates[..i] == updates;
  }

  /** Start, updates while the tool runs, end. */
  method ExecuteOne(runner: ToolRunner, call: ToolCall, input: Input, st: AgentState) returns (final: Finalized)
    requires st.Valid()
    modifies st, runner
    ensures final == Outcome(runner.tools, call, input)
    ensures runner.executed == old(runner.executed) + IfReady(runner.tools, call, input)
    ensures st.Valid() && st.since == old(st.since)
    ensures OneByOne(old(st.trace), st.trace, old(st.Account()).open)
    ensures Adds(old(st.Account()), st.Account(), [], MarksOf(runner.tools, call, input))
  {
    hide Read, Count, Adds, Quiet, OneByOne;
    ghost var a := st.Account();
    Opening(a, call);
    StartsAlone(st.trace, call);
    st.ProcessEvent(ToolStart(call));
    ghost var begun := st.trace;
    Unmoved(begun);
    ghost var updates: multiset<Event> := multiset{};
    match Prepare(runner.tools, call, input) {
      case Immediate(result) => final := Finalized(call, result, true);
      case Ready =>
        var yielded := runner.Execute(call, input);
        EmitUpdates(call, input.updates, st);
        updates := multiset(UpdatesOf(call, input.updates));
        final := Finalize(call, yielded, input.review);
    }
    assert final == Outcome(runner.tools, call, input);
    hide Prepare, Outcome;
    ClosingAdds(a, st.Account(), call, updates, EndOf(final));
    QuietNext(begun, st.trace, EndOf(final));
    st.ProcessEvent(EndOf(final));
    QuietMore(old(st.trace), begun, st.trace, a.open);
  }

  /** One call and its result message. */
  method AnswerOne(runner: ToolRunner, call: ToolCall, input: Input, st: AgentState) returns (final: Finalized)
    requires st.Valid()
    modifies st, runner
    ensures final == Outcome(runner.tools, call, input)
    ensures runner.executed == old(runner.executed) + IfReady(runner.tools, call, input)
    ensures st.Valid() && st.since == old(st.since)
    ensures OneByOne(old(st.trace), st.trace, old(st.Account()).open)
    ensures Adds(old(st.Account()), st.Account(), [ResultMessage(final)], MarksOf(runner.tools, call, input))
  {
    hide Read, Adds, Count, MarksOf, Prepare, Outcome, IfReady, Quiet, OneByOne;
    ghost var a := st.Account();
    final := ExecuteOne(runner, call, input, st);
    ghost var b, said := st.Account(), st.trace;
    EmitToolResultMessage(ResultMessage(final), st);
    QuietMore(old(st.trace), said, st.trace, a.open);
    ghost var marks := MarksOf(runner.tools, call, input);
    AddsMore(a, b, st.Account(), [], [ResultMessage(final)], marks, multiset{});
    assert [] + [ResultMessage(final)] == [ResultMessage(final)] && marks + multiset{} == marks;
  }
}
