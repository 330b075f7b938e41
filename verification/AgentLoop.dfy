/** `runLoop` of runtimes/pi/packages/agent/src/agent-loop.ts: turns, tool batches and the two queues, with
    what every run keeps. */
module AgentLoop {

  import opened AgentEvents
  import opened AssistantStream
  import opened Options
  import opened ParallelTools
  import opened PendingQueue
  import opened ToolBatches

  datatype Source = Steering | FollowUp

  datatype Poll = Poll(source: Source, mode: Mode, drained: seq<Message>)

  /** Messages enqueued by others while the loop was elsewhere, and the modes set meanwhile. */
  datatype Arrivals = Arrivals(steering: seq<Message>, followUps: seq<Message>, steeringMode: Mode, followUpMode: Mode)

  /** All that happens outside during one turn. A script that ends before the run does cuts the run at the
      start of a turn. */
  datatype Turn = Turn(
    response: Response,
    sequential: bool,
    inputs: seq<Input>,
    schedule: seq<nat>,
    stop: bool,
    before: Arrivals,
    late: Arrivals)

  /** What one turn did: the number of polls before it, the poll whose messages it injected, the context the
      provider was called with, the answer, the calls that were executed, their results, and the two
      transcripts and the pending calls as the turn ended. */
  datatype TurnLog = TurnLog(
    polled: nat,
    injected: Option<Poll>,
    asked: seq<Message>,
    message: Message,
    executed: seq<ToolCall>,
    results: seq<Message>,
    context: seq<Message>,
    transcript: seq<Message>,
    pendingCalls: set<string>,
    extra: nat)

  ghost predicate WellFormed(script: seq<Turn>) {
    forall i :: 0 <= i < |script| ==> |script[i].inputs| == |script[i].response.final.calls|
  }

  ghost predicate NoAssistant(ms: seq<Message>) {
    forall i :: 0 <= i < |ms| ==> !ms[i].Assistant?
  }

  function Injected(log: TurnLog): seq<Message> {
    if log.injected.Some? then log.injected.value.drained else []
  }

  /** What the loop is configured with: the tools, and the queues behind its two callbacks. */
  datatype Config = Config(runner: ToolRunner, steering: PendingMessageQueue, followUps: PendingMessageQueue)

  /** What a run is given: the transcript before it, its prompts, the tools and the script, what waits in the
      queues and which calls were executed before, and whether it is to skip the first look at the steering queue.
      `tidy` claims that no assistant's message comes from outside. */
  datatype Brief = Brief(
    since: seq<Message>,
    prompts: seq<Message>,
    tools: seq<Tool>,
    script: seq<Turn>,
    tidy: bool,
    steering: seq<Message>,
    followUps: seq<Message>,
    executed: seq<ToolCall>,
    skips: bool)

  /** What a run has done. */
  datatype History = History(logs: seq<TurnLog>, polls: seq<Poll>)

  /** The messages of the turns, in order. */
  function Transcript(logs: seq<TurnLog>): seq<Message> {
    if logs == [] then []
    else
      var log := logs[|logs| - 1];
      Transcript(logs[..|logs| - 1]) + Injected(log) + [log.message] + log.results
  }

  /** The messages of one queue that the turns injected, in order. */
  function Delivered(logs: seq<TurnLog>, source: Source): seq<Message> {
    if logs == [] then []
    else
      var log, front := logs[|logs| - 1], Delivered(logs[..|logs| - 1], source);
      if log.injected.Some? && log.injected.value.source == source then front + log.injected.value.drained else front
  }

  /** The calls that the turns executed, in order. */
  function ExecutedIn(logs: seq<TurnLog>): seq<ToolCall> {
    if logs == [] then [] else ExecutedIn(logs[..|logs| - 1]) + logs[|logs| - 1].executed
  }

  function From(arrivals: Arrivals, source: Source): seq<Message> {
    if source.Steering? then arrivals.steering else arrivals.followUps
  }

  /** The messages that came in over the turns and the polls that took place, in order: some before each poll
      that follows a turn. */
  function Arrived(script: seq<Turn>, logs: seq<TurnLog>, polled: nat, source: Source): seq<Message>
    requires |logs| <= |script|
  {
    if logs == [] then []
    else
      var last := |logs| - 1;
      Arrived(script, logs[..last], logs[last].polled, source)
      + (if polled > logs[last].polled then From(script[last].before, source) else [])
      + (if polled > logs[last].polled + 1 then From(script[last].late, source) else [])
  }

  /** The same up to the poll numbered `k`. */
  function ArrivedBy(script: seq<Turn>, logs: seq<TurnLog>, k: nat, source: Source): seq<Message>
    requires |logs| <= |script|
  {
    if logs == [] then []
    else if logs[|logs| - 1].polled <= k then Arrived(script, logs, k + 1, source)
    else ArrivedBy(script, logs[..|logs| - 1], k, source)
  }

  /** What the polls of one queue brought, in order. */
  function Taken(polls: seq<Poll>, source: Source): seq<Message> {
    if polls == [] then []
    else
      var poll, front := polls[|polls| - 1], Taken(polls[..|polls| - 1], source);
      if poll.source == source then front + poll.drained else front
  }

  /** What waits in a queue before the run. */
  function Start(g: Brief, source: Source): seq<Message> {
    if source.Steering? then g.steering else g.followUps
  }

  // ---------- One turn ----------

  method EmitAll(ms: seq<Message>, st: AgentState)
    requires st.Valid()
    modifies st
    ensures st.Valid() && st.since == old(st.since)
    ensures Adds(old(st.Account()), st.Account(), ms, multiset{})
  {
    hide Read, Count, Adds;
    var i := 0;
    NothingAdded(st.Account());
    while i < |ms|
      invariant 0 <= i <= |ms|
      invariant st.Valid() && st.since == old(st.since)
      invariant Adds(old(st.Account()), st.Account(), ms[..i], multiset{})
    {
      ghost var b := st.Account();
      EmitToolResultMessage(ms[i], st);
      AddsMore(old(st.Account()), b, st.Account(), ms[..i], [ms[i]], multiset{}, multiset{});
      assert ms[..i + 1] == ms[..i] + [ms[i]];
      ghost var none: multiset<Event> := multiset{};
      assert none + none == none;
      i := i + 1;
    }
    assert ms[..i] == ms;
  }

  /** The tool found under that name asks for sequential execution. */
  predicate RunsAlone(tools: seq<Tool>, name: string) {
    tools != [] && if tools[0].name == name then tools[0].sequential else RunsAlone(tools[1..], name)
  }

  predicate IsFirst(tools: seq<Tool>, name: string, i: nat) {
    i < |tools| && tools[i].name == name && forall k :: 0 <= k < i ==> tools[k].name != name
  }

  /** A call asks to run alone if the tool that goes by its name does, the first of them if there are several. */
  ghost predicate AsksAlone(tools: seq<Tool>, name: string) {
    exists i: nat :: IsFirst(tools, name, i) && tools[i].sequential
  }

  lemma {:induction false} RunsAloneIff(tools: seq<Tool>, name: string)
    ensures RunsAlone(tools, name) <==> AsksAlone(tools, name)
  {
    if tools != [] {
      var rest := tools[1..];
      RunsAloneIff(rest, name);
      forall i: nat | IsFirst(rest, name, i) && tools[0].name != name ensures IsFirst(tools, name, i + 1) {
        assert forall k :: 0 < k < i + 1 ==> tools[k] == rest[k - 1];
      }
      forall i: nat | IsFirst(tools, name, i) && i > 0 ensures IsFirst(rest, name, i - 1) {
        assert forall k :: 0 <= k < i - 1 ==> rest[k] == tools[k + 1];
      }
      if tools[0].name == name {
        assert IsFirst(tools, name, 0);
      } else if AsksAlone(tools, name) {
        var i: nat :| IsFirst(tools, name, i) && tools[i].sequential;
        assert IsFirst(rest, name, i - 1) && rest[i - 1].sequential;
      }
    }
  }

  /** `executeToolCalls`, or the failure of all calls of a truncated message. */
  method RunBatch(runner: ToolRunner, message: AssistantMessage, turn: Turn, st: AgentState) returns (batch: Batch)
    requires st.Valid() && |turn.inputs| == |message.calls|
    modifies st, runner
    ensures st.Valid() && st.since == old(st.since)
    ensures if message.stop.Length?
      then batch.messages == ResultMessages(TruncationErrors(message.calls)) && !batch.terminate
      else IsBatch(runner.tools, message.calls, turn.inputs, batch)
    ensures runner.executed == old(runner.executed) +
      if message.stop.Length? then []
      else ExecutedCalls(runner.tools, message.calls, turn.inputs, Attended(turn.inputs))
    ensures
      turn.sequential
      || (exists i :: 0 <= i < |message.calls| && AsksAlone(runner.tools, message.calls[i].name)) ==>
      OneByOne(old(st.trace), st.trace, old(st.Account()).open)
    ensures Adds(old(st.Account()), st.Account(), batch.messages,
                 if message.stop.Length? then TruncationMarks(message.calls)
                 else BatchMarks(runner.tools, message.calls, turn.inputs, Attended(turn.inputs)))
  {
    hide Read, Count, Adds, IsBatch, ResultMessages, TruncationErrors, TruncationMarks, TruncationText, BatchMarks,
      ExecutedCalls, Attended, OneByOne, AsksAlone, RunsAlone;
    forall name ensures RunsAlone(runner.tools, name) <==> AsksAlone(runner.tools, name) {
      RunsAloneIff(runner.tools, name);
    }
    var tools := runner.tools;
    if message.stop.Length? {
      batch := FailToolCallsFromTruncatedMessage(message.calls, st);
    } else if turn.sequential || (exists i :: 0 <= i < |message.calls| && RunsAlone(tools, message.calls[i].name)) {
      batch := ExecuteToolCallsSequential(runner, message.calls, turn.inputs, st);
    } else {
      batch := ExecuteToolCallsParallel(runner, message.calls, turn.inputs, turn.schedule, st);
    }
  }

  /** Where the trace stands before a turn. */
  predicate Ready(a: Account, first: bool, added: seq<Message>, extra: nat) {
    && a.told == added && a.open == multiset{}
    && (if extra > 0 then a.heard.Garbled? else a.heard == if first then InTurn([], added) else Between(added))
  }

  lemma TurnOpens(a: Account, added: seq<Message>, extra: nat)
    requires Ready(a, false, added, extra)
    ensures var b := Count(a, TurnStart);
      && b.told == added && b.open == multiset{} && b.marks == a.marks
      && (if extra > 0 then b.heard.Garbled? else b.heard == InTurn(added, []))
  {
  }

  /** A turn from its opening to `turn_end`: it closes if and only if no stream of the run had a start too
      many. */
  lemma TurnCloses(a: Account, told: seq<Message>, said: seq<Message>, extra: nat, injected: seq<Message>, b: Account,
                   message: Message, k: nat, c: Account, results: seq<Message>, marks: multiset<Event>, d: Account)
    requires a.told == told + said && a.open == multiset{} && message.Assistant?
    requires if extra > 0 then a.heard.Garbled? else a.heard == InTurn(told, said)
    requires Adds(a, b, injected, multiset{}) && Streamed(b, c, message, k) && Adds(c, d, results, marks)
    ensures var e := Count(d, TurnEnd(message, results));
      && Ready(e, false, a.told + injected + [message] + results, extra + k) && e.marks == a.marks + marks
  {
    var all := said + injected + [message] + results;
    assert all[|all| - |results|..] == results && all[|all| - |results| - 1] == message;
    assert told + all == told + said + injected + [message] + results;
    assert a.marks + multiset{} + marks == a.marks + marks;
    if extra == 0 && k == 0 {
      assert b.heard == InTurn(told, said + injected);
      assert c.heard == InTurn(told, said + injected + [message]);
      assert d.heard == InTurn(told, all);
      assert Closes(all, message, results);
    }
  }

  lemma AgentEnds(a: Account, added: seq<Message>, extra: nat)
    requires Ready(a, false, added, extra)
    ensures var b := Count(a, AgentEnd(added));
      && b.told == added
      && (if extra > 0 then b.heard.Garbled? else b.heard.Finished?)
  {
  }

  ghost predicate CanAsk(ms: seq<Message>) {
    ms != [] && !ms[|ms| - 1].Assistant?
  }

  /** One turn: at its end nothing was pending, and the transcript rebuilt from the events was the context
      exactly if no stream of the run had had a second start. */
  ghost predicate GoodTurn(log: TurnLog) {
    && log.message.Assistant?
    && (log.transcript == log.context <==> log.extra == 0)
    && log.pendingCalls == {}
    && (log.injected.Some? && log.injected.value.mode.OneAtATime? ==> |log.injected.value.drained| <= 1)
  }

  function Halts(message: Message): bool {
    message.Assistant? && (message.stop.Error? || message.stop.Aborted?)
  }

  /** The results of a turn, the same for every schedule. */
  function ResultsOf(tools: seq<Tool>, turn: Turn): seq<Message>
    requires |turn.inputs| == |turn.response.final.calls|
  {
    var m, n := turn.response.final, Attended(turn.inputs);
    if Halts(m) then []
    else if m.stop.Length? then ResultMessages(TruncationErrors(m.calls))
    else ResultMessages(Outcomes(tools, m.calls[..n], turn.inputs[..n]))
  }

  /** The calls a turn executes. */
  function ExecutedBy(tools: seq<Tool>, turn: Turn): seq<ToolCall>
    requires |turn.inputs| == |turn.response.final.calls|
  {
    var m := turn.response.final;
    if Halts(m) || m.stop.Length? then [] else ExecutedCalls(tools, m.calls, turn.inputs, Attended(turn.inputs))
  }

  function MarksOfTurn(tools: seq<Tool>, turn: Turn): multiset<Event>
    requires |turn.inputs| == |turn.response.final.calls|
  {
    var m := turn.response.final;
    if Halts(m) then multiset{}
    else if m.stop.Length? then TruncationMarks(m.calls)
    else BatchMarks(tools, m.calls, turn.inputs, Attended(turn.inputs))
  }

  /** A turn leaves nothing to answer if it had no calls, or they were executed and every outcome asks to stop. */
  predicate LeavesNothing(tools: seq<Tool>, turn: Turn)
    requires |turn.inputs| == |turn.response.final.calls|
  {
    var m := turn.response.final;
    || m.calls == []
    || (!m.stop.Length?
        && forall i :: 0 <= i < Attended(turn.inputs) ==> Outcome(tools, m.calls[i], turn.inputs[i]).result.terminate)
  }

  /** Neither the answer nor the hook after the turn ended the run. */
  predicate Ongoing(turn: Turn) {
    !turn.response.final.stop.Error? && !turn.response.final.stop.Aborted? && !turn.stop
  }

  /** Injecting the pending messages and streaming the answer. */
  method Ask(context: Context, injected: seq<Message>, response: Response, st: AgentState)
    returns (ghost asked: seq<Message>, ghost mid: Account)
    requires st.Valid()
    modifies context, st
    ensures st.Valid() && st.since == old(st.since)
    ensures asked == old(context.messages) + injected
    ensures context.messages == asked + Strays(response) + [response.final]
    ensures Adds(old(st.Account()), mid, injected, multiset{})
      && Streamed(mid, st.Account(), response.final, Extra(response))
  {
    hide Read, Count, Adds, Streamed;
    EmitAll(injected, st);
    mid := st.Account();
    context.messages := context.messages + injected;
    asked := context.messages;
    var message := StreamAssistantResponse(context, response, st);
  }

  lemma NoCallsNoResults(tools: seq<Tool>, turn: Turn)
    requires |turn.inputs| == |turn.response.final.calls|
    requires Halts(turn.response.final) || turn.response.final.calls == []
    ensures ResultsOf(tools, turn) == [] && MarksOfTurn(tools, turn) == multiset{}
    ensures ExecutedBy(tools, turn) == []
  {
  }

  lemma CallsHaveResults(tools: seq<Tool>, turn: Turn)
    requires |turn.inputs| == |turn.response.final.calls|
    ensures NoAssistant(ResultsOf(tools, turn))
    ensures !Halts(turn.response.final) && !LeavesNothing(tools, turn) ==> ResultsOf(tools, turn) != []
  {
  }

  /** Executing the calls of the answer, and putting their results into the context. */
  method Answer(context: Context, runner: ToolRunner, turn: Turn, st: AgentState)
    returns (results: seq<Message>, more: bool)
    requires st.Valid() && |turn.inputs| == |turn.response.final.calls|
    modifies context, st, runner
    ensures st.Valid() && st.since == old(st.since)
    ensures results == ResultsOf(runner.tools, turn)
    ensures more == (!Halts(turn.response.final) && !LeavesNothing(runner.tools, turn))
    ensures runner.executed == old(runner.executed) + ExecutedBy(runner.tools, turn)
    ensures context.messages == old(context.messages) + results
    ensures Adds(old(st.Account()), st.Account(), results, MarksOfTurn(runner.tools, turn))
  {
    hide Read, Count, Adds, ResultMessages, TruncationErrors, TruncationMarks, TruncationText, Outcomes, Outcome,
      BatchMarks, ExecutedCalls, Attended;
    var message := turn.response.final;
    if Halts(message) || message.calls == [] {
      NoCallsNoResults(runner.tools, turn);
      NothingAdded(st.Account());
      results, more := [], false;
    } else {
      var batch := RunBatch(runner, message, turn, st);
      results, more := batch.messages, !batch.terminate;
      context.messages := context.messages + results;
    }
  }

  /** The context is the transcript, but for the stray messages. */
  predicate InStep(context: seq<Message>, transcript: seq<Message>, extra: nat) {
    |context| == |transcript| + extra && (extra == 0 ==> context == transcript)
  }

  /** From the pending messages to `turn_end`, and `agent_end` if the answer ended the run. */
  method RunTurn(context: Context, runner: ToolRunner, added: seq<Message>, first: bool, pending: Option<Poll>,
                 turn: Turn, st: AgentState, ghost extra: nat, ghost tidy: bool, ghost polled: nat)
    returns (added': seq<Message>, more: bool, halted: bool, ghost log: TurnLog)
    requires st.Valid() && |turn.inputs| == |turn.response.final.calls|
    requires Ready(st.Account(), first, added, extra) && InStep(context.messages, st.messages, extra)
    requires tidy ==>
      if pending.Some? && pending.value.drained != [] then NoAssistant(pending.value.drained)
        else CanAsk(context.messages)
    requires pending.Some? && pending.value.mode.OneAtATime? ==> |pending.value.drained| <= 1
    modifies context, st, runner
    ensures st.Valid() && st.since == old(st.since)
    ensures log.polled == polled && log.injected == pending && log.message == turn.response.final
    ensures log.extra == extra + Extra(turn.response)
    ensures log.asked == old(context.messages) + Injected(log) && log.transcript == st.since + added'
    ensures extra == 0 ==> log.asked == st.since + added + Injected(log)
    ensures log.results == ResultsOf(runner.tools, turn)
    ensures more == (!Halts(turn.response.final) && !LeavesNothing(runner.tools, turn))
    ensures log.executed == ExecutedBy(runner.tools, turn) && runner.executed == old(runner.executed) + log.executed
    ensures GoodTurn(log) && halted == Halts(log.message)
    ensures added' == added + Injected(log) + [log.message] + log.results
    ensures context.messages == log.context && st.messages == log.transcript
    ensures |context.messages| == |st.messages| + log.extra
    ensures st.Account().marks == old(st.Account()).marks + MarksOfTurn(runner.tools, turn)
    ensures if halted then Ended(st, added', log.extra) else Ready(st.Account(), false, added', log.extra)
    ensures tidy ==> CanAsk(log.asked)
    ensures more ==> CanAsk(context.messages)
  {
    hide Read, Count, Adds, Streamed, Next, ResultsOf, ExecutedBy, MarksOfTurn, LeavesNothing, Strays, Extra, CanAsk,
      NoAssistant, Ended;
    assert st.messages == st.since + added;
    ghost var before := context.messages;
    var injected := if pending.Some? then pending.value.drained else [];
    ghost var a := st.Account();
    if !first {
      TurnOpens(a, added, extra);
      st.ProcessEvent(TurnStart);
    }
    ghost var b := st.Account();
    ghost var asked, mid := Ask(context, injected, turn.response, st);
    ghost var c := st.Account();
    var results;
    results, more := Answer(context, runner, turn, st);
    CallsHaveResults(runner.tools, turn);
    added' := added + injected + [turn.response.final] + results;
    GrowAlike(st.since, added, extra, before, injected, Strays(turn.response), turn.response.final, results,
              context.messages);
    CloseTurn(a, b, first, added, extra, injected, mid, turn, c, results, runner.tools, st);
    log := TurnLog(polled, pending, asked, turn.response.final, ExecutedBy(runner.tools, turn), results,
                   context.messages, st.messages, st.pendingToolCalls, extra + Extra(turn.response));
    halted := Halts(turn.response.final);
    if halted { EndAgent(added', st, log.extra); }
  }

  lemma GrowAlike(since: seq<Message>, added: seq<Message>, extra: nat, before: seq<Message>, injected: seq<Message>,
                  strays: seq<Message>, final: Message, results: seq<Message>, after: seq<Message>)
    requires InStep(before, since + added, extra)
    requires after == before + injected + strays + [final] + results
    ensures var transcript := since + (added + injected + [final] + results);
      && |after| == |transcript| + (extra + |strays|)
      && (after == transcript <==> extra + |strays| == 0)
      && ((if injected != [] then NoAssistant(injected) else CanAsk(before)) ==> CanAsk(before + injected))
      && (results != [] && NoAssistant(results) ==> CanAsk(after))
  {}

  method CloseTurn(ghost a: Account, ghost b: Account, ghost first: bool, ghost added: seq<Message>, ghost extra: nat,
                   ghost injected: seq<Message>, ghost mid: Account, turn: Turn, ghost c: Account,
                   results: seq<Message>, ghost tools: seq<Tool>, st: AgentState)
    requires st.Valid() && |turn.inputs| == |turn.response.final.calls|
    requires Ready(a, first, added, extra) && b == (if first then a else Count(a, TurnStart))
    requires Adds(b, mid, injected, multiset{}) && Streamed(mid, c, turn.response.final, Extra(turn.response))
    requires Adds(c, st.Account(), results, MarksOfTurn(tools, turn))
    modifies st
    ensures st.Valid() && st.since == old(st.since)
    ensures Ready(st.Account(), false, added + injected + [turn.response.final] + results, extra + Extra(turn.response))
    ensures st.Account().marks == a.marks + MarksOfTurn(tools, turn)
    ensures st.messages == st.since + (added + injected + [turn.response.final] + results) && st.pendingToolCalls == {}
  {
    if !first { TurnOpens(a, added, extra); }
    hide Read, Count, Adds, Streamed, Next, MarksOfTurn, Extra;
    ghost var told, said := if first then [] else added, if first then added else [];
    assert told + said == added;
    TurnCloses(b, told, said, extra, injected, mid, turn.response.final, Extra(turn.response), c, results,
               MarksOfTurn(tools, turn), st.Account());
    st.ProcessEvent(TurnEnd(turn.response.final, results));
  }

  /** The run is over: its last event is `agent_end`, with every message that ended since the run began. */
  ghost predicate Ended(st: AgentState, added: seq<Message>, extra: nat)
    reads st
  {
    && st.trace != [] && st.trace[|st.trace| - 1] == AgentEnd(added) && st.Account().told == added
    && (if extra > 0 then st.Account().heard.Garbled? else st.Account().heard.Finished?)
  }

  method EndAgent(added: seq<Message>, st: AgentState, ghost extra: nat)
    requires st.Valid() && Ready(st.Account(), false, added, extra)
    modifies st
    ensures st.Valid() && st.since == old(st.since) && Ended(st, added, extra)
    ensures st.messages == old(st.messages) == st.since + added && st.Account().marks == old(st.Account()).marks
  {
    AgentEnds(st.Account(), added, extra);
    hide Read;
    st.ProcessEvent(AgentEnd(added));
  }

  // ---------- What a run keeps ----------

  /** The stray messages of the first turns. */
  function Extras(script: seq<Turn>, n: nat): nat
    requires n <= |script|
  {
    if n == 0 then 0 else Extras(script, n - 1) + Extra(script[n - 1].response)
  }

  /** What a poll brought that no turn has injected yet. */
  function Waiting(pending: Option<Poll>, source: Source): seq<Message> {
    if pending.Some? && pending.value.source == source then pending.value.drained else []
  }

  /** What the last poll brought, if anything. */
  function LastPoll(polls: seq<Poll>): Option<Poll> {
    if polls == [] || polls[|polls| - 1].drained == [] then None else Some(polls[|polls| - 1])
  }

  /** Follow-ups are drained only right after steering was polled in vain. */
  ghost predicate FollowUpsWait(polls: seq<Poll>) {
    forall i :: 0 <= i < |polls| && polls[i].source.FollowUp? ==>
      i > 0 && polls[i - 1].source.Steering? && polls[i - 1].drained == []
  }

  /** The turns so far did what the script says of each, and injected what the last poll before them had
      brought. Each ended with a transcript of all there was, and, without stray messages, asked the provider
      with it. The polls so far took from their queues what waited there. */
  ghost predicate Kept(g: Brief, h: History) {
    && |h.logs| <= |g.script| && WellFormed(g.script) && FollowUpsWait(h.polls)
    && (forall t :: 0 <= t < |h.logs| ==> TurnKept(g, h.logs[..t], h.logs[t], h.polls))
    && (forall k :: 0 <= k < |h.polls| ==> PollKept(g, h.logs, h.polls, k))
  }

  /** The poll numbered `k` took all or the first, as its mode says, of what was queued at the start or has come
      in since and no earlier poll had taken. */
  ghost predicate PollKept(g: Brief, logs: seq<TurnLog>, polls: seq<Poll>, k: nat) {
    && |logs| <= |g.script| && k < |polls|
    && var source, taken := polls[k].source, Taken(polls[..k], polls[k].source);
       var came := Start(g, source) + ArrivedBy(g.script, logs, k, source);
       taken <= came && polls[k].drained == Drained(polls[k].mode, came[|taken|..])
  }

  ghost predicate TurnKept(g: Brief, before: seq<TurnLog>, log: TurnLog, polls: seq<Poll>) {
    var t, base := |before|, g.since + g.prompts;
    && t < |g.script| && (forall k :: 0 <= k <= t ==> |g.script[k].inputs| == |g.script[k].response.final.calls|)
    && GoodTurn(log) && (g.tidy ==> CanAsk(log.asked))
    && log.message == g.script[t].response.final && log.results == ResultsOf(g.tools, g.script[t])
    && log.executed == ExecutedBy(g.tools, g.script[t])
    && log.extra == Extras(g.script, t + 1)
    && log.transcript == base + (Transcript(before) + Injected(log) + [log.message] + log.results)
    && (Extras(g.script, t) == 0 ==> log.asked == base + Transcript(before) + Injected(log))
    && log.polled <= |polls| && log.injected == LastPoll(polls[..log.polled])
    && if before == [] then Begun(g, polls[..log.polled]) else GoesOn(g, before, polls[..log.polled])
  }

  /** Before the first turn the steering queue is polled, unless that is to be skipped. */
  ghost predicate Begun(g: Brief, polls: seq<Poll>) {
    |polls| == (if g.skips then 0 else 1) && forall k :: 0 <= k < |polls| ==> polls[k].source.Steering?
  }

  /** Between two turns the steering queue is polled, and if that brought nothing and the turn left nothing to
      answer, the follow-ups; if they bring nothing either there is no next turn, nor is there after an error, an
      abort or a word of the stop hook. */
  ghost predicate GoesOn(g: Brief, logs: seq<TurnLog>, polls: seq<Poll>) {
    && 0 < |logs| <= |g.script|
    && |g.script[|logs| - 1].inputs| == |g.script[|logs| - 1].response.final.calls|
    && var turn, p := g.script[|logs| - 1], logs[|logs| - 1].polled;
    && Ongoing(turn) && p < |polls| && polls[p].source.Steering?
    && if polls[p].drained != [] || !LeavesNothing(g.tools, turn) then |polls| == p + 1
       else |polls| == p + 2 && polls[p + 1].source.FollowUp? && polls[p + 1].drained != []
  }

  /** The polls after a turn so far. */
  ghost predicate PolledSince(g: Brief, logs: seq<TurnLog>, polls: seq<Poll>) {
    && 0 < |logs| <= |g.script|
    && |g.script[|logs| - 1].inputs| == |g.script[|logs| - 1].response.final.calls|
    && var turn, p := g.script[|logs| - 1], logs[|logs| - 1].polled;
    && Ongoing(turn) && p < |polls| <= p + 2 && polls[p].source.Steering?
    && (|polls| == p + 2 ==>
          polls[p].drained == [] && polls[p + 1].source.FollowUp? && LeavesNothing(g.tools, turn))
  }

  /** There is something to answer or to inject. */
  ghost predicate HasNext(g: Brief, logs: seq<TurnLog>, polls: seq<Poll>) {
    && 0 < |logs| <= |g.script|
    && |g.script[|logs| - 1].inputs| == |g.script[|logs| - 1].response.final.calls|
    && (LastPoll(polls).Some? || !LeavesNothing(g.tools, g.script[|logs| - 1]))
  }

  lemma Continues(g: Brief, logs: seq<TurnLog>, polls: seq<Poll>)
    requires PolledSince(g, logs, polls) && HasNext(g, logs, polls)
    ensures GoesOn(g, logs, polls)
  {}

  /** What the results of a turn answer: nothing after an error or an abort; every call with an error if the answer
      was cut off; otherwise the calls attended to, each with its outcome, and those were executed that nothing
      stood in the way of. */
  ghost predicate Answers(tools: seq<Tool>, turn: Turn, results: seq<Message>, executed: seq<ToolCall>)
    requires |turn.inputs| == |turn.response.final.calls|
  {
    var m := turn.response.final;
    if m.stop.Error? || m.stop.Aborted? then results == [] && executed == []
    else if m.stop.Length? then executed == [] && AllCutOff(m.calls, results)
    else
      var n := Attended(turn.inputs);
      && |results| == n
      && (forall i :: 0 <= i < n ==> results[i] == ResultMessage(Outcome(tools, m.calls[i], turn.inputs[i])))
      && RunsClear(tools, m.calls, turn.inputs, n, executed)
  }

  ghost predicate AllCutOff(calls: seq<ToolCall>, results: seq<Message>) {
    && |results| == |calls|
    && forall i :: 0 <= i < |calls| ==>
      results[i] == ToolResult(calls[i].id, calls[i].name, Text(TruncationText(calls[i].name)), true)
  }

  /** Of the first `n` calls those that nothing stands in the way of, in order. */
  ghost predicate RunsClear(tools: seq<Tool>, calls: seq<ToolCall>, inputs: seq<Input>, n: nat, executed: seq<ToolCall>)
    requires n <= |calls| == |inputs|
  {
    exists positions :: RunsAt(tools, calls, inputs, n, executed, positions)
  }

  ghost predicate RunsAt(tools: seq<Tool>, calls: seq<ToolCall>, inputs: seq<Input>, n: nat, executed: seq<ToolCall>,
                         positions: seq<nat>)
    requires n <= |calls| == |inputs|
  {
    && |executed| == |positions|
    && (forall j :: 0 <= j < |positions| ==> positions[j] < n && executed[j] == calls[positions[j]])
    && (forall j, k :: 0 <= j < k < |positions| ==> positions[j] < positions[k])
    && forall i :: 0 <= i < n ==> (i in positions <==> Clear(tools, calls[i], inputs[i]))
  }

  lemma CutOffAre(calls: seq<ToolCall>)
    ensures AllCutOff(calls, ResultMessages(TruncationErrors(calls)))
  {
    hide TruncationText;
  }

  lemma ClearRun(tools: seq<Tool>, calls: seq<ToolCall>, inputs: seq<Input>)
    requires |calls| == |inputs|
    ensures RunsClear(tools, calls, inputs, Attended(inputs), ExecutedCalls(tools, calls, inputs, Attended(inputs)))
  {
    ExecutedOnce(tools, calls, inputs);
    hide Clear, Executed, ExecutedCalls, Attended;
    var n := Attended(inputs);
    assert RunsAt(tools, calls, inputs, n, ExecutedCalls(tools, calls, inputs, n), Executed(tools, calls, inputs, n));
  }

  lemma ResultsAnswer(tools: seq<Tool>, turn: Turn)
    requires |turn.inputs| == |turn.response.final.calls|
    ensures Answers(tools, turn, ResultsOf(tools, turn), ExecutedBy(tools, turn))
  {
    var m, n := turn.response.final, Attended(turn.inputs);
    hide AllCutOff, RunsClear, Outcome, ResultMessage, ResultMessages, TruncationErrors, ExecutedCalls, Attended,
      Outcomes;
    if !Halts(m) && m.stop.Length? {
      CutOffAre(m.calls);
    } else if !Halts(m) {
      ClearRun(tools, m.calls, turn.inputs);
      var fs := Outcomes(tools, m.calls[..n], turn.inputs[..n]);
      assert forall i :: 0 <= i < n ==> ResultMessages(fs)[i] == ResultMessage(fs[i]);
      assert forall i :: 0 <= i < n ==> fs[i] == Outcome(tools, m.calls[i], turn.inputs[i]);
    }
  }

  /** So it is of each turn of every run. */
  lemma TurnsAnswer(g: Brief, h: History, t: nat)
    requires Kept(g, h) && t < |h.logs|
    ensures |g.script[t].inputs| == |g.script[t].response.final.calls|
    ensures Answers(g.tools, g.script[t], h.logs[t].results, h.logs[t].executed)
  {
    assert TurnKept(g, h.logs[..t], h.logs[t], h.polls);
    ResultsAnswer(g.tools, g.script[t]);
    hide Answers, ResultsOf, ExecutedBy, GoodTurn, Extras, Transcript, Begun, GoesOn, LastPoll, PollKept, CanAsk;
  }

  ghost predicate TidyScript(script: seq<Turn>) {
    forall i :: 0 <= i < |script| ==> TidyArrivals(script[i].before) && TidyArrivals(script[i].late)
  }

  ghost predicate TidyArrivals(arrivals: Arrivals) {
    NoAssistant(arrivals.steering) && NoAssistant(arrivals.followUps)
  }

  /** Why a run ended: the answer was an error or aborted or the stop hook said so, and no queue was polled any
      more; or the last turn left nothing to answer, and both queues were polled in vain. */
  ghost predicate Reason(g: Brief, h: History) {
    && 0 < |h.logs| <= |g.script| && WellFormed(g.script)
    && var turn, p := g.script[|h.logs| - 1], h.logs[|h.logs| - 1].polled;
       if !Ongoing(turn) then |h.polls| == p
       else
         && LeavesNothing(g.tools, turn) && |h.polls| == p + 2
         && h.polls[p].source.Steering? && h.polls[p].drained == []
         && h.polls[p + 1].source.FollowUp? && h.polls[p + 1].drained == []
  }

  /** No message of a queue is lost, doubled or overtaken: those the turns injected, then those in the loop's
      hands, then those still queued, are those that were queued at the start and those that came in. */
  ghost predicate Conserved(g: Brief, h: History, pending: Option<Poll>, source: Source, queued: seq<Message>) {
    && |h.logs| <= |g.script| && Taken(h.polls, source) == Delivered(h.logs, source) + Waiting(pending, source)
    && Delivered(h.logs, source) + Waiting(pending, source) + queued ==
       Start(g, source) + Arrived(g.script, h.logs, |h.polls|, source)
  }

  lemma NothingMoved(g: Brief, source: Source)
    ensures Conserved(g, History([], []), None, source, Start(g, source))
  {}

  lemma TurnConserves(g: Brief, h: History, log: TurnLog, source: Source, queued: seq<Message>)
    requires Conserved(g, h, log.injected, source, queued) && log.polled == |h.polls| && |h.logs| < |g.script|
    ensures Conserved(g, History(h.logs + [log], h.polls), None, source, queued)
  {
    var logs := h.logs + [log];
    assert logs[..|h.logs|] == h.logs;
    assert Delivered(logs, source) == Delivered(h.logs, source) + Waiting(log.injected, source);
    assert Arrived(g.script, logs, |h.polls|, source) == Arrived(g.script, h.logs, |h.polls|, source);
  }

  /** What comes in before the next poll, after the last turn. */
  function Coming(script: seq<Turn>, h: History): Arrivals
    requires |h.logs| <= |script|
  {
    if h.logs == [] then Arrivals([], [], All, All)
    else if |h.polls| == h.logs[|h.logs| - 1].polled then script[|h.logs| - 1].before
    else script[|h.logs| - 1].late
  }

  lemma ArrivedNext(script: seq<Turn>, h: History, source: Source)
    requires |h.logs| <= |script|
    requires h.logs != [] ==> |h.polls| <= h.logs[|h.logs| - 1].polled + 1 <= |h.polls| + 1
    ensures Arrived(script, h.logs, |h.polls| + 1, source) ==
      Arrived(script, h.logs, |h.polls|, source) + From(Coming(script, h), source)
  {}

  lemma PollConserves(g: Brief, h: History, poll: Poll, source: Source, before: seq<Message>, after: seq<Message>)
    requires Conserved(g, h, None, source, before)
    requires h.logs != [] ==> |h.polls| <= h.logs[|h.logs| - 1].polled + 1 <= |h.polls| + 1
    requires (if poll.source == source then poll.drained else []) + after ==
             before + From(Coming(g.script, h), source)
    ensures Conserved(g, History(h.logs, h.polls + [poll]), LastPoll(h.polls + [poll]), source, after)
  {
    ArrivedNext(g.script, h, source);
    Moved(Delivered(h.logs, source), Waiting(LastPoll(h.polls + [poll]), source), after, before,
          From(Coming(g.script, h), source), Start(g, source), Arrived(g.script, h.logs, |h.polls|, source));
    TakenMore(h.polls, poll, source);
    hide Delivered, Arrived, Coming, Taken;
  }

  lemma TakenMore(polls: seq<Poll>, poll: Poll, source: Source)
    ensures Taken(polls + [poll], source) == Taken(polls, source) + if poll.source == source then poll.drained else []
  {
    assert (polls + [poll])[..|polls|] == polls;
  }

  /** A poll that takes what its mode says of its queue is kept. */
  lemma NewPollKept(g: Brief, h: History, poll: Poll, before: seq<Message>)
    requires Conserved(g, h, None, poll.source, before)
    requires h.logs != [] ==> |h.polls| <= h.logs[|h.logs| - 1].polled + 1 <= |h.polls| + 1
    requires poll.drained == Drained(poll.mode, before + From(Coming(g.script, h), poll.source))
    ensures PollKept(g, h.logs, h.polls + [poll], |h.polls|)
  {
    var source := poll.source;
    assert (h.polls + [poll])[..|h.polls|] == h.polls;
    ArrivedUpTo(g.script, h, source);
    Remains(Start(g, source), Arrived(g.script, h.logs, |h.polls|, source), From(Coming(g.script, h), source),
            Taken(h.polls, source), before);
    hide Arrived, ArrivedBy, Taken, Coming, Drained, Start, From;
  }

  lemma ArrivedUpTo(script: seq<Turn>, h: History, source: Source)
    requires |h.logs| <= |script|
    requires h.logs != [] ==> |h.polls| <= h.logs[|h.logs| - 1].polled + 1 <= |h.polls| + 1
    ensures ArrivedBy(script, h.logs, |h.polls|, source) ==
      Arrived(script, h.logs, |h.polls|, source) + From(Coming(script, h), source)
  {
    ArrivedNext(script, h, source);
    hide From;
    if h.logs == [] { assert From(Coming(script, h), source) == [] by { NothingComes(source); } }
  }

  lemma NothingComes(source: Source)
    ensures From(Arrivals([], [], All, All), source) == []
  {}

  /** What has been taken is a prefix of all there was, and the rest is what the queue holds. */
  lemma Remains(start: seq<Message>, arrived: seq<Message>, coming: seq<Message>, taken: seq<Message>,
                before: seq<Message>)
    requires taken + before == start + arrived
    ensures var came := start + (arrived + coming); taken <= came && came[|taken|..] == before + coming
  {
    assert start + (arrived + coming) == start + arrived + coming;
    assert taken + before + coming == taken + (before + coming);
  }

  lemma Moved(told: seq<Message>, waiting: seq<Message>, after: seq<Message>, before: seq<Message>,
              coming: seq<Message>, start: seq<Message>, arrived: seq<Message>)
    requires told + [] + before == start + arrived && waiting + after == before + coming
    ensures told + waiting + after == start + (arrived + coming)
  {
    assert told + waiting + after == told + (waiting + after);
    assert told + (before + coming) == told + [] + before + coming;
  }

  lemma LogTells(logs: seq<TurnLog>, log: TurnLog)
    ensures Transcript(logs + [log]) == Transcript(logs) + Injected(log) + [log.message] + log.results
    ensures ExecutedIn(logs + [log]) == ExecutedIn(logs) + log.executed
  {
    assert (logs + [log])[..|logs|] == logs;
  }

  lemma TurnStays(g: Brief, logs: seq<TurnLog>, log: TurnLog, polls: seq<Poll>, t: nat)
    requires t < |logs| && TurnKept(g, logs[..t], logs[t], polls)
    ensures TurnKept(g, (logs + [log])[..t], (logs + [log])[t], polls)
  {
    hide TurnKept;
    assert (logs + [log])[..t] == logs[..t];
  }

  lemma PollStays(g: Brief, logs: seq<TurnLog>, log: TurnLog, polls: seq<Poll>, k: nat)
    requires PollKept(g, logs, polls, k) && |logs| < |g.script| && log.polled > k
    ensures PollKept(g, logs + [log], polls, k)
  {
    assert (logs + [log])[..|logs|] == logs;
    hide Arrived, Taken;
  }

  lemma LogGrows(g: Brief, h: History, log: TurnLog)
    requires Kept(g, h) && TurnKept(g, h.logs, log, h.polls) && log.polled == |h.polls|
    ensures Kept(g, History(h.logs + [log], h.polls))
  {
    var more := h.logs + [log];
    assert |h.logs| < |g.script|;
    hide TurnKept, PollKept, WellFormed, FollowUpsWait;
    forall k | 0 <= k < |h.polls| ensures PollKept(g, more, h.polls, k) { PollStays(g, h.logs, log, h.polls, k); }
    forall t | 0 <= t < |more| ensures TurnKept(g, more[..t], more[t], h.polls) {
      if t < |h.logs| { TurnStays(g, h.logs, log, h.polls, t); } else { assert more[..t] == h.logs; }
    }
  }

  lemma TurnOutlasts(g: Brief, before: seq<TurnLog>, log: TurnLog, polls: seq<Poll>, poll: Poll)
    requires TurnKept(g, before, log, polls)
    ensures TurnKept(g, before, log, polls + [poll])
  {
    hide GoodTurn, ResultsOf, ExecutedBy, Extras, Transcript, CanAsk, Injected, Begun, GoesOn, LastPoll;
    assert (polls + [poll])[..log.polled] == polls[..log.polled];
  }

  lemma PollOutlasts(g: Brief, logs: seq<TurnLog>, polls: seq<Poll>, poll: Poll, k: nat)
    requires PollKept(g, logs, polls, k)
    ensures PollKept(g, logs, polls + [poll], k)
  {
    hide ArrivedBy, Taken;
    assert (polls + [poll])[..k] == polls[..k];
  }

  lemma PollsGrow(g: Brief, h: History, poll: Poll)
    requires Kept(g, h) && PollKept(g, h.logs, h.polls + [poll], |h.polls|)
    requires poll.source.FollowUp? ==>
      h.polls != [] && h.polls[|h.polls| - 1].source.Steering? && h.polls[|h.polls| - 1].drained == []
    ensures Kept(g, History(h.logs, h.polls + [poll]))
  {
    hide TurnKept, PollKept, WellFormed;
    var more := h.polls + [poll];
    forall t | 0 <= t < |h.logs| ensures TurnKept(g, h.logs[..t], h.logs[t], more) {
      TurnOutlasts(g, h.logs[..t], h.logs[t], h.polls, poll);
    }
    forall k | 0 <= k < |more| ensures PollKept(g, h.logs, more, k) {
      if k < |h.polls| { PollOutlasts(g, h.logs, h.polls, poll, k); }
    }
  }

  // ---------- The queues ----------

  method PollQueue(queue: PendingMessageQueue, source: Source, ghost tidy: bool) returns (poll: Poll)
    requires queue.Valid() && (tidy ==> NoAssistant(queue.messages))
    modifies queue
    ensures queue.Valid() && poll.drained + queue.messages == old(queue.messages)
    ensures poll.source == source && poll.mode == old(queue.mode)
    ensures poll.drained == Drained(poll.mode, old(queue.messages))
    ensures poll.mode.OneAtATime? ==> |poll.drained| <= 1
    ensures tidy ==> NoAssistant(poll.drained) && NoAssistant(queue.messages)
  {
    hide NoAssistant;
    var mode := queue.mode;
    var taken := queue.Drain();
    poll := Poll(source, mode, taken);
    PartsHaveNone(taken, queue.messages);
  }

  lemma PartsHaveNone(a: seq<Message>, b: seq<Message>)
    ensures NoAssistant(a + b) <==> NoAssistant(a) && NoAssistant(b)
  {
    var all := a + b;
    assert forall i :: 0 <= i < |a| ==> all[i] == a[i];
    assert forall i :: 0 <= i < |b| ==> all[|a| + i] == b[i];
  }

  method EnqueueAll(queue: PendingMessageQueue, arrivals: seq<Message>, mode: Mode, ghost tidy: bool)
    requires queue.Valid() && (tidy ==> NoAssistant(queue.messages) && NoAssistant(arrivals))
    modifies queue
    ensures queue.Valid() && queue.mode == mode && queue.messages == old(queue.messages) + arrivals
    ensures tidy ==> NoAssistant(queue.messages)
  {
    PartsHaveNone(queue.messages, arrivals);
    hide NoAssistant;
    var i := 0;
    while i < |arrivals|
      invariant 0 <= i <= |arrivals| && queue.Valid()
      invariant queue.messages == old(queue.messages) + arrivals[..i]
    {
      queue.Enqueue(arrivals[i]);
      assert arrivals[..i + 1] == arrivals[..i] + [arrivals[i]];
      i := i + 1;
    }
    assert arrivals[..i] == arrivals;
    queue.mode := mode;
  }

  /** The two queues of a run. */
  ghost predicate Queues(config: Config, tidy: bool)
    reads config.steering, config.followUps
  {
    && config.steering != config.followUps && config.steering.Valid() && config.followUps.Valid()
    && (tidy ==> NoAssistant(config.steering.messages) && NoAssistant(config.followUps.messages))
  }

  method Arrive(config: Config, arrivals: Arrivals, ghost tidy: bool)
    requires Queues(config, tidy) && (tidy ==> TidyArrivals(arrivals))
    modifies config.steering, config.followUps
    ensures Queues(config, tidy)
    ensures config.steering.messages == old(config.steering.messages) + arrivals.steering
    ensures config.followUps.messages == old(config.followUps.messages) + arrivals.followUps
  {
    EnqueueAll(config.steering, arrivals.steering, arrivals.steeringMode, tidy);
    EnqueueAll(config.followUps, arrivals.followUps, arrivals.followUpMode, tidy);
  }

  ghost predicate BothConserved(g: Brief, h: History, pending: Option<Poll>, config: Config)
    reads config.steering, config.followUps
  {
    && Conserved(g, h, pending, Steering, config.steering.messages)
    && Conserved(g, h, pending, FollowUp, config.followUps.messages)
  }

  /** `h` after one more poll of that queue; what it brought waits. */
  ghost predicate Answered(g: Brief, h: History, h': History, source: Source, waiting: Option<Poll>) {
    && h'.logs == h.logs && h'.polls != [] && h'.polls[..|h'.polls| - 1] == h.polls
    && waiting == LastPoll(h'.polls)
    && var poll := h'.polls[|h'.polls| - 1];
    && poll.source == source && (poll.mode.OneAtATime? ==> |poll.drained| <= 1)
    && (g.tidy ==> NoAssistant(poll.drained))
  }

  lemma EmptyDrain()
    ensures forall mode, waiting :: Drained(mode, waiting) == [] ==> waiting == []
  {}

  /** A poll goes on record: from `s` and `f` the queues have become `s'` and `f'`. */
  lemma Recorded(g: Brief, h: History, poll: Poll, s: seq<Message>, f: seq<Message>, s': seq<Message>, f': seq<Message>)
    requires Kept(g, h) && Conserved(g, h, None, Steering, s) && Conserved(g, h, None, FollowUp, f)
    requires h.logs != [] ==> |h.polls| <= h.logs[|h.logs| - 1].polled + 1 <= |h.polls| + 1
    requires poll.source.FollowUp? ==>
      h.polls != [] && h.polls[|h.polls| - 1].source.Steering? && h.polls[|h.polls| - 1].drained == []
    requires var coming := Coming(g.script, h);
      var s1, f1 := s + coming.steering, f + coming.followUps;
      && poll.drained == Drained(poll.mode, if poll.source.Steering? then s1 else f1)
      && (if poll.source.Steering? then poll.drained + s' == s1 && f' == f1 else poll.drained + f' == f1 && s' == s1)
    ensures var h' := History(h.logs, h.polls + [poll]);
      && Kept(g, h') && Conserved(g, h', LastPoll(h'.polls), Steering, s')
      && Conserved(g, h', LastPoll(h'.polls), FollowUp, f')
  {
    hide Kept, Conserved, Coming, PollKept, Drained;
    NewPollKept(g, h, poll, if poll.source.Steering? then s else f);
    PollsGrow(g, h, poll);
    assert [] + s' == s' && [] + f' == f';
    PollConserves(g, h, poll, Steering, s, s');
    PollConserves(g, h, poll, FollowUp, f, f');
  }

  /** What comes in, and then a poll of one of the queues. */
  method PollFor(config: Config, arrivals: Arrivals, source: Source, ghost g: Brief, ghost h: History)
    returns (waiting: Option<Poll>, ghost h': History)
    requires Queues(config, g.tidy) && Kept(g, h) && BothConserved(g, h, None, config)
    requires (g.tidy ==> TidyArrivals(arrivals)) && arrivals == Coming(g.script, h)
    requires h.logs != [] ==> |h.polls| <= h.logs[|h.logs| - 1].polled + 1 <= |h.polls| + 1
    requires source.FollowUp? ==>
      h.polls != [] && h.polls[|h.polls| - 1].source.Steering? && h.polls[|h.polls| - 1].drained == []
    modifies config.steering, config.followUps
    ensures Queues(config, g.tidy) && Kept(g, h') && BothConserved(g, h', waiting, config)
    ensures Answered(g, h, h', source, waiting)
    ensures waiting.None? ==> (if source.Steering? then config.steering else config.followUps).messages == []
    ensures source.FollowUp? ==> config.steering.messages == old(config.steering.messages) + arrivals.steering
  {
    hide Kept, NoAssistant, Conserved, Coming, PollKept, Drained;
    EmptyDrain();
    ghost var s, f := config.steering.messages, config.followUps.messages;
    Arrive(config, arrivals, g.tidy);
    var queue := if source.Steering? then config.steering else config.followUps;
    var poll := PollQueue(queue, source, g.tidy);
    waiting := if poll.drained == [] then None else Some(poll);
    h' := History(h.logs, h.polls + [poll]);
    Recorded(g, h, poll, s, f, config.steering.messages, config.followUps.messages);
  }

  // ---------- The run ----------

  /** Where the run stands between turns. */
  ghost predicate Stands(g: Brief, h: History, added: seq<Message>, a: Account, context: seq<Message>,
                         transcript: seq<Message>)
  {
    && Kept(g, h) && added == g.prompts + Transcript(h.logs)
    && Ready(a, h.logs == [], added, Extras(g.script, |h.logs|))
    && InStep(context, transcript, Extras(g.script, |h.logs|))
  }

  /** The messages in the loop's hands. */
  ghost predicate Holds(g: Brief, h: History, waiting: Option<Poll>) {
    && waiting == LastPoll(h.polls) && (if h.logs == [] then Begun(g, h.polls) else PolledSince(g, h.logs, h.polls))
    && (waiting.Some? ==>
          && waiting.value.drained != [] && (waiting.value.mode.OneAtATime? ==> |waiting.value.drained| <= 1)
          && (g.tidy ==> NoAssistant(waiting.value.drained)))
  }

  /** One turn of the loop, without the polls that follow it. */
  method StepTurn(context: Context, runner: ToolRunner, i: nat, turn: Turn, added: seq<Message>, waiting: Option<Poll>,
                  st: AgentState, ghost g: Brief, ghost h: History)
    returns (added': seq<Message>, more: bool, ended: bool, ghost log: TurnLog)
    requires st.Valid() && st.since == g.since && runner.tools == g.tools
    requires i == |h.logs| < |g.script| && turn == g.script[i]
    requires Stands(g, h, added, st.Account(), context.messages, st.messages) && Holds(g, h, waiting)
    requires h.logs != [] ==> HasNext(g, h.logs, h.polls)
    requires g.tidy && waiting.None? ==> CanAsk(context.messages)
    modifies context, st, runner
    ensures st.Valid() && st.since == g.since && log.injected == waiting && log.polled == |h.polls|
    ensures runner.executed == old(runner.executed) + log.executed
    ensures ExecutedIn(h.logs + [log]) == ExecutedIn(h.logs) + log.executed
    ensures Kept(g, History(h.logs + [log], h.polls)) && added' == g.prompts + Transcript(h.logs + [log])
    ensures ended == !Ongoing(turn) && (!ended ==> more == !LeavesNothing(g.tools, turn))
    ensures ended ==> Ended(st, added', Extras(g.script, i + 1))
    ensures !ended ==> Stands(g, History(h.logs + [log], h.polls), added', st.Account(), context.messages, st.messages)
    ensures !ended && more ==> CanAsk(context.messages)
  {
    hide Read, Count, Ready, Ended, NoAssistant, CanAsk, ResultsOf, ExecutedBy, LeavesNothing,
      MarksOfTurn, Delivered, TurnKept, Transcript, ExecutedIn, Injected, PolledSince, HasNext, LastPoll;
    var halted;
    added', more, halted, log :=
      RunTurn(context, runner, added, i == 0, waiting, turn, st, Extras(g.script, i), g.tidy, |h.polls|);
    Logged(g, h, log, added');
    LogTells(h.logs, log);
    LogGrows(g, h, log);
    Regroup(g.prompts, Transcript(h.logs), Injected(log), [log.message], log.results);
    ended := halted || turn.stop;
    if !halted && turn.stop { EndAgent(added', st, log.extra); }
  }

  lemma Logged(g: Brief, h: History, log: TurnLog, added: seq<Message>)
    requires |h.logs| < |g.script| && WellFormed(g.script)
    requires GoodTurn(log) && (g.tidy ==> CanAsk(log.asked))
    requires var turn := g.script[|h.logs|];
      && log.message == turn.response.final && log.results == ResultsOf(g.tools, turn)
      && log.executed == ExecutedBy(g.tools, turn)
    requires log.extra == Extras(g.script, |h.logs| + 1) && log.transcript == g.since + added
    requires added == g.prompts + Transcript(h.logs) + Injected(log) + [log.message] + log.results
    requires Extras(g.script, |h.logs|) == 0 ==>
      log.asked == g.since + (g.prompts + Transcript(h.logs)) + Injected(log)
    requires log.polled == |h.polls| && Holds(g, h, log.injected) && (h.logs != [] ==> HasNext(g, h.logs, h.polls))
    ensures TurnKept(g, h.logs, log, h.polls)
  {
    hide GoodTurn, CanAsk, ResultsOf, ExecutedBy, Extras, Transcript, Injected, PolledSince, HasNext, GoesOn, LastPoll;
    if h.logs != [] { Continues(g, h.logs, h.polls); }
    assert h.polls[..|h.polls|] == h.polls;
    Regroup(g.prompts, Transcript(h.logs), Injected(log), [log.message], log.results);
    assert g.since + (g.prompts + (Transcript(h.logs) + Injected(log) + [log.message] + log.results)) ==
           (g.since + g.prompts) + (Transcript(h.logs) + Injected(log) + [log.message] + log.results);
    assert g.since + (g.prompts + Transcript(h.logs)) == (g.since + g.prompts) + Transcript(h.logs);
  }

  lemma Regroup(a: seq<Message>, b: seq<Message>, c: seq<Message>, d: seq<Message>, e: seq<Message>)
    ensures a + b + c + d + e == a + (b + c + d + e)
  {}

  /** The whole of the run so far. */
  ghost predicate Whole(g: Brief, h: History, waiting: Option<Poll>, asks: bool, added: seq<Message>,
                        context: Context, config: Config, st: AgentState)
    reads context, config.runner, config.steering, config.followUps, st
  {
    && st.Valid() && st.since == g.since && config.runner.tools == g.tools && Queues(config, g.tidy)
    && Stands(g, h, added, st.Account(), context.messages, st.messages) && Holds(g, h, waiting)
    && BothConserved(g, h, waiting, config)
    && config.runner.executed == g.executed + ExecutedIn(h.logs)
    && (asks ==> CanAsk(context.messages)) && (g.tidy ==> TidyScript(g.script))
  }

  /** What a run that has ended, or was cut, leaves behind: everything it added to the transcript is told by
      its turns, everything it took from a queue has been injected or is handed back, the tools executed what
      the turns say, and it ended for a reason, with `agent_end`. If that is that there was nothing more to do,
      nothing is queued but steering messages that came in after the last look at them. */
  ghost predicate Concluded(g: Brief, h: History, pending: Option<Poll>, ended: bool, added: seq<Message>,
                            config: Config, st: AgentState)
    reads config.runner, config.steering, config.followUps, st
  {
    && st.Valid() && st.since == g.since && config.runner.tools == g.tools && Queues(config, g.tidy)
    && Kept(g, h) && added == g.prompts + Transcript(h.logs) && st.messages == g.since + added
    && BothConserved(g, h, pending, config)
    && config.runner.executed == g.executed + ExecutedIn(h.logs)
    && (ended && Idles(g, h) ==>
          config.followUps.messages == [] && config.steering.messages == g.script[|h.logs| - 1].late.steering)
    && if ended then pending.None? && Ended(st, added, Extras(g.script, |h.logs|)) && Reason(g, h)
       else
         && |h.logs| == |g.script| && (if h.logs == [] then Begun(g, h.polls) else GoesOn(g, h.logs, h.polls))
         && Ready(st.Account(), h.logs == [], added, Extras(g.script, |h.logs|))
  }

  /** The last turn has been followed by a poll of the steering queue; `more` if it left something to answer. */
  ghost predicate SteeringPolled(g: Brief, h: History, more: bool) {
    && 0 < |h.logs| <= |g.script| && WellFormed(g.script) && Ongoing(g.script[|h.logs| - 1])
    && more == !LeavesNothing(g.tools, g.script[|h.logs| - 1])
    && |h.polls| == h.logs[|h.logs| - 1].polled + 1 && h.polls[|h.polls| - 1].source.Steering?
  }

  /** And if that brought nothing, nothing waits there. */
  ghost predicate Polled(g: Brief, h: History, config: Config, more: bool)
    reads config.steering
  {
    SteeringPolled(g, h, more) && (LastPoll(h.polls).None? ==> config.steering.messages == [])
  }

  /** The run ended because it had nothing more to do. */
  ghost predicate Idles(g: Brief, h: History) {
    0 < |h.logs| <= |g.script| && Ongoing(g.script[|h.logs| - 1])
  }

  lemma AfterPoll(g: Brief, h: History, h': History, waiting: Option<Poll>, config: Config)
    requires waiting.None? ==> config.steering.messages == []
    requires 0 < |h.logs| <= |g.script| && WellFormed(g.script) && h.logs[|h.logs| - 1].polled == |h.polls|
    requires Answered(g, h, h', Steering, waiting) && Ongoing(g.script[|h.logs| - 1])
    ensures Holds(g, h', waiting) && h'.logs == h.logs
    ensures Polled(g, h', config, !LeavesNothing(g.tools, g.script[|h.logs| - 1]))
  {}

  /** A follow-up poll comes right after the one of the steering queue. */
  lemma AfterFollowUps(g: Brief, h: History, h': History, waiting: Option<Poll>)
    requires SteeringPolled(g, h, false) && LastPoll(h.polls).None? && Answered(g, h, h', FollowUp, waiting)
    ensures Holds(g, h', waiting) && h'.logs == h.logs
    ensures if waiting.None? then Reason(g, h') else HasNext(g, h'.logs, h'.polls)
  {
    assert h'.polls[|h'.polls| - 2] == h.polls[|h.polls| - 1];
  }

  lemma StillStands(g: Brief, h: History, h': History, added: seq<Message>, a: Account, context: seq<Message>,
                    transcript: seq<Message>)
    requires Stands(g, h, added, a, context, transcript) && h'.logs == h.logs && Kept(g, h')
    ensures Stands(g, h', added, a, context, transcript)
  {}

  /** What a turn does to the queues' account and to the log of executions. */
  lemma TurnAccounts(g: Brief, h: History, log: TurnLog, config: Config)
    requires BothConserved(g, h, log.injected, config) && log.polled == |h.polls| && |h.logs| < |g.script|
    ensures BothConserved(g, History(h.logs + [log], h.polls), None, config)
    ensures g.executed + ExecutedIn(h.logs) + log.executed == g.executed + (ExecutedIn(h.logs) + log.executed)
  {
    TurnConserves(g, h, log, Steering, config.steering.messages);
    TurnConserves(g, h, log, FollowUp, config.followUps.messages);
  }

  lemma BeforePoll(g: Brief, h: History, added: seq<Message>, a: Account, context: seq<Message>,
                   transcript: seq<Message>)
    requires Stands(g, h, added, a, context, transcript)
    requires 0 < |h.logs| <= |g.script| && h.logs[|h.logs| - 1].polled == |h.polls|
    ensures WellFormed(g.script) && Kept(g, h) && g.script[|h.logs| - 1].before == Coming(g.script, h)
    ensures g.tidy && TidyScript(g.script) ==> TidyArrivals(g.script[|h.logs| - 1].before)
  {}

  /** The poll of the steering queue after a turn. */
  method PollAfterTurn(context: Context, config: Config, script: seq<Turn>, i: nat, added: seq<Message>, st: AgentState,
                       ghost g: Brief, ghost h: History, ghost more: bool)
    returns (waiting: Option<Poll>, ghost h': History)
    requires i + 1 == |h.logs| <= |script| && script == g.script && h.logs[i].polled == |h.polls|
    requires st.Valid() && st.since == g.since && config.runner.tools == g.tools && Queues(config, g.tidy)
    requires Stands(g, h, added, st.Account(), context.messages, st.messages) && BothConserved(g, h, None, config)
    requires config.runner.executed == g.executed + ExecutedIn(h.logs) && (g.tidy ==> TidyScript(g.script))
    requires (more ==> CanAsk(context.messages)) && Ongoing(script[i])
    modifies config.steering, config.followUps
    ensures h'.logs == h.logs && Whole(g, h', waiting, more, added, context, config, st)
    ensures WellFormed(g.script) && Polled(g, h', config, !LeavesNothing(g.tools, script[i]))
  {
    hide *;
    BeforePoll(g, h, added, st.Account(), context.messages, st.messages);
    waiting, h' := PollFor(config, script[i].before, Steering, g, h);
    AfterPoll(g, h, h', waiting, config);
    StillStands(g, h, h', added, st.Account(), context.messages, st.messages);
    Packed(g, h', waiting, more, added, context, config, st);
  }

  /** One turn and the poll of the steering queue after it. */
  method TurnAndPoll(context: Context, config: Config, script: seq<Turn>, i: nat, added: seq<Message>,
                     waiting: Option<Poll>, st: AgentState, ghost g: Brief, ghost h: History, ghost asks: bool)
    returns (added': seq<Message>, more: bool, ended: bool, waiting': Option<Poll>, ghost h': History)
    requires i == |h.logs| < |script| && script == g.script && (g.tidy && waiting.None? ==> asks)
    requires Whole(g, h, waiting, asks, added, context, config, st) && (i > 0 ==> HasNext(g, h.logs, h.polls))
    modifies context, st, config.runner, config.steering, config.followUps
    ensures |h'.logs| == i + 1
    ensures if ended then Concluded(g, h', None, true, added', config, st)
      else Whole(g, h', waiting', more, added', context, config, st) && Polled(g, h', config, more)
  {
    hide *;
    Unpacked(g, h, waiting, asks, added, context, config, st);
    ghost var log;
    added', more, ended, log := StepTurn(context, config.runner, i, script[i], added, waiting, st, g, h);
    waiting', h' := None, History(h.logs + [log], h.polls);
    TurnAccounts(g, h, log, config);
    if ended {
      EndsHere(g, h', i, added', config, st);
    } else {
      waiting', h' := PollAfterTurn(context, config, script, i, added', st, g, h', more);
    }
  }

  lemma Unpacked(g: Brief, h: History, waiting: Option<Poll>, asks: bool, added: seq<Message>, context: Context,
                 config: Config, st: AgentState)
    requires Whole(g, h, waiting, asks, added, context, config, st)
    ensures st.Valid() && st.since == g.since && config.runner.tools == g.tools && Queues(config, g.tidy)
    ensures Stands(g, h, added, st.Account(), context.messages, st.messages) && Holds(g, h, waiting)
    ensures BothConserved(g, h, waiting, config) && config.runner.executed == g.executed + ExecutedIn(h.logs)
    ensures (asks ==> CanAsk(context.messages)) && (g.tidy ==> TidyScript(g.script))
  {}

  lemma Packed(g: Brief, h: History, waiting: Option<Poll>, asks: bool, added: seq<Message>, context: Context,
               config: Config, st: AgentState)
    requires st.Valid() && st.since == g.since && config.runner.tools == g.tools && Queues(config, g.tidy)
    requires Stands(g, h, added, st.Account(), context.messages, st.messages) && Holds(g, h, waiting)
    requires BothConserved(g, h, waiting, config) && config.runner.executed == g.executed + ExecutedIn(h.logs)
    requires (asks ==> CanAsk(context.messages)) && (g.tidy ==> TidyScript(g.script))
    ensures Whole(g, h, waiting, asks, added, context, config, st)
  {}

  lemma EndsHere(g: Brief, h: History, i: nat, added: seq<Message>, config: Config, st: AgentState)
    requires st.Valid() && st.since == g.since && config.runner.tools == g.tools && Queues(config, g.tidy)
    requires i + 1 == |h.logs| <= |g.script| && !Ongoing(g.script[i]) && h.logs[i].polled == |h.polls|
    requires Kept(g, h) && added == g.prompts + Transcript(h.logs) && BothConserved(g, h, None, config)
    requires config.runner.executed == g.executed + ExecutedIn(h.logs) && Ended(st, added, Extras(g.script, i + 1))
    ensures Concluded(g, h, None, true, added, config, st)
  {}

  /** The poll of the follow-ups; if there are none the run ends. */
  method PollOrEnd(context: Context, config: Config, late: Arrivals, added: seq<Message>, st: AgentState,
                   ghost g: Brief, ghost h: History, ghost asks: bool)
    returns (waiting: Option<Poll>, ghost h': History)
    requires Whole(g, h, None, asks, added, context, config, st) && Polled(g, h, config, false)
    requires late == g.script[|h.logs| - 1].late
    modifies st, config.steering, config.followUps
    ensures h'.logs == h.logs
    ensures if waiting.Some?
      then Whole(g, h', waiting, false, added, context, config, st) && HasNext(g, h'.logs, h'.polls)
      else Concluded(g, h', None, true, added, config, st)
  {
    hide Read, Kept, Ready, Ended, NoAssistant, CanAsk, LeavesNothing, Extras, Conserved, Transcript, ExecutedIn,
      PolledSince, InStep, Reason, HasNext, Coming;
    ComesLate(g, h);
    assert SteeringPolled(g, h, false) && config.steering.messages == [];
    waiting, h' := PollFor(config, late, FollowUp, g, h);
    AfterFollowUps(g, h, h', waiting);
    hide Answered, Holds, Polled, SteeringPolled, LastPoll;
    StillStands(g, h, h', added, st.Account(), context.messages, st.messages);
    if waiting.None? { EndAgent(added, st, Extras(g.script, |h.logs|)); }
  }

  lemma ComesLate(g: Brief, h: History)
    requires SteeringPolled(g, h, false) && Holds(g, h, None)
    ensures Coming(g.script, h) == g.script[|h.logs| - 1].late
    ensures h.polls[|h.polls| - 1].source.Steering? && h.polls[|h.polls| - 1].drained == []
  {}

  lemma StartsWell(g: Brief, a: Account, messages: seq<Message>)
    requires Ready(a, true, g.prompts, 0) && WellFormed(g.script)
    ensures Stands(g, History([], []), g.prompts, a, messages, messages)
    ensures g.executed + ExecutedIn([]) == g.executed && Coming(g.script, History([], [])) == Arrivals([], [], All, All)
  {}

  /** What the loop is to start from. */
  ghost predicate Begins(g: Brief, context: Context, config: Config, st: AgentState)
    reads context, config.runner, config.steering, config.followUps, st
  {
    && st.Valid() && Ready(st.Account(), true, g.prompts, 0) && context.messages == st.messages
    && Given(g, config, st) && (g.tidy ==> CanAsk(context.messages))
  }

  /** `g` is what is there. */
  ghost predicate Given(g: Brief, config: Config, st: AgentState)
    reads config.runner, config.steering, config.followUps, st
  {
    && Queues(config, g.tidy) && WellFormed(g.script) && (g.tidy ==> TidyScript(g.script))
    && g.since == st.since && g.tools == config.runner.tools && g.executed == config.runner.executed
    && g.steering == config.steering.messages && g.followUps == config.followUps.messages
  }

  lemma StartsWhole(g: Brief, context: Context, config: Config, st: AgentState)
    requires Begins(g, context, config, st) && g.skips
    ensures Whole(g, History([], []), None, g.tidy, g.prompts, context, config, st)
  {
    StartsWell(g, st.Account(), context.messages);
    assert Holds(g, History([], []), None);
    NothingMoved(g, Steering);
    NothingMoved(g, FollowUp);
    hide Read, Ready, Stands, Holds, Conserved, CanAsk, NoAssistant;
  }

  /** The same after a poll of the steering queue. */
  lemma PolledWhole(g: Brief, poll: Poll, context: Context, config: Config, st: AgentState)
    requires st.Valid() && st.since == g.since && Ready(st.Account(), true, g.prompts, 0) && !g.skips
      && context.messages == st.messages
    requires config.runner.tools == g.tools && config.runner.executed == g.executed && Queues(config, g.tidy)
    requires WellFormed(g.script) && (g.tidy ==> CanAsk(context.messages) && TidyScript(g.script))
    requires poll.source.Steering? && poll.drained + config.steering.messages == g.steering
    requires poll.drained == Drained(poll.mode, g.steering)
    requires config.followUps.messages == g.followUps && (poll.mode.OneAtATime? ==> |poll.drained| <= 1)
    requires g.tidy ==> NoAssistant(poll.drained)
    ensures Whole(g, History([], [poll]), LastPoll([poll]), g.tidy, g.prompts, context, config, st)
  {
    var h, h' := History([], []), History([], [poll]);
    StartsWell(g, st.Account(), context.messages);
    FirstPoll(g, poll, config.steering.messages, config.followUps.messages);
    assert Holds(g, h', LastPoll([poll]));
    hide Read, Kept, Ready, Stands, Holds, Conserved, CanAsk, NoAssistant, LastPoll;
    StillStands(g, h, h', g.prompts, st.Account(), context.messages, st.messages);
  }

  method BeginLoop(context: Context, config: Config, skipFirstPoll: bool, st: AgentState, ghost g: Brief)
    returns (waiting: Option<Poll>, ghost h: History)
    requires Begins(g, context, config, st) && g.skips == skipFirstPoll
    modifies config.steering
    ensures h.logs == [] && Whole(g, h, waiting, g.tidy, g.prompts, context, config, st)
  {
    hide Whole, Ready, CanAsk, NoAssistant, Read, TidyScript, WellFormed;
    waiting, h := None, History([], []);
    if skipFirstPoll {
      StartsWhole(g, context, config, st);
    } else {
      var poll := PollQueue(config.steering, Steering, g.tidy);
      waiting := if poll.drained == [] then None else Some(poll);
      h := History([], [poll]);
      PolledWhole(g, poll, context, config, st);
    }
  }

  lemma FirstPoll(g: Brief, poll: Poll, steering: seq<Message>, followUps: seq<Message>)
    requires WellFormed(g.script) && poll.source.Steering? && poll.drained + steering == g.steering
      && followUps == g.followUps && poll.drained == Drained(poll.mode, g.steering)
    ensures var h := History([], [poll]);
      && Kept(g, h)
      && Conserved(g, h, LastPoll(h.polls), Steering, steering)
      && Conserved(g, h, LastPoll(h.polls), FollowUp, followUps)
  {
    var h := History([], []);
    assert h.polls + [poll] == [poll];
    NothingMoved(g, Steering);
    NothingMoved(g, FollowUp);
    PollConserves(g, h, poll, Steering, g.steering, steering);
    PollConserves(g, h, poll, FollowUp, g.followUps, followUps);
    assert g.steering + [] == g.steering;
    NewPollKept(g, h, poll, g.steering);
  }

  /** Why the inner loop ended: nothing more to do, the run is over, or the script ended first. */
  datatype Halt = Idle | Over | CutShort

  /** The inner loop of `runLoop`: turns, as long as there are calls to answer or messages to inject. */
  method RunTurns(context: Context, config: Config, script: seq<Turn>, from: nat, added: seq<Message>,
                  pending: Option<Poll>, st: AgentState, ghost g: Brief, ghost h: History, ghost asks: bool)
    returns (i: nat, added': seq<Message>, waiting: Option<Poll>, halt: Halt, ghost h': History, ghost asks': bool)
    requires from == |h.logs| <= |script| && script == g.script && (g.tidy && pending.None? ==> asks)
    requires Whole(g, h, pending, asks, added, context, config, st) && (from > 0 ==> HasNext(g, h.logs, h.polls))
    modifies context, st, config.runner, config.steering, config.followUps
    ensures i == |h'.logs| <= |script|
    ensures match halt
      case CutShort =>
        && i == |script| && Whole(g, h', waiting, asks', added', context, config, st)
        && (i > 0 ==> HasNext(g, h'.logs, h'.polls))
      case Over => Concluded(g, h', None, true, added', config, st)
      case Idle => from < i && Polled(g, h', config, false) && Whole(g, h', None, asks', added', context, config, st)
  {
    hide Whole, Concluded, Polled, HasNext;
    i, added', waiting, h', asks' := from, added, pending, h, asks;
    var more, ended := true, false;
    while more || waiting.Some?
      invariant from <= i == |h'.logs| <= |script| && (from < i || more)
      invariant Whole(g, h', waiting, asks', added', context, config, st)
      invariant g.tidy && waiting.None? && more ==> asks'
      invariant from < i ==> Polled(g, h', config, more)
      invariant from == i && i > 0 ==> HasNext(g, h'.logs, h'.polls)
      decreases |script| - i
    {
      if from < i { ToGoOn(g, h', waiting, asks', added', context, config, st, more); }
      if i == |script| { halt := CutShort; return; }
      added', more, ended, waiting, h' := TurnAndPoll(context, config, script, i, added', waiting, st, g, h', asks');
      i, asks' := i + 1, more;
      if ended { halt := Over; return; }
    }
    halt := Idle;
  }

  lemma ToGoOn(g: Brief, h: History, waiting: Option<Poll>, asks: bool, added: seq<Message>, context: Context,
               config: Config, st: AgentState, more: bool)
    requires Whole(g, h, waiting, asks, added, context, config, st) && Polled(g, h, config, more)
    requires more || waiting.Some?
    ensures HasNext(g, h.logs, h.polls)
  {}

  /** What is known when the script ends first. */
  lemma Cut(g: Brief, h: History, waiting: Option<Poll>, asks: bool, added: seq<Message>, context: Context,
            config: Config, st: AgentState)
    requires Whole(g, h, waiting, asks, added, context, config, st) && |h.logs| == |g.script|
    requires h.logs != [] ==> HasNext(g, h.logs, h.polls)
    ensures Concluded(g, h, waiting, false, added, config, st)
  {
    if h.logs != [] { Continues(g, h.logs, h.polls); }
  }

  /** `runLoop`. The run goes on while there are calls to answer or messages to inject; it ends for one of the
      reasons given, and then nothing it took from a queue is left over. */
  method RunLoop(context: Context, config: Config, prompts: seq<Message>, script: seq<Turn>, skipFirstPoll: bool,
                 st: AgentState, ghost g: Brief)
    returns (added: seq<Message>, ended: bool, ghost h: History, ghost pending: Option<Poll>)
    requires Begins(g, context, config, st) && g.script == script && g.prompts == prompts && g.skips == skipFirstPoll
    modifies context, st, config.runner, config.steering, config.followUps
    ensures Concluded(g, h, pending, ended, added, config, st)
  {
    hide *;
    var waiting;
    waiting, h := BeginLoop(context, config, skipFirstPoll, st, g);
    added := prompts;
    ghost var asks := g.tidy;
    var i, halt := 0, Idle;
    while true
      invariant i == |h.logs| <= |script|
      invariant Whole(g, h, waiting, asks, added, context, config, st)
      invariant g.tidy && waiting.None? ==> asks
      invariant i > 0 ==> HasNext(g, h.logs, h.polls)
      decreases |script| - i
    {
      i, added, waiting, halt, h, asks := RunTurns(context, config, script, i, added, waiting, st, g, h, asks);
      if halt.CutShort? {
        Cut(g, h, waiting, asks, added, context, config, st);
        return added, false, h, waiting;
      }
      if halt.Over? { return added, true, h, None; }
      waiting, h := PollOrEnd(context, config, script[i - 1].late, added, st, g, h, asks);
      asks := false;
      if waiting.None? { return added, true, h, None; }
    }
  }

  /** `runAgentLoop`: a run for new prompts, on a context that agrees with the transcript. */
  method RunAgentLoop(prompts: seq<Message>, messages: seq<Message>, config: Config, script: seq<Turn>,
                      skipFirstPoll: bool, st: AgentState, ghost g: Brief)
    returns (added: seq<Message>, ended: bool, ghost h: History, ghost pending: Option<Poll>)
    requires st.Valid() && st.trace == [] && messages == st.messages
    requires Given(g, config, st) && g.script == script && g.prompts == prompts && g.skips == skipFirstPoll
    requires g.tidy ==> CanAsk(messages + prompts)
    modifies st, config.runner, config.steering, config.followUps
    ensures Concluded(g, h, pending, ended, added, config, st)
  {
    hide Read, Ready, Concluded, CanAsk, NoAssistant;
    var context := new Context(messages + prompts);
    Opening(st, prompts);
    added, ended, h, pending := RunLoop(context, config, prompts, script, skipFirstPoll, st, g);
  }

  /** `runAgentLoopContinue`: a run without prompts, refused unless the transcript ends in a message that is
      not the assistant's. */
  method RunAgentLoopContinue(messages: seq<Message>, config: Config, script: seq<Turn>, st: AgentState, ghost g: Brief)
    returns (refused: bool, added: seq<Message>, ended: bool, ghost h: History, ghost pending: Option<Poll>)
    requires st.Valid() && st.trace == [] && messages == st.messages
    requires Given(g, config, st) && g.script == script && g.prompts == [] && !g.skips
    modifies st, config.runner, config.steering, config.followUps
    ensures refused == !CanAsk(messages)
    ensures refused ==> st.Valid() && st.trace == [] && st.messages == messages && Given(g, config, st)
    ensures !refused ==> Concluded(g, h, pending, ended, added, config, st)
  {
    refused := messages == [] || messages[|messages| - 1].Assistant?;
    added, ended, h, pending := [], false, History([], []), None;
    if !refused {
      assert CanAsk(messages);
      hide Read, Ready, Concluded, CanAsk, NoAssistant;
      var context := new Context(messages);
      Opening(st, []);
      added, ended, h, pending := RunLoop(context, config, [], script, false, st, g);
    }
  }

  /** `agent_start`, the first `turn_start`, and the prompts. */
  method Opening(st: AgentState, prompts: seq<Message>)
    requires st.Valid() && st.trace == []
    modifies st
    ensures st.Valid() && st.since == old(st.since) && st.messages == old(st.messages) + prompts
    ensures Ready(st.Account(), true, prompts, 0)
  {
    hide Read, Count, Adds, Ready, Next;
    OpenTurn(st);
    ghost var a := st.Account();
    EmitAll(prompts, st);
    Prompted(a, st.Account(), prompts);
  }

  method OpenTurn(st: AgentState)
    requires st.Valid() && st.trace == []
    modifies st
    ensures st.Valid() && st.since == old(st.since) && st.messages == old(st.messages) == st.since
    ensures st.Account() == Account([], multiset{}, multiset{}, InTurn([], []))
  {
    hide Read, Count, Next;
    Opened();
    st.ProcessEvent(AgentStart);
    st.ProcessEvent(TurnStart);
  }

  lemma Opened()
    ensures Read([]) == Account([], multiset{}, multiset{}, Silent)
    ensures Count(Count(Account([], multiset{}, multiset{}, Silent), AgentStart), TurnStart) ==
      Account([], multiset{}, multiset{}, InTurn([], []))
  {}

  lemma Prompted(a: Account, b: Account, prompts: seq<Message>)
    requires a == Account([], multiset{}, multiset{}, InTurn([], [])) && Adds(a, b, prompts, multiset{})
    ensures Ready(b, true, prompts, 0) && b.told == a.told + prompts
  {}
}
