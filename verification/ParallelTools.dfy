/** Parallel tool batches of runtimes/pi/packages/agent/src/agent-loop.ts: calls are prepared in order, run in
    any interleaving, and reported in order. */
module ParallelTools {

  import opened AgentEvents
  import opened Options
  import opened ToolBatches

  /** A call in execution, with the updates it has still to give. */
  datatype Task = Task(position: nat, left: seq<Body>)

  ghost predicate Fitting(tasks: seq<Task>, n: nat) {
    forall j :: 0 <= j < |tasks| ==> tasks[j].position < n
  }

  /** The ids of the calls in execution. */
  function Ids(calls: seq<ToolCall>, tasks: seq<Task>): multiset<string>
    requires Fitting(tasks, |calls|)
  {
    if tasks == [] then multiset{}
    else Ids(calls, tasks[..|tasks| - 1]) + multiset{calls[tasks[|tasks| - 1].position].id}
  }

  function Due(tools: seq<Tool>, calls: seq<ToolCall>, inputs: seq<Input>, task: Task): multiset<Event>
    requires task.position < |calls| == |inputs|
  {
    var call := calls[task.position];
    multiset(UpdatesOf(call, task.left)) + multiset{EndOf(Outcome(tools, call, inputs[task.position]))}
  }

  /** What the calls in execution have still to say. */
  function Owed(tools: seq<Tool>, calls: seq<ToolCall>, inputs: seq<Input>, tasks: seq<Task>): multiset<Event>
    requires |calls| == |inputs| && Fitting(tasks, |calls|)
  {
    if tasks == [] then multiset{}
    else Owed(tools, calls, inputs, tasks[..|tasks| - 1]) + Due(tools, calls, inputs, tasks[|tasks| - 1])
  }

  function Work(tasks: seq<Task>): nat {
    if tasks == [] then 0 else Work(tasks[..|tasks| - 1]) + |tasks[|tasks| - 1].left| + 1
  }

  function Without(tasks: seq<Task>, k: nat): seq<Task>
    requires k < |tasks|
  {
    tasks[..k] + tasks[k + 1..]
  }

  lemma WithoutLast(tasks: seq<Task>, k: nat)
    requires k < |tasks|
    ensures k == |tasks| - 1 ==> Without(tasks, k) == tasks[..k]
    ensures k < |tasks| - 1 ==>
      && Without(tasks, k)[..|tasks| - 2] == Without(tasks[..|tasks| - 1], k)
      && Without(tasks, k)[|tasks| - 2] == tasks[|tasks| - 1]
  {
  }

  lemma {:induction false} IdsOf(calls: seq<ToolCall>, tasks: seq<Task>, k: nat)
    requires Fitting(tasks, |calls|) && k < |tasks|
    ensures Fitting(Without(tasks, k), |calls|)
    ensures Ids(calls, tasks) == Ids(calls, Without(tasks, k)) + multiset{calls[tasks[k].position].id}
  {
    WithoutLast(tasks, k);
    if k < |tasks| - 1 { IdsOf(calls, tasks[..|tasks| - 1], k); }
  }

  lemma {:induction false} OwedOf(tools: seq<Tool>, calls: seq<ToolCall>, inputs: seq<Input>, tasks: seq<Task>, k: nat)
    requires |calls| == |inputs| && Fitting(tasks, |calls|) && k < |tasks| && Fitting(Without(tasks, k), |calls|)
    ensures Owed(tools, calls, inputs, tasks) ==
      Owed(tools, calls, inputs, Without(tasks, k)) + Due(tools, calls, inputs, tasks[k])
  {
    hide Due;
    WithoutLast(tasks, k);
    if k < |tasks| - 1 {
      IdsOf(calls, tasks[..|tasks| - 1], k);
      OwedOf(tools, calls, inputs, tasks[..|tasks| - 1], k);
    }
  }

  lemma {:induction false} WorkOf(tasks: seq<Task>, k: nat)
    requires k < |tasks|
    ensures Work(tasks) == Work(Without(tasks, k)) + |tasks[k].left| + 1
  {
    WithoutLast(tasks, k);
    if k < |tasks| - 1 { WorkOf(tasks[..|tasks| - 1], k); }
  }

  /** An update is given: the same calls are open, */
  lemma Progress(calls: seq<ToolCall>, tasks: seq<Task>, k: nat, rest: seq<Task>)
    requires Fitting(tasks, |calls|) && k < |tasks| && tasks[k].left != []
    requires rest == tasks[k := Task(tasks[k].position, tasks[k].left[1..])]
    ensures Fitting(rest, |calls|) && Ids(calls, rest) == Ids(calls, tasks) && Work(rest) < Work(tasks)
    ensures calls[tasks[k].position].id in Ids(calls, tasks)
  {
    hide Ids, Work;
    assert Without(rest, k) == Without(tasks, k);
    IdsOf(calls, tasks, k);
    IdsOf(calls, rest, k);
    WorkOf(tasks, k);
    WorkOf(rest, k);
  }

  /** and that update is owed no longer. */
  lemma ProgressOwed(tools: seq<Tool>, calls: seq<ToolCall>, inputs: seq<Input>, tasks: seq<Task>, k: nat,
                     rest: seq<Task>)
    requires |calls| == |inputs| && Fitting(tasks, |calls|) && k < |tasks| && tasks[k].left != []
    requires rest == tasks[k := Task(tasks[k].position, tasks[k].left[1..])] && Fitting(rest, |calls|)
    ensures Owed(tools, calls, inputs, tasks) ==
      Owed(tools, calls, inputs, rest) + multiset{ToolUpdate(calls[tasks[k].position], tasks[k].left[0])}
  {
    hide Owed, Outcome, Ids, Work;
    var t, call := tasks[k], calls[tasks[k].position];
    assert Without(rest, k) == Without(tasks, k);
    IdsOf(calls, tasks, k);
    OwedOf(tools, calls, inputs, tasks, k);
    OwedOf(tools, calls, inputs, rest, k);
    assert UpdatesOf(call, t.left) == [ToolUpdate(call, t.left[0])] + UpdatesOf(call, t.left[1..]);
    hide UpdatesOf;
  }

  /** A call ends: it owes nothing more and is open no longer. */
  lemma Completion(tools: seq<Tool>, calls: seq<ToolCall>, inputs: seq<Input>, tasks: seq<Task>, k: nat)
    requires |calls| == |inputs| && Fitting(tasks, |calls|) && k < |tasks| && tasks[k].left == []
    ensures var t, rest := tasks[k], Without(tasks, k);
      && Fitting(rest, |calls|) && Work(rest) < Work(tasks)
      && Ids(calls, tasks) == Ids(calls, rest) + multiset{calls[t.position].id}
      && Owed(tools, calls, inputs, tasks) ==
           Owed(tools, calls, inputs, rest) + multiset{EndOf(Outcome(tools, calls[t.position], inputs[t.position]))}
  {
    IdsOf(calls, tasks, k);
    WorkOf(tasks, k);
    OwedOf(tools, calls, inputs, tasks, k);
    assert UpdatesOf(calls[tasks[k].position], []) == [];
    hide Ids, Work, Owed, UpdatesOf, Outcome;
  }

  /** Where a batch stands while calls run: `marks` is all that will have been said of it, and the calls
      opened are those in execution. */
  predicate Midway(a: Account, b: Account, open: multiset<string>, owed: multiset<Event>, marks: multiset<Event>) {
    && b.told == a.told && b.open == a.open + open && b.marks + owed == a.marks + marks
    && (a.heard.InTurn? || a.heard.Garbled? ==> b.heard == a.heard)
  }

  lemma Starting(a: Account, b: Account, open: multiset<string>, owed: multiset<Event>, marks: multiset<Event>,
                 call: ToolCall)
    requires Midway(a, b, open, owed, marks)
    ensures forall more: multiset<Event> ::
      Midway(a, Count(b, ToolStart(call)), open + multiset{call.id}, owed + more,
        marks + (multiset{ToolStart(call)} + more))
  {
    var c := Count(b, ToolStart(call));
    forall more: multiset<Event>
      ensures Midway(a, c, open + multiset{call.id}, owed + more, marks + (multiset{ToolStart(call)} + more))
    {
      var s := multiset{ToolStart(call)};
      assert (b.marks + s) + (owed + more) == (b.marks + owed) + (s + more);
      assert (a.marks + marks) + (s + more) == a.marks + (marks + (s + more));
    }
  }

  lemma Updating(a: Account, b: Account, open: multiset<string>, owed: multiset<Event>, marks: multiset<Event>,
                 e: Event)
    requires e.ToolUpdate? && e.call.id in open
    requires Midway(a, b, open, owed + multiset{e}, marks)
    ensures Midway(a, Count(b, e), open, owed, marks)
  {}

  lemma Ending(a: Account, b: Account, open: multiset<string>, owed: multiset<Event>, marks: multiset<Event>, e: Event)
    requires e.ToolEnd?
    requires Midway(a, b, open + multiset{e.call.id}, owed + multiset{e}, marks)
    ensures Midway(a, Count(b, e), open, owed, marks)
  {}

  /** The calls of the batch that are in execution, in order. */
  function CallsOf(calls: seq<ToolCall>, tasks: seq<Task>): seq<ToolCall>
    requires Fitting(tasks, |calls|)
  {
    if tasks == [] then [] else CallsOf(calls, tasks[..|tasks| - 1]) + [calls[tasks[|tasks| - 1].position]]
  }

  /** Every call in execution has been started, once, and its tool gives what it yields. */
  ghost predicate Started(inputs: seq<Input>, tasks: seq<Task>, yielded: seq<Option<(Result, bool)>>) {
    && |yielded| == |inputs| && Fitting(tasks, |inputs|)
    && forall j :: 0 <= j < |tasks| ==> yielded[tasks[j].position] == Some(Yielded(inputs[tasks[j].position]))
  }

  lemma StartedRest(inputs: seq<Input>, tasks: seq<Task>, k: nat, yielded: seq<Option<(Result, bool)>>)
    requires Started(inputs, tasks, yielded) && k < |tasks|
    ensures Started(inputs, Without(tasks, k), yielded)
    ensures forall left :: Started(inputs, tasks[k := Task(tasks[k].position, left)], yielded)
  {
    forall left, j | 0 <= j < |tasks|
      ensures tasks[k := Task(tasks[k].position, left)][j].position == tasks[j].position
    {}
  }

  lemma CallsOfPrefix(calls: seq<ToolCall>, tasks: seq<Task>, i: nat)
    requires Fitting(tasks, |calls|) && i < |tasks|
    ensures CallsOf(calls, tasks[..i + 1]) == CallsOf(calls, tasks[..i]) + [calls[tasks[i].position]]
  {
    assert tasks[..i + 1][..i] == tasks[..i];
  }

  /** The executions are started in the order of the calls. */
  method StartAll(runner: ToolRunner, calls: seq<ToolCall>, inputs: seq<Input>, tasks: seq<Task>)
    returns (yielded: seq<Option<(Result, bool)>>)
    requires |calls| == |inputs| && Fitting(tasks, |calls|)
    modifies runner
    ensures Started(inputs, tasks, yielded)
    ensures runner.executed == old(runner.executed) + CallsOf(calls, tasks)
  {
    hide CallsOf, Yielded;
    yielded := seq(|inputs|, i requires 0 <= i < |inputs| => None);
    assert CallsOf(calls, tasks[..0]) == [] by { NoCalls(calls); }
    var i := 0;
    while i < |tasks|
      invariant 0 <= i <= |tasks| && Started(inputs, tasks[..i], yielded)
      invariant runner.executed == old(runner.executed) + CallsOf(calls, tasks[..i])
    {
      var position := tasks[i].position;
      var gives := runner.Execute(calls[position], inputs[position]);
      CallsOfPrefix(calls, tasks, i);
      yielded := yielded[position := Some(gives)];
      i := i + 1;
    }
    assert tasks[..i] == tasks;
  }

  lemma NoCalls(calls: seq<ToolCall>)
    ensures CallsOf(calls, []) == []
  {}

  /** The calls of the batch run together: whichever goes next gives its next update or ends. `schedule`
      chooses; where it is silent, the first goes. */
  method RunTasks(tools: seq<Tool>, calls: seq<ToolCall>, inputs: seq<Input>, n: nat, running: seq<Task>,
                  yielded: seq<Option<(Result, bool)>>, slots: seq<Option<Finalized>>, schedule: seq<nat>,
                  st: AgentState, ghost a: Account, ghost marks: multiset<Event>)
    returns (finals: seq<Finalized>)
    requires n <= |calls| == |inputs| && n == |slots| && st.Valid() && Fitting(running, |calls|)
    requires Slots(tools, calls, inputs, n, slots, running) && Started(inputs, running, yielded)
    requires Midway(a, st.Account(), Ids(calls, running), Owed(tools, calls, inputs, running), marks)
    modifies st
    ensures st.Valid() && st.since == old(st.since)
    ensures finals == Outcomes(tools, calls[..n], inputs[..n])
    ensures Midway(a, st.Account(), multiset{}, multiset{}, marks)
  {
    hide Read, Count, Midway, Ids, Owed, Work, Prepare, Outcome, Started, Yielded, Finalize;
    var tasks, slots, step := running, slots, 0;
    while tasks != []
      invariant Fitting(tasks, |calls|) && n == |slots| && Slots(tools, calls, inputs, n, slots, tasks)
      invariant Started(inputs, tasks, yielded)
      invariant st.Valid() && st.since == old(st.since)
      invariant Midway(a, st.Account(), Ids(calls, tasks), Owed(tools, calls, inputs, tasks), marks)
      decreases Work(tasks)
    {
      var k := if step < |schedule| then schedule[step] % |tasks| else 0;
      step := step + 1;
      var t := tasks[k];
      var call, input := calls[t.position], inputs[t.position];
      ghost var b := st.Account();
      StartedRest(inputs, tasks, k, yielded);
      if t.left != [] {
        var rest := tasks[k := Task(t.position, t.left[1..])];
        Progress(calls, tasks, k, rest);
        ProgressOwed(tools, calls, inputs, tasks, k, rest);
        Updating(a, b, Ids(calls, rest), Owed(tools, calls, inputs, rest), marks, ToolUpdate(call, t.left[0]));
        st.ProcessEvent(ToolUpdate(call, t.left[0]));
        SlotsMove(tools, calls, inputs, n, slots, tasks, k, rest);
        tasks := rest;
      } else {
        Completion(tools, calls, inputs, tasks, k);
        StartedAt(inputs, tasks, k, yielded);
        var final := Finalize(call, yielded[t.position].value, input.review);
        ReadyOutcome(tools, call, input);
        Ending(a, b, Ids(calls, Without(tasks, k)), Owed(tools, calls, inputs, Without(tasks, k)), marks, EndOf(final));
        st.ProcessEvent(EndOf(final));
        SlotsFill(tools, calls, inputs, n, slots, tasks, k);
        slots := slots[t.position := Some(final)];
        tasks := Without(tasks, k);
      }
    }
    finals := seq(n, i requires 0 <= i < n && slots[i].Some? => slots[i].value);
    IdsOfNone(tools, calls, inputs);
  }

  lemma StartedAt(inputs: seq<Input>, tasks: seq<Task>, k: nat, yielded: seq<Option<(Result, bool)>>)
    requires Started(inputs, tasks, yielded) && k < |tasks|
    ensures |yielded| == |inputs| && tasks[k].position < |inputs|
    ensures yielded[tasks[k].position] == Some(Yielded(inputs[tasks[k].position]))
  {}

  lemma ReadyOutcome(tools: seq<Tool>, call: ToolCall, input: Input)
    requires Prepare(tools, call, input).Ready?
    ensures Outcome(tools, call, input) == Finalize(call, Yielded(input), input.review)
  {
  }

  lemma IdsOfNone(tools: seq<Tool>, calls: seq<ToolCall>, inputs: seq<Input>)
    requires |calls| == |inputs|
    ensures Ids(calls, []) == multiset{} && Owed(tools, calls, inputs, []) == multiset{}
  {
  }

  /** Every call is either running or has its outcome in its slot. */
  ghost predicate Slots(tools: seq<Tool>, calls: seq<ToolCall>, inputs: seq<Input>, n: nat,
                        slots: seq<Option<Finalized>>, tasks: seq<Task>)
    requires n <= |calls| == |inputs| && n == |slots|
  {
    && Fitting(tasks, n)
    && (forall i :: 0 <= i < n && slots[i].Some? ==> slots[i].value == Outcome(tools, calls[i], inputs[i]))
    && (forall i :: 0 <= i < n && slots[i].None? ==> exists j :: 0 <= j < |tasks| && tasks[j].position == i)
    && (forall j :: 0 <= j < |tasks| ==> Prepare(tools, calls[tasks[j].position], inputs[tasks[j].position]).Ready?)
  }

  lemma SlotsMove(tools: seq<Tool>, calls: seq<ToolCall>, inputs: seq<Input>, n: nat, slots: seq<Option<Finalized>>,
                  tasks: seq<Task>, k: nat, rest: seq<Task>)
    requires n <= |calls| == |inputs| && n == |slots| && Slots(tools, calls, inputs, n, slots, tasks)
    requires k < |tasks| && tasks[k].left != [] && rest == tasks[k := Task(tasks[k].position, tasks[k].left[1..])]
    ensures Slots(tools, calls, inputs, n, slots, rest)
  {
    hide Prepare, Outcome;
    forall i | 0 <= i < n && slots[i].None? ensures exists j :: 0 <= j < |rest| && rest[j].position == i {
      var j :| 0 <= j < |tasks| && tasks[j].position == i;
      assert rest[j].position == i;
    }
  }

  lemma SlotsFill(tools: seq<Tool>, calls: seq<ToolCall>, inputs: seq<Input>, n: nat, slots: seq<Option<Finalized>>,
                  tasks: seq<Task>, k: nat)
    requires n <= |calls| == |inputs| && n == |slots| && Slots(tools, calls, inputs, n, slots, tasks) && k < |tasks|
    ensures var p := tasks[k].position;
      Slots(tools, calls, inputs, n, slots[p := Some(Outcome(tools, calls[p], inputs[p]))], Without(tasks, k))
  {
    hide Prepare, Outcome;
    var rest := Without(tasks, k);
    var p := tasks[k].position;
    forall i | 0 <= i < n && i != p && slots[i].None? ensures exists j :: 0 <= j < |rest| && rest[j].position == i {
      var j :| 0 <= j < |tasks| && tasks[j].position == i;
      assert rest[if j < k then j else j - 1] == tasks[j];
    }
  }

  /** Preparing in order, running together, reporting in order: the same batch as one after the other, and the
      same executions. */
  method ExecuteToolCallsParallel(runner: ToolRunner, calls: seq<ToolCall>, inputs: seq<Input>, schedule: seq<nat>,
                                  st: AgentState)
    returns (batch: Batch)
    requires |calls| == |inputs| && st.Valid()
    modifies st, runner
    ensures IsBatch(runner.tools, calls, inputs, batch)
    ensures runner.executed == old(runner.executed) + ExecutedCalls(runner.tools, calls, inputs, Attended(inputs))
    ensures st.Valid() && st.since == old(st.since)
    ensures Adds(old(st.Account()), st.Account(), batch.messages,
                 BatchMarks(runner.tools, calls, inputs, Attended(inputs)))
  {
    hide Read, Count, Midway, Ids, Owed, Work, Prepare, Outcome, BatchMarks, Adds, CallsOf, ExecutedCalls, Started,
      Slots, Outcomes, ResultMessages;
    ghost var a, tools := st.Account(), runner.tools;
    var tasks: seq<Task>, slots: seq<Option<Finalized>> := [], [];
    var i, aborted := 0, false;
    NothingYet(tools, calls, inputs, a);
    while i < |calls| && !aborted
      invariant 0 <= i <= |calls| && |slots| == i && Fitting(tasks, i)
      invariant Slots(tools, calls, inputs, i, slots, tasks)
      invariant runner.executed == old(runner.executed)
      invariant CallsOf(calls, tasks) == ExecutedCalls(tools, calls, inputs, i)
      invariant forall k :: 0 <= k < i - 1 ==> !inputs[k].abortedAfter
      invariant aborted == (i > 0 && inputs[i - 1].abortedAfter)
      invariant st.Valid() && st.since == old(st.since)
      invariant Midway(a, st.Account(), Ids(calls, tasks), Owed(tools, calls, inputs, tasks),
        BatchMarks(tools, calls, inputs, i))
    {
      var call, input := calls[i], inputs[i];
      var slot := PrepareOne(runner.tools, calls, inputs, i, tasks, st, a);
      SlotsGrow(tools, calls, inputs, i, slots, tasks, slot);
      CallsGrow(tools, calls, inputs, i, tasks);
      if slot.None? { tasks := tasks + [Task(i, input.updates)]; }
      slots := slots + [slot];
      aborted := input.abortedAfter;
      i := i + 1;
    }
    AttendedIs(inputs, i);
    var yielded := StartAll(runner, calls, inputs, tasks);
    ghost var marks := BatchMarks(tools, calls, inputs, i);
    var finals := RunTasks(runner.tools, calls, inputs, i, tasks, yielded, slots, schedule, st, a, marks);
    ghost var b := st.Account();
    var messages := Report(finals, st);
    AddedAll(a, b, st.Account(), marks, messages);
    batch := Batch(messages, Terminates(finals));
  }

  lemma CallsGrow(tools: seq<Tool>, calls: seq<ToolCall>, inputs: seq<Input>, i: nat, tasks: seq<Task>)
    requires i < |calls| == |inputs| && Fitting(tasks, |calls|)
    requires CallsOf(calls, tasks) == ExecutedCalls(tools, calls, inputs, i)
    ensures var rest := if Prepare(tools, calls[i], inputs[i]).Ready? then tasks + [Task(i, inputs[i].updates)]
      else tasks;
      Fitting(rest, |calls|) && CallsOf(calls, rest) == ExecutedCalls(tools, calls, inputs, i + 1)
  {
    hide Prepare;
    var rest := tasks + [Task(i, inputs[i].updates)];
    assert rest[..|tasks|] == tasks && CallsOf(calls, rest) == CallsOf(calls, tasks) + [calls[i]];
    assert ExecutedCalls(tools, calls, inputs, i) + [] == ExecutedCalls(tools, calls, inputs, i);
  }

  lemma NothingYet(tools: seq<Tool>, calls: seq<ToolCall>, inputs: seq<Input>, a: Account)
    requires |calls| == |inputs|
    ensures Midway(a, a, Ids(calls, []), Owed(tools, calls, inputs, []), BatchMarks(tools, calls, inputs, 0))
    ensures Slots(tools, calls, inputs, 0, [], []) && CallsOf(calls, []) == [] == ExecutedCalls(tools, calls, inputs, 0)
  {
  }

  lemma AddedAll(a: Account, b: Account, c: Account, marks: multiset<Event>, messages: seq<Message>)
    requires Midway(a, b, multiset{}, multiset{}, marks) && Adds(b, c, messages, multiset{})
    ensures Adds(a, c, messages, marks)
  {}

  lemma SlotsGrow(tools: seq<Tool>, calls: seq<ToolCall>, inputs: seq<Input>, i: nat, slots: seq<Option<Finalized>>,
                  tasks: seq<Task>, slot: Option<Finalized>)
    requires i < |calls| == |inputs| && i == |slots| && Slots(tools, calls, inputs, i, slots, tasks)
    requires slot.Some? ==> slot.value == Outcome(tools, calls[i], inputs[i])
    requires slot.None? ==> Prepare(tools, calls[i], inputs[i]).Ready?
    ensures Slots(tools, calls, inputs, i + 1, slots + [slot], if slot.None? then tasks + [Task(i, inputs[i].updates)]
      else tasks)
  {
    hide Prepare, Outcome;
    var rest := if slot.None? then tasks + [Task(i, inputs[i].updates)] else tasks;
    assert forall j :: 0 <= j < |tasks| ==> rest[j] == tasks[j];
    assert slot.None? ==> rest[|tasks|].position == i;
  }

  lemma MarksBegin(tools: seq<Tool>, calls: seq<ToolCall>, inputs: seq<Input>, i: nat)
    requires i < |calls| == |inputs|
    ensures var call := calls[i];
      BatchMarks(tools, calls, inputs, i + 1) == BatchMarks(tools, calls, inputs, i) + (multiset{ToolStart(call)} +
        if Prepare(tools, call, inputs[i]).Ready? then Due(tools, calls, inputs, Task(i, inputs[i].updates))
        else multiset{EndOf(Outcome(tools, call, inputs[i]))})
  {}

  lemma TasksGrow(tools: seq<Tool>, calls: seq<ToolCall>, inputs: seq<Input>, tasks: seq<Task>, task: Task)
    requires |calls| == |inputs| && Fitting(tasks, |calls|) && task.position < |calls|
    ensures var rest := tasks + [task];
      && Ids(calls, rest) == Ids(calls, tasks) + multiset{calls[task.position].id}
      && Owed(tools, calls, inputs, rest) == Owed(tools, calls, inputs, tasks) + Due(tools, calls, inputs, task)
  {}

  /** The start of a call, and its end if it is not to be executed. */
  method PrepareOne(tools: seq<Tool>, calls: seq<ToolCall>, inputs: seq<Input>, i: nat, tasks: seq<Task>,
                    st: AgentState, ghost a: Account)
    returns (slot: Option<Finalized>)
    requires i < |calls| == |inputs| && Fitting(tasks, i) && st.Valid()
    requires Midway(a, st.Account(), Ids(calls, tasks), Owed(tools, calls, inputs, tasks),
      BatchMarks(tools, calls, inputs, i))
    modifies st
    ensures slot.Some? ==> slot.value == Outcome(tools, calls[i], inputs[i])
    ensures slot.None? <==> Prepare(tools, calls[i], inputs[i]).Ready?
    ensures st.Valid() && st.since == old(st.since)
    ensures var rest := if slot.None? then tasks + [Task(i, inputs[i].updates)] else tasks;
      Midway(a, st.Account(), Ids(calls, rest), Owed(tools, calls, inputs, rest),
        BatchMarks(tools, calls, inputs, i + 1))
  {
    var call, input := calls[i], inputs[i];
    slot := match Prepare(tools, call, input) case Immediate(result) => Some(Finalized(call, result, true))
      case Ready => None;
    assert slot.Some? ==> slot.value == Outcome(tools, call, input);
    hide Read, Count, Midway, Prepare, Outcome, BatchMarks, Ids, Owed, Due;
    ghost var open, owed, marks :=
      Ids(calls, tasks), Owed(tools, calls, inputs, tasks), BatchMarks(tools, calls, inputs, i);
    Starting(a, st.Account(), open, owed, marks, call);
    MarksBegin(tools, calls, inputs, i);
    st.ProcessEvent(ToolStart(call));
    if slot.Some? {
      ghost var end := multiset{EndOf(slot.value)};
      assert Midway(a, st.Account(), open + multiset{call.id}, owed + end, marks + (multiset{ToolStart(call)} + end));
      Ending(a, st.Account(), open, owed, marks + (multiset{ToolStart(call)} + end), EndOf(slot.value));
      st.ProcessEvent(EndOf(slot.value));
    } else {
      TasksGrow(tools, calls, inputs, tasks, Task(i, input.updates));
      ghost var due := Due(tools, calls, inputs, Task(i, input.updates));
      assert Midway(a, st.Account(), open + multiset{call.id}, owed + due, marks + (multiset{ToolStart(call)} + due));
    }
  }

  method Report(finals: seq<Finalized>, st: AgentState) returns (messages: seq<Message>)
    requires st.Valid()
    modifies st
    ensures messages == ResultMessages(finals)
    ensures st.Valid() && st.since == old(st.since)
    ensures Adds(old(st.Account()), st.Account(), messages, multiset{})
  {
    hide Read, Count, Adds;
    messages := [];
    var i := 0;
    NothingAdded(st.Account());
    while i < |finals|
      invariant 0 <= i <= |finals| && messages == ResultMessages(finals[..i])
      invariant st.Valid() && st.since == old(st.since)
      invariant Adds(old(st.Account()), st.Account(), messages, multiset{})
    {
      ghost var b := st.Account();
      EmitToolResultMessage(ResultMessage(finals[i]), st);
      AddsMore(old(st.Account()), b, st.Account(), messages, [ResultMessage(finals[i])], multiset{}, multiset{});
      messages := messages + [ResultMessage(finals[i])];
      assert finals[..i + 1] == finals[..i] + [finals[i]];
      ghost var none: multiset<Event> := multiset{};
      assert none + none == none;
      i := i + 1;
    }
    assert finals[..i] == finals;
  }
}
