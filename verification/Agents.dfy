/** `Agent` of runtimes/pi/packages/agent/src/agent.ts: one run at a time over its state and queues. */
module Agents {

  import opened AgentEvents
  import opened AgentLoop
  import opened Options
  import opened PendingQueue
  import opened ToolBatches

  datatype Answer = Started | Busy | NothingToContinue | CannotContinue

  class Agent {
    const state: AgentState
    const steeringQueue: PendingMessageQueue
    const followUpQueue: PendingMessageQueue
    const runner: ToolRunner
    var active: bool

    /** Between runs nothing is pending. */
    ghost predicate Valid()
      reads this, state, steeringQueue, followUpQueue
    {
      && Queues(LoopConfig(), false) && state.Valid()
      && (!active ==> state.pendingToolCalls == {} && state.streamingMessage.None?)
    }

    /** `createLoopConfig`. */
    function LoopConfig(): Config {
      Config(runner, steeringQueue, followUpQueue)
    }

    constructor (messages: seq<Message>, tools: seq<Tool>, steeringMode: Mode, followUpMode: Mode)
      ensures Valid() && !active && state.messages == messages && steeringQueue.messages == [] == followUpQueue.messages
      ensures runner.tools == tools && runner.executed == []
      ensures fresh(state) && fresh(steeringQueue) && fresh(followUpQueue) && fresh(runner)
    {
      state := new AgentState(messages);
      steeringQueue := new PendingMessageQueue(steeringMode);
      followUpQueue := new PendingMessageQueue(followUpMode);
      runner := new ToolRunner(tools);
      active := false;
    }

    /** A run for these prompts from what the agent has now. */
    ghost function Now(prompts: seq<Message>, script: seq<Turn>, tidy: bool, skips: bool): Brief
      reads state, steeringQueue, followUpQueue, runner
    {
      Brief(state.messages, prompts, runner.tools, script, tidy, steeringQueue.messages, followUpQueue.messages,
            runner.executed, skips)
    }

    /** Nothing from outside is an assistant's message. */
    ghost predicate Tidy(script: seq<Turn>)
      reads steeringQueue, followUpQueue
    {
      TidyScript(script) && NoAssistant(steeringQueue.messages) && NoAssistant(followUpQueue.messages)
    }

    twostate predicate Unchanged()
      reads this, state, steeringQueue, followUpQueue, runner
    {
      && active == old(active) && state.messages == old(state.messages) && state.trace == old(state.trace)
      && steeringQueue.messages == old(steeringQueue.messages) && followUpQueue.messages == old(followUpQueue.messages)
      && runner.executed == old(runner.executed)
    }

    /** The run `g` took place, and the transcript is what it was with what the run added. One whose script ends
        before it leaves the agent active. */
    ghost predicate Ran(g: Brief, h: History, pending: Option<Poll>)
      reads this, state, steeringQueue, followUpQueue, runner
    {
      Concluded(g, h, pending, !active, g.prompts + Transcript(h.logs), LoopConfig(), state)
    }

    /** `prompt`. */
    method Prompt(prompts: seq<Message>, script: seq<Turn>, ghost tidy: bool)
      returns (answer: Answer, ghost h: History, ghost pending: Option<Poll>)
      requires Valid() && WellFormed(script)
      requires tidy ==> CanAsk(state.messages + prompts) && Tidy(script)
      modifies this, state, steeringQueue, followUpQueue, runner
      ensures Valid() && answer == if old(active) then Busy else Started
      ensures answer.Busy? ==> Unchanged()
      ensures answer.Started? ==> Ran(old(Now(prompts, script, tidy, false)), h, pending)
    {
      hide Ran, CanAsk, NoAssistant, Read;
      if active { answer, h, pending := Busy, History([], []), None; return; }
      answer := Started;
      h, pending := RunPromptMessages(prompts, script, false, Now(prompts, script, tidy, false));
    }

    method RunPromptMessages(prompts: seq<Message>, script: seq<Turn>, skipFirstPoll: bool, ghost g: Brief)
      returns (ghost h: History, ghost pending: Option<Poll>)
      requires Valid() && !active && WellFormed(script) && g == Now(prompts, script, g.tidy, skipFirstPoll)
      requires g.tidy ==> CanAsk(state.messages + prompts) && Tidy(script)
      modifies this, state, steeringQueue, followUpQueue, runner
      ensures Valid() && Ran(g, h, pending)
    {
      hide Kept, Reason, Conserved, Extras, Transcript, Read, AgentLoop.Ready, CanAsk, NoAssistant, WellFormed,
        TidyScript;
      active := true;
      state.Begin();
      var added, ended;
      added, ended, h, pending := RunAgentLoop(prompts, state.messages, LoopConfig(), script, skipFirstPoll, state, g);
      if ended {
        state.Finish();
        active := false;
      }
    }

    /** The prompts for `continue`: what the steering queue gives, or else the follow-ups. */
    method TakePrompts(ghost tidy: bool) returns (prompts: seq<Message>, source: Source)
      requires Valid() && !active
      requires tidy ==> NoAssistant(steeringQueue.messages) && NoAssistant(followUpQueue.messages)
      modifies steeringQueue, followUpQueue
      ensures Valid() && (source.FollowUp? <==> old(steeringQueue.messages) == [])
      ensures prompts == if source.Steering? then Drained(old(steeringQueue.mode), old(steeringQueue.messages))
                         else Drained(old(followUpQueue.mode), old(followUpQueue.messages))
      ensures (if source.Steering? then prompts else []) + steeringQueue.messages == old(steeringQueue.messages)
      ensures (if source.FollowUp? then prompts else []) + followUpQueue.messages == old(followUpQueue.messages)
      ensures tidy ==>
        NoAssistant(prompts) && NoAssistant(steeringQueue.messages) && NoAssistant(followUpQueue.messages)
    {
      hide NoAssistant;
      var poll := PollQueue(steeringQueue, Steering, tidy);
      assert [] + steeringQueue.messages == steeringQueue.messages;
      assert [] + followUpQueue.messages == followUpQueue.messages;
      if poll.drained != [] { return poll.drained, Steering; }
      poll := PollQueue(followUpQueue, FollowUp, tidy);
      return poll.drained, FollowUp;
    }

    /** `continue`. After the assistant's message it takes the prompts from the queues, steering first; otherwise
        it goes on with the transcript as it is. What it took and what was left are what was queued. */
    method Continue(script: seq<Turn>, ghost tidy: bool)
      returns (answer: Answer, ghost g: Brief, ghost source: Source, ghost h: History, ghost pending: Option<Poll>)
      requires Valid() && WellFormed(script) && (tidy ==> Tidy(script))
      modifies this, state, steeringQueue, followUpQueue, runner
      ensures Valid()
      ensures answer ==
        if old(active) then Busy
        else if old(state.messages) == [] then NothingToContinue
        else if !CanAsk(old(state.messages)) && old(steeringQueue.messages) == [] && old(followUpQueue.messages) == []
        then CannotContinue
        else Started
      ensures !answer.Started? ==> Unchanged()
      ensures answer.Started? ==> Ran(g, h, pending)
      ensures answer.Started? ==>
        && g == old(Now([], script, tidy, !CanAsk(state.messages) && steeringQueue.messages != [])).(
                  prompts := g.prompts, steering := g.steering, followUps := g.followUps)
        && g.prompts == (if CanAsk(old(state.messages)) then []
                         else if source.Steering? then Drained(old(steeringQueue.mode), old(steeringQueue.messages))
                         else Drained(old(followUpQueue.mode), old(followUpQueue.messages)))
        && (source.FollowUp? <==> !CanAsk(old(state.messages)) && old(steeringQueue.messages) == [])
        && (if source.Steering? then g.prompts else []) + g.steering == old(steeringQueue.messages)
        && (if source.FollowUp? then g.prompts else []) + g.followUps == old(followUpQueue.messages)
    {
      hide Ran, Read, TidyScript, WellFormed, NoAssistant;
      answer, source, h, pending, g := Busy, Steering, History([], []), None, Now([], script, tidy, false);
      if active { return; }
      if state.messages == [] { answer := NothingToContinue; return; }
      assert [] + g.steering == g.steering && [] + g.followUps == g.followUps;
      if !state.messages[|state.messages| - 1].Assistant? {
        answer := Started;
        h, pending := RunContinuation(script, g);
        return;
      }
      var prompts, from := TakePrompts(tidy);
      source := from;
      if prompts == [] { answer := CannotContinue; return; }
      answer, g := Started, Now(prompts, script, tidy, from.Steering?);
      Asking(state.messages, prompts);
      h, pending := RunPromptMessages(prompts, script, from.Steering?, g);
    }

    method RunContinuation(script: seq<Turn>, ghost g: Brief) returns (ghost h: History, ghost pending: Option<Poll>)
      requires Valid() && !active && WellFormed(script) && CanAsk(state.messages) && g == Now([], script, g.tidy, false)
      requires g.tidy ==> Tidy(script)
      modifies this, state, steeringQueue, followUpQueue, runner
      ensures Valid() && Ran(g, h, pending)
    {
      hide Kept, Reason, Conserved, Extras, Transcript, Read, AgentLoop.Ready, NoAssistant, CanAsk, WellFormed,
        TidyScript;
      active := true;
      state.Begin();
      var refused, added, ended;
      refused, added, ended, h, pending := RunAgentLoopContinue(state.messages, LoopConfig(), script, state, g);
      if ended {
        state.Finish();
        active := false;
      }
    }
  }

  lemma Asking(messages: seq<Message>, prompts: seq<Message>)
    requires prompts != []
    ensures NoAssistant(prompts) ==> CanAsk(messages + prompts)
  {}
}
