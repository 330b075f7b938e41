/** The queues of runtimes/pi/packages/agent/src/agent.ts: messages wait in order, and are taken one at a
    time or all together. */
module PendingQueue {

  import opened AgentEvents

  datatype Mode = All | OneAtATime

  function Drained(mode: Mode, waiting: seq<Message>): seq<Message> {
    if mode.All? || waiting == [] then waiting else waiting[..1]
  }

  class PendingMessageQueue {
    var messages: seq<Message>
    var mode: Mode
    /** All that was ever enqueued, and all that was ever drained. */
    ghost var enqueued: seq<Message>
    ghost var drained: seq<Message>

    /** Nothing is lost, doubled or overtaken: what was drained, then what waits, is what was enqueued. */
    ghost predicate Valid()
      reads this
    {
      enqueued == drained + messages
    }

    constructor (mode: Mode)
      ensures Valid() && this.mode == mode && messages == [] && enqueued == []
    {
      this.mode, messages := mode, [];
      enqueued, drained := [], [];
    }

    method Enqueue(message: Message)
      requires Valid()
      modifies this`messages, this`enqueued
      ensures Valid() && messages == old(messages) + [message] && enqueued == old(enqueued) + [message]
    {
      messages := messages + [message];
      enqueued := enqueued + [message];
    }

    method Drain() returns (taken: seq<Message>)
      requires Valid()
      modifies this`messages, this`drained
      ensures Valid() && taken == Drained(mode, old(messages))
      ensures taken + messages == old(messages) && drained == old(drained) + taken
      ensures if mode.OneAtATime? then |taken| <= 1 else messages == []
      ensures taken == [] <==> old(messages) == []
    {
      if mode.All? {
        taken := messages;
        messages := [];
      } else if messages == [] {
        taken := [];
      } else {
        taken := [messages[0]];
        messages := messages[1..];
      }
      drained := drained + taken;
    }
  }
}
