/** One streaming request of services/voice/src/pi_voice/service.py: a producer thread, its queue, and the
    task that consumes it, with cancellation that may leave a blocked `get` behind. */
module VoiceStream {

  import opened Options

  /** The mono samples of a chunk, as the provider gave them. */
  type Samples(!new)

  /** A chunk of the provider; `wellFormed` stands for the checks on samples and rate that look at this
      chunk alone. */
  datatype Chunk = Chunk(samples: Samples, rate: int, wellFormed: bool)

  datatype Item = Audio(chunk: Chunk) | Done | Error | Closed

  /** The thread is about to look at the stop flag, in the provider's `next`, about to close the
      generator, or finished. */
  datatype Producer = Checking | InNext | Closing | Finished

  /** A blocked `get`: of the consumer, or left behind by a cancelled `receive`. */
  datatype Getter = Live | Orphan

  datatype Outcome = Normal | Failed | Cancelled

  /** `Waiting` for a slot; `First` and `Next` await an item; `Ready` is a returned stream whose generator
      has not started; `AtYield` is the generator suspended at a yield; `Draining` awaits items on the way
      out; `Over` has released the slot; `Dropped` is a generator closed before it started, whose
      `finally` never runs. */
  datatype Phase = Waiting | First | Ready(first: Chunk) | AtYield | Next | Draining(outcome: Outcome)
                 | Over(outcome: Outcome) | Dropped

  /** `put` is all that was ever put into the queue, of which `served` items were taken. `inbox` is an
      item handed to the consumer that has not run since. `exhausted` says that the provider's iterator
      ended by itself, `lost` counts the items no one looked at because their `receive` was cancelled. */
  datatype Stream = Stream(
    phase: Phase,
    producer: Producer,
    stop: bool,
    exhausted: bool,
    put: seq<Item>,
    served: nat,
    getters: seq<Getter>,
    inbox: Option<Item>,
    rate: int,
    yielded: seq<Samples>,
    slot: bool,
    releases: nat,
    lost: nat)

  datatype Given = Gives(chunk: Chunk) | Stops | Raises

  datatype Action =
    | Acquire
    | Check
    | Produce(given: Given)
    | CloseGenerator
    | Serve(k: nat)
    | Resume
    | StartGenerator
    | DropGenerator
    | Pull
    | Cancel

  const IDLE := Stream(Waiting, Checking, false, false, [], 0, [], None, 0, [], false, 0, 0)

  predicate Awaits(s: Stream) {
    s.phase.First? || s.phase.Next? || s.phase.Draining?
  }

  predicate Enabled(s: Stream, a: Action) {
    match a
    case Acquire => s.phase.Waiting?
    case Check => s.slot && s.producer.Checking?
    case Produce(_) => s.producer.InNext?
    case CloseGenerator => s.producer.Closing?
    case Serve(k) => k < |s.getters| && s.served < |s.put|
    case Resume => Awaits(s) && s.inbox.Some?
    case StartGenerator => s.phase.Ready?
    case DropGenerator => s.phase.Ready?
    case Pull => s.phase.AtYield?
    case Cancel => s.phase.Waiting? || s.phase.First? || s.phase.Next? || s.phase.AtYield?
  }

  function Put(s: Stream, item: Item): Stream {
    s.(put := s.put + [item])
  }

  /** `receive`: a `get` on a worker thread. */
  function Receive(s: Stream): Stream {
    s.(getters := s.getters + [Live])
  }

  /** The `except` and `finally` blocks: stop the producer, then drain. */
  function Leave(s: Stream, outcome: Outcome): Stream {
    Receive(s.(stop := true, phase := Draining(outcome)))
  }

  function Remove(getters: seq<Getter>, k: nat): seq<Getter>
    requires k < |getters|
  {
    getters[..k] + getters[k + 1..]
  }

  predicate Accepts(s: Stream, chunk: Chunk) {
    chunk.wellFormed && (s.phase.Next? ==> chunk.rate == s.rate)
  }

  function Step(s: Stream, a: Action): Stream
    requires Enabled(s, a)
  {
    match a
    case Acquire => Receive(s.(phase := First, slot := true))
    case Check => if s.stop then Put(s, Done).(producer := Closing) else s.(producer := InNext)
    case Produce(given) =>
      (match given
       case Gives(chunk) => Put(s, Audio(chunk)).(producer := Checking)
       case Stops => Put(s, Done).(producer := Closing, exhausted := true)
       case Raises => Put(s, Error).(producer := Closing))
    case CloseGenerator => Put(s, Closed).(producer := Finished)
    case Serve(k) =>
      var s1 := s.(served := s.served + 1, getters := Remove(s.getters, k));
      if s.getters[k].Live? then s1.(inbox := Some(s.put[s.served])) else s1.(lost := s.lost + 1)
    case Resume =>
      var item, s1 := s.inbox.value, s.(inbox := None);
      (match s.phase
       case Draining(outcome) =>
         if item.Closed? then s1.(phase := Over(outcome), slot := false, releases := s.releases + 1) else Receive(s1)
       case _ =>
         match item
         case Audio(chunk) =>
           if !Accepts(s, chunk) then Leave(s1, Failed)
           else if s.phase.First? then s1.(phase := Ready(chunk), rate := chunk.rate)
           else s1.(phase := AtYield, yielded := s.yielded + [chunk.samples])
         case Error => Leave(s1, Failed)
         case _ => Leave(s1, if s.phase.First? then Failed else Normal))
    case StartGenerator => s.(phase := AtYield, yielded := [s.phase.first.samples])
    case DropGenerator => s.(phase := Dropped)
    case Pull => Receive(s.(phase := Next))
    case Cancel =>
      if s.phase.Waiting? then s.(phase := Over(Cancelled))
      else
        // A `get` that is still blocked stays behind; an item already handed over is lost.
        var left := if |s.getters| > 0 then [Orphan] else [];
        Leave(s.(getters := left, inbox := None, lost := if s.inbox.Some? then s.lost + 1 else s.lost), Cancelled)
  }

  // ---------- Runs ----------

  /** Waiting getters are served in the order in which they called `get`. */
  predicate InOrder(a: Action) {
    a.Serve? ==> a.k == 0
  }

  ghost predicate IsRun(s: Stream, actions: seq<Action>)
    decreases |actions|
  {
    actions != [] ==> Enabled(s, actions[0]) && InOrder(actions[0]) && IsRun(Step(s, actions[0]), actions[1..])
  }

  ghost function After(s: Stream, actions: seq<Action>): Stream
    requires IsRun(s, actions)
    decreases |actions|
  {
    if actions == [] then s else After(Step(s, actions[0]), actions[1..])
  }

  ghost predicate AllAudio(items: seq<Item>) {
    forall i :: 0 <= i < |items| ==> items[i].Audio?
  }

  /** The queue carries chunks, then one `done` or `error`, then `closed`. */
  ghost predicate WellPut(s: Stream) {
    var n := match s.producer case Checking => |s.put| case InNext => |s.put| case Closing => |s.put| - 1
      case Finished => |s.put| - 2;
    && n >= 0 && AllAudio(s.put[..n])
    && (s.producer.Closing? || s.producer.Finished? ==> s.put[n].Done? || s.put[n].Error?)
    && (s.producer.Finished? ==> s.put[n + 1].Closed?)
    && (s.exhausted ==> s.producer.Closing? || s.producer.Finished?)
    && (forall i :: 0 <= i < |s.put| && s.put[i].Done? ==> s.exhausted || s.stop)
  }

  /** What has been yielded are the first chunks of the provider, all of the rate announced. */
  ghost predicate Prefix(s: Stream) {
    && |s.yielded| <= s.served <= |s.put|
    && forall i :: 0 <= i < |s.yielded| ==>
         s.put[i].Audio? && s.put[i].chunk.samples == s.yielded[i] && s.put[i].chunk.wellFormed
           && s.put[i].chunk.rate == s.rate
  }

  ghost predicate Balanced(s: Stream) {
    && (s.slot <==> !s.phase.Waiting? && !s.phase.Over?)
    && s.releases <= 1 && (s.slot ==> s.releases == 0)
    && (s.phase.Over? && s.releases == 0 ==> s == IDLE.(phase := Over(Cancelled)))
    && (s.releases == 1 ==> s.producer.Finished? && s.served == |s.put|)
    && (s.phase.Waiting? ==> s == IDLE)
    && s.lost <= 1
    && (Orphan in s.getters || s.phase.First? || s.phase.Ready? || s.phase.Next? || s.phase.AtYield? ==> s.lost == 0)
    && (s.stop <==> s.phase.Draining? || (s.phase.Over? && s.releases == 1))
  }

  /** The consumer's place in the queue; while a `get` left behind is still blocked, only chunks have been
      taken, and `closed` is only ever handed to the consumer. */
  ghost predicate Placed(s: Stream) {
    s.served <= |s.put| &&
    match s.phase
    case First => s.yielded == [] && Holding(s, 0)
    case Next => Holding(s, |s.yielded|)
    case Ready(first) =>
      && s.yielded == [] && s.getters == [] && s.inbox.None? && s.served == 1
      && s.put[0] == Audio(first) && first.wellFormed && first.rate == s.rate
    case AtYield => s.getters == [] && s.inbox.None? && s.served == |s.yielded|
    case Draining(_) =>
      && (if s.inbox.Some? then s.getters == [] && s.served > 0 && s.inbox.value == s.put[s.served - 1]
          else s.getters == [Live] || (s.getters == [Orphan, Live] && AllAudio(s.put[..s.served])))
      && (forall i :: 0 <= i < s.served && s.put[i].Closed? ==> i == s.served - 1 && s.inbox == Some(Closed))
    case _ => s.getters == [] && s.inbox.None?
  }

  /** Before the item awaited, exactly the first `n` items were taken; the `get` for it is blocked, or it
      has been handed over. */
  ghost predicate Holding(s: Stream, n: nat) {
    if s.inbox.Some? then s.getters == [] && s.served == n + 1 <= |s.put| && s.inbox.value == s.put[n]
    else s.getters == [Live] && s.served == n
  }

  /** A stream that ended normally has yielded all there was. */
  ghost predicate Completed(s: Stream) {
    (s.phase.Draining? || s.phase.Over?) && s.phase.outcome.Normal? ==>
      s.exhausted && |s.yielded| < |s.put| && s.put[|s.yielded|].Done?
  }

  ghost predicate Good(s: Stream) {
    WellPut(s) && Prefix(s) && Balanced(s) && Placed(s) && Completed(s)
  }

  /** `closed` is the last item, right after the one that ended the chunks. */
  lemma ClosedIsLast(s: Stream, i: nat)
    requires WellPut(s) && i < |s.put| && !s.put[i].Audio?
    ensures s.put[i].Closed? ==> i == |s.put| - 1 && s.producer.Finished? && i > 0 && !s.put[i - 1].Audio?
    ensures AllAudio(s.put[..i]) <==> !s.put[i].Closed?
  {}

  predicate OfProducer(a: Action) {
    a.Check? || a.Produce? || a.CloseGenerator?
  }

  /** A step of the producer leaves the consumer's side alone and appends at most one item. */
  lemma ProducerAppends(s: Stream, a: Action)
    requires WellPut(s) && Enabled(s, a) && OfProducer(a)
    ensures var s' := Step(s, a);
      && s' == s.(producer := s'.producer, put := s'.put, exhausted := s'.exhausted)
      && |s.put| <= |s'.put| <= |s.put| + 1 && s'.put[..|s.put|] == s.put
      && (s.exhausted ==> s'.exhausted)
    ensures WellPut(Step(s, a))
  {
    var s' := Step(s, a);
    var n := match s'.producer
      case Checking => |s'.put| case InNext => |s'.put| case Closing => |s'.put| - 1 case Finished => |s'.put| - 2;
    assert forall i :: 0 <= i < n ==> i < |s.put| ==> s'.put[i] == s.put[i];
    assert forall i :: 0 <= i < n && i < |s.put| ==>
      s.put[..(if s.producer.Closing? then |s.put| - 1 else |s.put|)][i] == s.put[i];
  }

  /** The queue reads the same while the consumer moves. */
  lemma SamePut(s: Stream, s': Stream)
    requires WellPut(s) && s'.put == s.put && s'.producer == s.producer && s'.exhausted == s.exhausted
    requires s.stop ==> s'.stop
    ensures WellPut(s')
  {}

  lemma SamePrefix(s: Stream, s': Stream)
    requires Prefix(s) && s'.put == s.put && s'.yielded == s.yielded && s'.rate == s.rate
    requires s.served <= s'.served <= |s'.put|
    ensures Prefix(s')
  {}

  lemma AppendKeepsPlaced(s: Stream, s': Stream)
    requires s' == s.(producer := s'.producer, put := s'.put, exhausted := s'.exhausted)
    requires |s.put| <= |s'.put| && s'.put[..|s.put|] == s.put
    requires Placed(s)
    ensures Placed(s')
  {}

  lemma AppendKeepsPrefix(s: Stream, s': Stream)
    requires s' == s.(producer := s'.producer, put := s'.put, exhausted := s'.exhausted)
    requires |s.put| <= |s'.put| && s'.put[..|s.put|] == s.put && (s.exhausted ==> s'.exhausted)
    requires Prefix(s) && Completed(s)
    ensures Prefix(s') && Completed(s')
  {}

  lemma ProducerIsGood(s: Stream, a: Action)
    requires Good(s) && Enabled(s, a) && OfProducer(a)
    ensures Good(Step(s, a))
  {
    var s' := Step(s, a);
    assert Balanced(s');
    ProducerAppends(s, a);
    hide WellPut, Prefix, Balanced, Placed, Completed, Step;
    AppendKeepsPlaced(s, s');
    AppendKeepsPrefix(s, s');
  }

  /** Taking the next item: the getter left behind is served first, and what it swallows is not `closed`. */
  lemma ServeIsGood(s: Stream)
    requires Good(s) && Enabled(s, Serve(0))
    ensures Good(Step(s, Serve(0)))
  {
    hide WellPut, Prefix, Balanced, Placed, Completed, Step;
    ServeKeepsPlaced(s);
    ServeKeepsRest(s);
  }

  /** What serving the first getter does. */
  lemma Served(s: Stream)
    requires Placed(s) && Enabled(s, Serve(0))
    ensures s.getters == [Live] || s.getters == [Orphan, Live]
    ensures s.getters == [Live] ==>
      Step(s, Serve(0)) == s.(served := s.served + 1, getters := [], inbox := Some(s.put[s.served]))
    ensures s.getters == [Orphan, Live] ==>
      Step(s, Serve(0)) == s.(served := s.served + 1, getters := [Live], lost := s.lost + 1)
  {
    assert Remove([Live], 0) == [] && Remove([Orphan, Live], 0) == [Live];
  }

  lemma ServeKeepsRest(s: Stream)
    requires WellPut(s) && Prefix(s) && Balanced(s) && Placed(s) && Completed(s) && Enabled(s, Serve(0))
    ensures var s' := Step(s, Serve(0)); WellPut(s') && Prefix(s') && Balanced(s') && Completed(s')
  {
    Served(s);
    hide Step, Placed;
    var s' := Step(s, Serve(0));
    SamePut(s, s');
    SamePrefix(s, s');
    hide WellPut, Prefix;
  }

  lemma ServeKeepsPlaced(s: Stream)
    requires WellPut(s) && Prefix(s) && Placed(s) && Enabled(s, Serve(0))
    ensures Placed(Step(s, Serve(0)))
  {
    Served(s);
    if s.phase.Draining? && s.getters == [Orphan, Live] { OrphanTakesNoClosed(s); }
    hide WellPut, Step;
  }

  /** The getter left behind is served before anything but chunks was taken, so it does not get `closed`. */
  lemma OrphanTakesNoClosed(s: Stream)
    requires WellPut(s) && s.served < |s.put| && AllAudio(s.put[..s.served])
    ensures !s.put[s.served].Closed?
    ensures forall i :: 0 <= i < s.served ==> s.put[i].Audio?
  {}

  /** Leaving the generator or the first wait: the drain begins with the queue as it is. */
  lemma LeaveIsPlaced(s: Stream, outcome: Outcome)
    requires s.served <= |s.put| && s.inbox.None?
    requires s.getters == [] || (s.getters == [Orphan] && AllAudio(s.put[..s.served]))
    requires forall i :: 0 <= i < s.served ==> !s.put[i].Closed?
    ensures Placed(Leave(s, outcome))
  {
  }

  lemma NothingClosedYet(s: Stream)
    requires WellPut(s) && Prefix(s) && Placed(s) && (s.phase.First? || s.phase.Next? || s.phase.AtYield?)
    ensures AllAudio(s.put[..|s.yielded|])
    ensures forall i :: 0 <= i < s.served ==> !s.put[i].Closed?
  {}

  lemma CancelKeepsRest(s: Stream)
    requires Good(s) && Enabled(s, Cancel)
    ensures var s' := Step(s, Cancel); WellPut(s') && Prefix(s') && Balanced(s') && Completed(s')
  {
    var s' := Step(s, Cancel);
    SamePut(s, s');
    SamePrefix(s, s');
    assert s.inbox.Some? ==> s.getters == [];
    assert |s.getters| <= 1;
    hide WellPut, Prefix, Placed;
  }

  lemma CancelIsGood(s: Stream)
    requires Good(s) && Enabled(s, Cancel)
    ensures Good(Step(s, Cancel))
  {
    CancelKeepsRest(s);
    if !s.phase.Waiting? {
      NothingClosedYet(s);
      LeaveIsPlaced(s.(getters := if |s.getters| > 0 then [Orphan] else [], inbox := None), Cancelled);
    }
    hide WellPut, Prefix, Balanced, Completed;
  }

  lemma ResumeKeepsPut(s: Stream)
    requires WellPut(s) && Balanced(s) && Enabled(s, Resume)
    ensures WellPut(Step(s, Resume))
  {
    hide Balanced, WellPut;
    SamePut(s, Step(s, Resume));
  }

  lemma ResumeKeepsBalance(s: Stream)
    requires WellPut(s) && Balanced(s) && Placed(s) && Enabled(s, Resume)
    ensures Balanced(Step(s, Resume))
  {
    if s.inbox.value.Closed? { ClosedIsLast(s, s.served - 1); }
    hide WellPut;
  }

  /** The next chunk is the next thing yielded, or announced. */
  lemma ResumeKeepsPrefix(s: Stream)
    requires WellPut(s) && Prefix(s) && Balanced(s) && Placed(s) && Completed(s) && Enabled(s, Resume)
    ensures Prefix(Step(s, Resume)) && Completed(Step(s, Resume))
  {
    var s' := Step(s, Resume);
    if s.phase.Draining? {
      SamePrefix(s, s');
      hide WellPut, Prefix, Balanced, Placed;
    } else {
      assert s.inbox.value == s.put[|s.yielded|] && s.served == |s.yielded| + 1;
      ItemKeepsPrefix(s);
      EndsNormally(s);
      if s.inbox.value.Closed? { ClosedIsLast(s, |s.yielded|); }
      hide Balanced, Placed, Prefix, AllAudio;
    }
  }

  lemma ItemKeepsPrefix(s: Stream)
    requires Prefix(s) && Enabled(s, Resume) && !s.phase.Draining? && s.served == |s.yielded| + 1
    requires s.inbox.value == s.put[|s.yielded|] && (s.phase.First? ==> s.yielded == [])
    ensures Prefix(Step(s, Resume))
  {
    var s' := Step(s, Resume);
    if s'.yielded == s.yielded && s.phase.Next? { SamePrefix(s, s'); }
  }

  /** The stop flag is not set before the way out, so a `done` says that the provider is exhausted. */
  lemma EndsNormally(s: Stream)
    requires WellPut(s) && Balanced(s) && (s.phase.First? || s.phase.Next?)
    ensures forall i :: 0 <= i < |s.put| && s.put[i].Done? ==> s.exhausted
  {}

  lemma ResumeKeepsPlaced(s: Stream)
    requires WellPut(s) && Prefix(s) && Placed(s) && Enabled(s, Resume)
    ensures Placed(Step(s, Resume))
  {
    if s.phase.First? || s.phase.Next? {
      NothingClosedYet(s);
      forall outcome ensures Placed(Leave(s.(inbox := None), outcome)) { LeaveIsPlaced(s.(inbox := None), outcome); }
    }
  }

  lemma ResumeIsGood(s: Stream)
    requires Good(s) && Enabled(s, Resume)
    ensures Good(Step(s, Resume))
  {
    hide WellPut, Prefix, Balanced, Placed, Completed, Step;
    ResumeKeepsPut(s);
    ResumeKeepsBalance(s);
    ResumeKeepsPrefix(s);
    ResumeKeepsPlaced(s);
  }

  lemma GoodStep(s: Stream, a: Action)
    requires Good(s) && Enabled(s, a) && InOrder(a)
    ensures Good(Step(s, a))
  {
    match a {
      case Check => ProducerIsGood(s, a);
      case Produce(_) => ProducerIsGood(s, a);
      case CloseGenerator => ProducerIsGood(s, a);
      case Serve(_) => ServeIsGood(s);
      case Resume => ResumeIsGood(s);
      case Cancel => CancelIsGood(s);
      case _ =>
    }
  }

  lemma {:induction false} GoodRun(s: Stream, actions: seq<Action>)
    requires Good(s) && IsRun(s, actions)
    ensures Good(After(s, actions))
    decreases |actions|
  {
    if actions != [] {
      GoodStep(s, actions[0]);
      GoodRun(Step(s, actions[0]), actions[1..]);
    }
  }

  // ---------- What every run keeps ----------

  datatype Reading = Chunks | Ended | Shut | Broken

  /** Reads a queue from its start: chunks, one `done` or `error`, then `closed`. */
  function Read(items: seq<Item>): Reading {
    if items == [] then Chunks
    else
      var last := items[|items| - 1];
      match Read(items[..|items| - 1])
      case Chunks => if last.Audio? then Chunks else if last.Closed? then Broken else Ended
      case Ended => if last.Closed? then Shut else Broken
      case _ => Broken
  }

  lemma {:induction false} AudioReadsAsChunks(items: seq<Item>)
    requires AllAudio(items)
    ensures Read(items) == Chunks
  {
    if items != [] {
      assert AllAudio(items[..|items| - 1]) by {
        assert forall i :: 0 <= i < |items| - 1 ==> items[..|items| - 1][i] == items[i];
      }
      AudioReadsAsChunks(items[..|items| - 1]);
    }
  }

  /** The queue never leaves the form chunk* (done|error) closed, and it is complete exactly when the
      thread has ended. */
  lemma QueueIsWellFormed(actions: seq<Action>)
    requires IsRun(IDLE, actions)
    ensures var s := After(IDLE, actions);
      Read(s.put) == match s.producer case Checking => Chunks case InNext => Chunks case Closing => Ended
        case Finished => Shut
  {
    GoodRun(IDLE, actions);
    var s := After(IDLE, actions);
    var n := |s.put|;
    match s.producer {
      case Closing =>
        AudioReadsAsChunks(s.put[..n - 1]);
      case Finished =>
        AudioReadsAsChunks(s.put[..n - 2]);
        assert s.put[..n - 1][..n - 2] == s.put[..n - 2];
      case _ =>
        assert s.put[..n] == s.put;
        AudioReadsAsChunks(s.put);
    }
  }

  /** The bytes yielded are those of the first chunks of the provider, in order and all at the announced
      rate; a stream that ended normally has yielded every chunk of an exhausted provider. */
  lemma YieldsInOrder(actions: seq<Action>)
    requires IsRun(IDLE, actions)
    ensures var s := After(IDLE, actions);
      && |s.yielded| <= |s.put|
      && (forall i :: 0 <= i < |s.yielded| ==>
            s.put[i].Audio? && s.put[i].chunk.samples == s.yielded[i] && s.put[i].chunk.rate == s.rate)
      && (s.phase == Over(Normal) ==>
            && s.exhausted && s.producer.Finished?
            && |s.put| == |s.yielded| + 2 && s.put[|s.yielded|].Done?)
  {
    GoodRun(IDLE, actions);
    var s := After(IDLE, actions);
    if s.phase == Over(Normal) {
      assert forall i :: 0 <= i < |s.put| - 2 ==> s.put[..|s.put| - 2][i] == s.put[i];
    }
  }

  /** A cancelled `receive` swallows at most one item of the stream, and never `closed`: until the drain
      has seen it, `closed` is still to be put, waiting in the queue, or in the consumer's hand. */
  lemma ClosedIsNeverSwallowed(actions: seq<Action>)
    requires IsRun(IDLE, actions)
    ensures var s := After(IDLE, actions);
      && s.lost <= 1
      && (s.phase.Draining? && s.producer.Finished? ==>
            && |s.put| > 0 && s.put[|s.put| - 1].Closed?
            && (s.served < |s.put| || s.inbox == Some(Closed)))
  {
    GoodRun(IDLE, actions);
  }

  /** The service's own actions; the others are taken by its callers. */
  predicate OfService(a: Action) {
    OfProducer(a) || a.Serve? || a.Resume?
  }

  /** The service can do nothing by itself. */
  ghost predicate Stuck(s: Stream) {
    forall a: Action | OfService(a) && InOrder(a) :: !Enabled(s, a)
  }

  /** While the consumer waits for an item the service is never stuck. */
  lemma WaitingMoves(s: Stream)
    requires Good(s) && Awaits(s)
    ensures exists a :: OfService(a) && InOrder(a) && Enabled(s, a)
  {
    var a := if s.inbox.Some? then Resume
      else if s.served < |s.put| then Serve(0)
      else match s.producer
        case Checking => Check
        case InNext => Produce(Stops)
        case _ => CloseGenerator;
    if s.inbox.None? && s.served == |s.put| && s.producer.Finished? { UnservedIsLeft(s); }
    assert OfService(a) && InOrder(a) && Enabled(s, a);
  }

  /** A consumer that waits has not been handed `closed`, so there is more in the queue of a finished thread. */
  lemma UnservedIsLeft(s: Stream)
    requires Good(s) && Awaits(s) && s.inbox.None? && s.producer.Finished?
    ensures s.served < |s.put|
  {
    assert s.put[|s.put| - 1].Closed?;
    if s.phase.First? || s.phase.Next? { NothingClosedYet(s); }
  }

  /** No wait lasts for ever for want of the service: on every run, where only callers could act, no consumer is
      waiting for an item. */
  lemma NothingHangs(actions: seq<Action>)
    requires IsRun(IDLE, actions)
    requires Stuck(After(IDLE, actions))
    ensures !Awaits(After(IDLE, actions))
  {
    GoodRun(IDLE, actions);
    var s := After(IDLE, actions);
    if Awaits(s) { WaitingMoves(s); }
  }

  /** What the drain has still to do: the producer's steps, then two per item in the queue, one per item
      in hand. */
  function Work(s: Stream): nat
    requires s.served <= |s.put|
  {
    var steps := match s.producer case Checking => 2 case InNext => 3 case Closing => 1 case Finished => 0;
    4 * steps + 2 * (|s.put| - s.served) + (if s.inbox.Some? then 1 else 0)
  }

  lemma DrainingWorks(s: Stream, a: Action)
    requires Good(s) && s.phase.Draining? && Enabled(s, a) && InOrder(a)
    ensures var s' := Step(s, a);
      && s'.served <= |s'.put| && Work(s') < Work(s)
      && (s'.phase == s.phase || s'.phase == Over(s.phase.outcome))
  {
    assert s.stop;
    assert s.inbox.Some? ==> s.getters == [];
    hide WellPut, Prefix, Completed, Balanced, Placed;
    assert a.Check? || a.Produce? || a.CloseGenerator? || a.Serve? || a.Resume?;
  }

  /** Once the way out has begun no run is longer than `Work`, and one that stops short of nothing ends
      with the thread finished and the slot released once. */
  lemma {:induction false} DrainEnds(s: Stream, actions: seq<Action>)
    requires Good(s) && s.phase.Draining? && IsRun(s, actions)
    ensures |actions| <= Work(s)
    ensures Stuck(After(s, actions)) ==>
      var s' := After(s, actions);
      && s'.phase == Over(s.phase.outcome) && s'.producer.Finished? && !s'.slot && s'.releases == 1
    decreases |actions|
  {
    if actions == [] {
      WaitingMoves(s);
    } else {
      var s' := Step(s, actions[0]);
      DrainingWorks(s, actions[0]);
      GoodStep(s, actions[0]);
      if s'.phase.Draining? {
        DrainEnds(s', actions[1..]);
      } else {
        OverIsOver(s', actions[1..]);
      }
    }
  }

  lemma OverIsOver(s: Stream, actions: seq<Action>)
    requires Good(s) && s.phase.Over? && s.releases == 1 && IsRun(s, actions)
    ensures actions == []
  {
  }

  lemma {:induction false} AcquiredIsReleased(s: Stream, actions: seq<Action>)
    requires Good(s) && (s.slot || s.releases == 1) && IsRun(s, actions)
    ensures After(s, actions).slot || After(s, actions).releases == 1
    decreases |actions|
  {
    if actions != [] {
      GoodStep(s, actions[0]);
      AcquiredIsReleased(Step(s, actions[0]), actions[1..]);
    }
  }

  /** A request holds its slot from the moment it gets one until it is over; one that is over has given it back
      exactly once if it ever got one, and only after the thread has ended. */
  lemma SlotIsReturnedOnce(actions: seq<Action>)
    requires IsRun(IDLE, actions)
    ensures var s := After(IDLE, actions);
      && s.slot == !(s.phase.Waiting? || s.phase.Over?)
      && (s.slot ==> s.releases == 0 && Acquire in actions)
      && (s.phase.Over? ==> s.releases == if Acquire in actions then 1 else 0)
      && (s.releases == 1 ==> s.producer.Finished?)
  {
    GoodRun(IDLE, actions);
    if actions != [] {
      var s1 := Step(IDLE, actions[0]);
      if actions[0].Acquire? {
        GoodStep(IDLE, Acquire);
        AcquiredIsReleased(s1, actions[1..]);
      } else {
        assert s1 == IDLE.(phase := Over(Cancelled));
        assert actions[1..] == [] && actions == [Cancel];
      }
    }
  }

  lemma {:induction false} DroppedKeepsItsSlot(s: Stream, actions: seq<Action>)
    requires Good(s) && s.phase.Dropped? && IsRun(s, actions)
    ensures After(s, actions).phase.Dropped? && After(s, actions).slot && After(s, actions).releases == 0
    decreases |actions|
  {
    if actions != [] {
      GoodStep(s, actions[0]);
      DroppedKeepsItsSlot(Step(s, actions[0]), actions[1..]);
    }
  }

  // ---------- Without the order of the getters ----------

  ghost predicate IsAnyRun(s: Stream, actions: seq<Action>)
    decreases |actions|
  {
    actions != [] ==> Enabled(s, actions[0]) && IsAnyRun(Step(s, actions[0]), actions[1..])
  }

  ghost function AfterAny(s: Stream, actions: seq<Action>): Stream
    requires IsAnyRun(s, actions)
    decreases |actions|
  {
    if actions == [] then s else AfterAny(Step(s, actions[0]), actions[1..])
  }

  /** The drain waits for ever, with the slot held. */
  ghost predicate Hung(s: Stream) {
    s.phase.Draining? && s.slot && forall a :: !Enabled(s, a)
  }

  ghost predicate CanHang(s: Stream) {
    exists actions :: IsAnyRun(s, actions) && Hung(AfterAny(s, actions))
  }

  lemma HangsNext(s: Stream, a: Action)
    requires Enabled(s, a) && CanHang(Step(s, a))
    ensures CanHang(s)
  {
    var rest :| IsAnyRun(Step(s, a), rest) && Hung(AfterAny(Step(s, a), rest));
    var actions := [a] + rest;
    assert actions[0] == a && actions[1..] == rest;
    assert IsAnyRun(s, actions) && AfterAny(s, actions) == AfterAny(Step(s, a), rest);
  }

  /** A drain with a `get` left behind, on a queue that holds all there will be. */
  ghost predicate LeftBehind(s: Stream) {
    && s.phase.Draining? && s.slot && s.producer.Finished? && s.inbox.None? && s.getters == [Orphan, Live]
    && s.served < |s.put| && forall i :: s.served <= i < |s.put| ==> (s.put[i].Closed? <==> i == |s.put| - 1)
  }

  /** The one left behind takes `closed`. */
  lemma TakesClosed(s: Stream)
    requires LeftBehind(s) && s.served == |s.put| - 1
    ensures CanHang(s)
  {
    assert Remove([Orphan, Live], 0) == [Live];
    var s1 := Step(s, Serve(0));
    assert Hung(s1) && IsAnyRun(s1, []) && AfterAny(s1, []) == s1;
    hide Step, Hung;
    HangsNext(s, Serve(0));
  }

  /** The consumer's `get` overtakes it, and waits again. */
  lemma Overtakes(s: Stream)
    requires LeftBehind(s) && s.served < |s.put| - 1
    ensures Enabled(s, Serve(1)) && Enabled(Step(s, Serve(1)), Resume)
    ensures var s2 := Step(Step(s, Serve(1)), Resume);
      LeftBehind(s2) && s2.put == s.put && s2.served == s.served + 1
  {
    assert Remove([Orphan, Live], 1) == [Orphan] && [Orphan] + [Live] == [Orphan, Live];
    var s1 := Step(s, Serve(1));
    assert s1 == s.(served := s.served + 1, getters := [Orphan], inbox := Some(s.put[s.served]));
    var s2 := Step(s1, Resume);
    assert s2 == s1.(inbox := None, getters := [Orphan, Live]);
    hide Step;
  }

  lemma {:induction false} LeftBehindHangs(s: Stream)
    requires LeftBehind(s)
    ensures CanHang(s)
    decreases |s.put| - s.served
  {
    if s.served == |s.put| - 1 {
      TakesClosed(s);
    } else {
      Overtakes(s);
      hide CanHang, Step, Enabled;
      LeftBehindHangs(Step(Step(s, Serve(1)), Resume));
      HangsNext(Step(s, Serve(1)), Resume);
      HangsNext(s, Serve(1));
    }
  }

  lemma FinishedIsLeftBehind(s: Stream)
    requires Good(s) && s.phase.Draining? && s.getters == [Orphan, Live] && s.producer.Finished?
    ensures LeftBehind(s)
  {
    UnservedIsLeft(s);
    forall i | s.served <= i < |s.put| ensures s.put[i].Closed? <==> i == |s.put| - 1 {
      if !s.put[i].Audio? { ClosedIsLast(s, i); }
    }
  }

  /** If a later `get` could overtake the one left behind by a cancelled `receive`, every drain that has one
      could wait for ever: that one takes `closed`. */
  lemma OvertakingHangs(s: Stream)
    requires Good(s) && s.phase.Draining? && s.getters == [Orphan, Live]
    ensures CanHang(s)
    decreases match s.producer case Checking => 2 case InNext => 2 case Closing => 1 case Finished => 0
  {
    if s.producer.Finished? {
      FinishedIsLeftBehind(s);
      LeftBehindHangs(s);
    } else {
      var a := match s.producer case Checking => Check case InNext => Produce(Stops) case _ => CloseGenerator;
      GoodStep(s, a);
      assert Step(s, a).getters == s.getters && Step(s, a).phase == s.phase;
      OvertakingHangs(Step(s, a));
      HangsNext(s, a);
    }
  }

  // ---------- Such states are reached ----------

  ghost predicate Reaches(s: Stream) {
    exists actions :: IsRun(IDLE, actions) && After(IDLE, actions) == s
  }

  lemma {:induction false} RunExtends(s: Stream, actions: seq<Action>, a: Action)
    requires IsRun(s, actions) && Enabled(After(s, actions), a) && InOrder(a)
    ensures IsRun(s, actions + [a]) && After(s, actions + [a]) == Step(After(s, actions), a)
    decreases |actions|
  {
    if actions == [] {
      assert ([a])[1..] == [] && actions + [a] == [a];
    } else {
      assert (actions + [a])[1..] == actions[1..] + [a];
      RunExtends(Step(s, actions[0]), actions[1..], a);
    }
  }

  lemma ReachesNext(s: Stream, a: Action)
    requires Reaches(s) && Enabled(s, a) && InOrder(a)
    ensures Reaches(Step(s, a))
  {
    var actions :| IsRun(IDLE, actions) && After(IDLE, actions) == s;
    RunExtends(IDLE, actions, a);
  }

  const FIRST := Stream(First, InNext, false, false, [], 0, [Live], None, 0, [], true, 0, 0)

  lemma FirstIsReached()
    ensures Reaches(FIRST)
  {
    assert IsRun(IDLE, []) && After(IDLE, []) == IDLE;
    hide Reaches;
    ReachesNext(IDLE, Acquire);
    ReachesNext(Step(IDLE, Acquire), Check);
    assert Step(Step(IDLE, Acquire), Check) == FIRST;
  }

  /** A request cancelled while it waits for its first chunk leaves a `get` behind. */
  lemma LeftBehindIsReached()
    ensures exists s :: Reaches(s) && s.phase.Draining? && s.getters == [Orphan, Live]
  {
    FirstIsReached();
    hide Reaches;
    ReachesNext(FIRST, Cancel);
    var s := Step(FIRST, Cancel);
    assert s.phase.Draining? && s.getters == [Orphan, Live];
  }

  /** A stream returned with its first chunk may be closed before it is read. */
  lemma DroppedIsReached(samples: Samples, rate: int)
    ensures exists s :: Reaches(s) && s.phase.Dropped?
  {
    var chunk := Chunk(samples, rate, true);
    FirstIsReached();
    hide Reaches;
    ReachesNext(FIRST, Produce(Gives(chunk)));
    var s1 := FIRST.(producer := Checking, put := [Audio(chunk)]);
    assert Step(FIRST, Produce(Gives(chunk))) == s1;
    ReachesNext(s1, Serve(0));
    var s2 := s1.(served := 1, getters := [], inbox := Some(Audio(chunk)));
    assert Step(s1, Serve(0)) == s2;
    ReachesNext(s2, Resume);
    var s3 := s2.(inbox := None, phase := Ready(chunk), rate := rate);
    assert Step(s2, Resume) == s3;
    ReachesNext(s3, DropGenerator);
    assert Step(s3, DropGenerator).phase.Dropped?;
  }
}
