/** How one streaming request ends, told from what the provider gave and what the caller did. */
module VoiceOutcomes {

  import opened Options
  import opened VoiceStream

  lemma {:induction false} RunFront(s: Stream, actions: seq<Action>)
    requires IsRun(s, actions) && actions != []
    ensures var front, last := actions[..|actions| - 1], actions[|actions| - 1];
      && IsRun(s, front) && Enabled(After(s, front), last) && InOrder(last)
      && After(s, actions) == Step(After(s, front), last)
    decreases |actions|
  {
    if |actions| > 1 {
      RunFront(Step(s, actions[0]), actions[1..]);
      assert actions[..|actions| - 1][1..] == actions[1..][..|actions| - 2];
    }
  }

  // ---------- What the provider gave ----------

  /** The chunks given, in order. */
  function ChunksGiven(actions: seq<Action>): seq<Chunk> {
    if actions == [] then []
    else
      var last := actions[|actions| - 1];
      ChunksGiven(actions[..|actions| - 1])
      + if last.Produce? && last.given.Gives? then [last.given.chunk] else []
  }

  /** The queue holds those chunks, then an `error` if the provider raised and otherwise a `done`, then `closed`.
      Without either the thread goes on until it sees the stop flag. */
  ghost predicate Gave(s: Stream, chunks: seq<Chunk>, stopped: bool, raised: bool) {
    var n := |chunks|;
    && |s.put| == n + (match s.producer case Closing => 1 case Finished => 2 case _ => 0)
    && (forall i :: 0 <= i < n ==> s.put[i] == Audio(chunks[i]))
    && (s.producer.Closing? || s.producer.Finished? ==>
          s.put[n] == (if raised then Error else Done) && (stopped || raised || s.stop))
    && (s.producer.Finished? ==> s.put[n + 1] == Closed)
    && s.exhausted == stopped && !(stopped && raised)
    && (stopped || raised ==> s.producer.Closing? || s.producer.Finished?)
  }

  lemma OnlyProducersPut(s: Stream, a: Action)
    requires Enabled(s, a) && !OfProducer(a)
    ensures var s' := Step(s, a);
      s'.put == s.put && s'.producer == s.producer && s'.exhausted == s.exhausted && (s.stop ==> s'.stop)
  {}

  lemma GaveNext(s: Stream, a: Action, chunks: seq<Chunk>, stopped: bool, raised: bool)
    requires Gave(s, chunks, stopped, raised) && Enabled(s, a)
    ensures Gave(Step(s, a), chunks + (if a.Produce? && a.given.Gives? then [a.given.chunk] else []),
                 stopped || a == Produce(Stops), raised || a == Produce(Raises))
  {
    if !OfProducer(a) {
      OnlyProducersPut(s, a);
      assert chunks + [] == chunks;
      hide Step, Enabled;
    }
  }

  lemma {:induction false} PutIsGiven(actions: seq<Action>)
    requires IsRun(IDLE, actions)
    ensures Gave(After(IDLE, actions), ChunksGiven(actions), Produce(Stops) in actions, Produce(Raises) in actions)
  {
    if actions != [] {
      var front, last := actions[..|actions| - 1], actions[|actions| - 1];
      RunFront(IDLE, actions);
      PutIsGiven(front);
      GaveNext(After(IDLE, front), last, ChunksGiven(front), Produce(Stops) in front, Produce(Raises) in front);
      assert forall a :: a in actions <==> a in front || a == last;
      hide Gave, Step, Enabled;
    }
  }

  // ---------- What came of it ----------

  predicate Leaves(s: Stream) {
    s.phase.Draining? || s.phase.Over?
  }

  /** The chunk may follow, or open, a stream whose first chunk is `first`. */
  predicate Fits(chunk: Chunk, first: Chunk) {
    chunk.wellFormed && chunk.rate == first.rate
  }

  /** The item that ends a stream as a failure: an error, a chunk that does not fit, or the end before any chunk. */
  predicate Fails(items: seq<Item>, place: nat) {
    place < |items| &&
    match items[place]
    case Audio(chunk) => !chunk.wellFormed || (place > 0 && items[0].Audio? && chunk.rate != items[0].chunk.rate)
    case Error => true
    case _ => place == 0
  }

  /** A stream on its way out that was not cancelled has yielded what came before such an item, or before the end. */
  ghost predicate EndsFor(s: Stream) {
    && (s.phase.AtYield? || s.phase.Next? ==> s.yielded != [])
    && (Leaves(s) && !s.phase.outcome.Cancelled? ==>
          && |s.yielded| < |s.put|
          && (if s.phase.outcome.Failed? then Fails(s.put, |s.yielded|)
              else |s.yielded| > 0 && s.put[|s.yielded|].Done?))
  }

  lemma PutGrows(s: Stream, s': Stream)
    requires EndsFor(s) && s' == s.(producer := s'.producer, put := s'.put, exhausted := s'.exhausted)
    requires |s.put| <= |s'.put| && s'.put[..|s.put|] == s.put
    ensures EndsFor(s')
  {
    assert forall i :: 0 <= i < |s.put| ==> s'.put[i] == s'.put[..|s.put|][i];
  }

  /** The item looked at decides. */
  lemma LooksAndEnds(s: Stream)
    requires WellPut(s) && Prefix(s) && Placed(s) && EndsFor(s) && Enabled(s, Resume) && !s.phase.Draining?
    ensures EndsFor(Step(s, Resume))
  {
    assert s.inbox.value == s.put[|s.yielded|];
    if s.inbox.value.Closed? { ClosedIsLast(s, |s.yielded|); }
  }

  lemma EndsForNext(s: Stream, a: Action)
    requires Good(s) && EndsFor(s) && Enabled(s, a) && InOrder(a)
    ensures EndsFor(Step(s, a))
  {
    if OfProducer(a) {
      ProducerAppends(s, a);
      hide Good, Step, Enabled, EndsFor;
      PutGrows(s, Step(s, a));
    } else if a.Resume? && !s.phase.Draining? {
      LooksAndEnds(s);
      hide *;
    } else {
      hide WellPut, Balanced, Prefix, Placed, Completed, Fails;
    }
  }

  lemma {:induction false} EndsForRun(actions: seq<Action>)
    requires IsRun(IDLE, actions)
    ensures Good(After(IDLE, actions)) && EndsFor(After(IDLE, actions))
  {
    GoodRun(IDLE, actions);
    if actions != [] {
      RunFront(IDLE, actions);
      EndsForRun(actions[..|actions| - 1]);
      hide Good, Step, EndsFor;
      EndsForNext(After(IDLE, actions[..|actions| - 1]), actions[|actions| - 1]);
    }
  }

  lemma CancelsNext(s: Stream, a: Action)
    requires Enabled(s, a)
    ensures Leaves(Step(s, a)) && Step(s, a).phase.outcome.Cancelled? <==>
      a.Cancel? || (Leaves(s) && s.phase.outcome.Cancelled?)
    ensures a.DropGenerator? || s.phase.Dropped? <==> Step(s, a).phase.Dropped?
  {}

  lemma {:induction false} CancelledIff(actions: seq<Action>)
    requires IsRun(IDLE, actions)
    ensures var s := After(IDLE, actions);
      && (Leaves(s) && s.phase.outcome.Cancelled? <==> Cancel in actions)
      && (s.phase.Dropped? <==> DropGenerator in actions)
  {
    if actions != [] {
      var front, last := actions[..|actions| - 1], actions[|actions| - 1];
      RunFront(IDLE, actions);
      CancelledIff(front);
      CancelsNext(After(IDLE, front), last);
      assert forall a :: a in actions <==> a in front || a == last;
      hide Step, Enabled, Leaves;
    }
  }

  /** How a stream ends, on every run: as cancelled exactly if it was cancelled; otherwise as a failure exactly if the
      item after the chunks it yielded is an error, a chunk that is not well formed or not of the first one's rate, or
      the end before any chunk; and otherwise that item is the end. */
  lemma OutcomeIsExact(actions: seq<Action>)
    requires IsRun(IDLE, actions)
    ensures var s := After(IDLE, actions);
      && (Leaves(s) && s.phase.outcome.Cancelled? <==> Cancel in actions)
      && (Leaves(s) && Cancel !in actions ==>
            && |s.yielded| < |s.put|
            && (s.phase.outcome.Failed? <==> Fails(s.put, |s.yielded|))
            && (s.phase.outcome.Normal? <==> |s.yielded| > 0 && s.put[|s.yielded|].Done?))
  {
    EndsForRun(actions);
    CancelledIff(actions);
  }

  // ---------- A caller that takes all there is ----------

  /** Nobody can do anything any more but give the stream up. */
  ghost predicate Rests(s: Stream) {
    forall a :: InOrder(a) && a != Cancel && a != DropGenerator ==> !Enabled(s, a)
  }

  /** How many of the chunks, from the first on, fit. */
  function Fitting(chunks: seq<Chunk>): (n: nat)
    ensures n <= |chunks|
  {
    if chunks == [] then 0
    else
      var n := Fitting(chunks[..|chunks| - 1]);
      if n == |chunks| - 1 && Fits(chunks[n], chunks[0]) then n + 1 else n
  }

  lemma {:induction false} FittingIs(chunks: seq<Chunk>, n: nat)
    requires n <= |chunks| && forall i :: 0 <= i < n ==> Fits(chunks[i], chunks[0])
    requires n < |chunks| ==> !Fits(chunks[n], chunks[0])
    ensures Fitting(chunks) == n
    decreases |chunks|
  {
    if chunks != [] {
      var front := chunks[..|chunks| - 1];
      if n == |chunks| { FittingIs(front, n - 1); } else { FittingIs(front, n); }
    }
  }

  lemma RestsOver(s: Stream)
    requires Good(s) && Rests(s) && !s.phase.Dropped?
    ensures s.phase.Over? && !s.slot
  {
    assert !Enabled(s, Acquire) && !Enabled(s, StartGenerator) && !Enabled(s, Pull);
    if Awaits(s) { WaitingMoves(s); }
    hide WellPut, Prefix, Placed, Completed;
  }

  /** A caller that neither cancels nor drops the stream and pulls as long as it can is given exactly the samples of
      the provider's chunks up to the first that does not fit; the stream ends normally exactly if all of them fit,
      there was one at least, and the provider did not raise. */
  lemma CallerGetsItAll(actions: seq<Action>)
    requires IsRun(IDLE, actions) && Cancel !in actions && DropGenerator !in actions && Rests(After(IDLE, actions))
    ensures var s, chunks := After(IDLE, actions), ChunksGiven(actions);
      var n := Fitting(chunks);
      && s.phase.Over? && !s.slot
      && |s.yielded| == n && (forall i :: 0 <= i < n ==> s.yielded[i] == chunks[i].samples)
      && s.phase.outcome ==
         (if n == |chunks| && n > 0 && Produce(Raises) !in actions then Normal else Failed)
  {
    var s, chunks := After(IDLE, actions), ChunksGiven(actions);
    EndsForRun(actions);
    CancelledIff(actions);
    RestsOver(s);
    PutIsGiven(actions);
    PrefixFits(s, chunks, Produce(Stops) in actions, Produce(Raises) in actions);
    hide Good, Rests, Enabled;
  }

  lemma PrefixFits(s: Stream, chunks: seq<Chunk>, stopped: bool, raised: bool)
    requires Good(s) && Leaves(s) && EndsFor(s) && !s.phase.outcome.Cancelled? && Gave(s, chunks, stopped, raised)
    ensures Fitting(chunks) == |s.yielded| && forall i :: 0 <= i < |s.yielded| ==> s.yielded[i] == chunks[i].samples
    ensures s.phase.outcome == if |s.yielded| == |chunks| && |s.yielded| > 0 && !raised then Normal else Failed
  {
    var k := |s.yielded|;
    hide WellPut, Balanced, Placed, Completed;
    assert k <= |chunks|;
    forall i | 0 <= i < k ensures s.put[i] == Audio(chunks[i]) && Fits(chunks[i], chunks[0]) {}
    FittingIs(chunks, k);
  }

  // ---------- What becomes of the items ----------

  /** How often the consumer looked at an item. */
  function Looks(actions: seq<Action>): nat {
    if actions == [] then 0
    else Looks(actions[..|actions| - 1]) + if actions[|actions| - 1].Resume? then 1 else 0
  }

  /** The items taken that nobody has looked at and that were not lost. */
  function InHand(s: Stream): int {
    s.served - s.lost - if s.inbox.Some? then 1 else 0
  }

  lemma SeenByOthers(s: Stream, a: Action)
    requires Placed(s) && Enabled(s, a) && !a.Serve? && !a.Resume? && !a.Cancel?
    ensures InHand(Step(s, a)) == InHand(s)
  {
    assert a.Acquire? || a.Pull? || a.StartGenerator? || a.DropGenerator? ==> s.inbox.None?;
    hide Placed;
  }

  lemma SeenByCancel(s: Stream)
    requires Enabled(s, Cancel)
    ensures InHand(Step(s, Cancel)) == InHand(s)
  {}

  lemma SeenByResume(s: Stream)
    requires Enabled(s, Resume)
    ensures InHand(Step(s, Resume)) == InHand(s) + 1
  {
    hide Accepts;
  }

  lemma SeenNext(s: Stream, a: Action)
    requires Placed(s) && Enabled(s, a) && InOrder(a)
    ensures InHand(Step(s, a)) == InHand(s) + if a.Resume? then 1 else 0
  {
    match a
    case Serve(_) =>
      Served(s);
      hide Step, Enabled, Holding;
    case Cancel => SeenByCancel(s); hide *;
    case Resume => SeenByResume(s); hide *;
    case _ => SeenByOthers(s, a); hide *;
  }

  /** Every item taken from the queue was looked at, is in the consumer's hand, or is the one that was lost to a
      cancelled `receive`. */
  lemma {:induction false} TakenIsSeen(actions: seq<Action>)
    requires IsRun(IDLE, actions)
    ensures var s := After(IDLE, actions);
      Good(s) && s.served == Looks(actions) + s.lost + if s.inbox.Some? then 1 else 0
  {
    GoodRun(IDLE, actions);
    if actions != [] {
      RunFront(IDLE, actions);
      TakenIsSeen(actions[..|actions| - 1]);
      hide Good, Step, Enabled;
      SeenNext(After(IDLE, actions[..|actions| - 1]), actions[|actions| - 1]);
    }
  }
}
