/** The imperative side of services/voice/src/pi_voice/service.py: the loop of the producer thread and the
    semaphore shared by every request. */
module VoiceService {

  import opened VoiceStream

  /** The items for the first chunks of the provider. */
  function AudioOf(chunks: seq<Chunk>): (items: seq<Item>)
    ensures |items| == |chunks| && forall i :: 0 <= i < |items| ==> items[i] == Audio(chunks[i])
  {
    seq(|chunks|, i requires 0 <= i < |chunks| => Audio(chunks[i]))
  }

  class StreamProducer {
    var queue: seq<Item>

    constructor ()
      ensures queue == []
    {
      queue := [];
    }

    /** The thread: the provider gives `chunks` and then stops or raises; the stop flag reads clear the
        first `clear` times. Whatever happens the queue ends with one `done` or `error` and `closed`, and
        an error is reported only if the provider was asked for one chunk too many and raised. */
    method Run(chunks: seq<Chunk>, raises: bool, clear: nat)
      requires queue == []
      modifies this
      ensures var n := if clear < |chunks| then clear else |chunks|;
        queue == AudioOf(chunks[..n]) + [if raises && clear > |chunks| then Error else Done, Closed]
      ensures Read(queue) == Shut
    {
      var i := 0;
      var ended := false;
      while !ended && i < clear
        invariant i <= clear && i <= |chunks|
        invariant !ended ==> queue == AudioOf(chunks[..i])
        invariant ended ==> i == |chunks| < clear && queue == AudioOf(chunks[..i]) + [if raises then Error else Done]
        decreases if ended then 0 else clear - i + 1
      {
        if i < |chunks| {
          queue := queue + [Audio(chunks[i])];
          i := i + 1;
          assert queue == AudioOf(chunks[..i]);
        } else {
          queue := queue + [if raises then Error else Done];
          ended := true;
        }
      }
      if !ended { queue := queue + [Done]; }
      ghost var last := queue[|queue| - 1];
      assert queue == AudioOf(chunks[..i]) + [last];
      queue := queue + [Closed];
      ReadsAsShut(AudioOf(chunks[..i]), last);
    }
  }

  lemma ReadsAsShut(chunks: seq<Item>, last: Item)
    requires AllAudio(chunks) && (last.Done? || last.Error?)
    ensures Read(chunks + [last] + [Closed]) == Shut
  {
    var one := chunks + [last];
    AudioReadsAsChunks(chunks);
    assert one[..|one| - 1] == chunks;
    assert (one + [Closed])[..|one|] == one;
  }

  function SlotHolders(streams: map<nat, Stream>): set<nat> {
    set id | id in streams && streams[id].slot
  }

  /** All requests of one service: every stream is advanced by its own machine, and `free` is the counter
      of the semaphore. */
  class VoiceService {
    const max: nat
    var free: int
    var streams: map<nat, Stream>
    var syntheses: set<nat>

    ghost predicate Valid()
      reads this
    {
      && free >= 0
      && (forall id :: id in streams ==> Good(streams[id]))
      && free + |SlotHolders(streams)| + |syntheses| == max
    }

    constructor (maxConcurrency: nat)
      ensures Valid() && max == maxConcurrency && streams == map[] && syntheses == {}
    {
      max, free, streams, syntheses := maxConcurrency, maxConcurrency, map[], {};
      assert SlotHolders(map[]) == {};
    }

    /** A new request, before it waits for its slot. */
    method Open(id: nat)
      requires Valid() && id !in streams
      modifies this
      ensures Valid() && streams == old(streams)[id := IDLE] && free == old(free) && syntheses == old(syntheses)
    {
      HoldsNothing(streams, id);
      streams := streams[id := IDLE];
    }

    /** One step of request `id`. A request waits while no slot is free; otherwise it steps alone, and the
        semaphore counts the slot it took or gave back. */
    method Advance(id: nat, a: Action) returns (stepped: bool)
      requires Valid() && id in streams && Enabled(streams[id], a) && InOrder(a)
      modifies this
      ensures Valid() && syntheses == old(syntheses)
      ensures stepped == !(a.Acquire? && old(free) == 0)
      ensures streams == if stepped then old(streams)[id := Step(old(streams[id]), a)] else old(streams)
      ensures free - old(free) == (if old(streams[id]).slot then 1 else 0) - (if streams[id].slot then 1 else 0)
    {
      if a.Acquire? && free == 0 { return false; }
      var s, s' := streams[id], Step(streams[id], a);
      GoodStep(s, a);
      SlotMoves(s, a);
      if a.Acquire? { free := free - 1; }
      if s.slot && !s'.slot { free := free + 1; }
      streams := streams[id := s'];
      HoldingChanges(old(streams), id, s');
      return true;
    }

    /** `async with self._slots` around a plain synthesis. */
    method BeginSynthesis(id: nat) returns (begun: bool)
      requires Valid() && id !in syntheses
      modifies this
      ensures Valid() && streams == old(streams) && begun == (old(free) > 0)
      ensures syntheses == if begun then old(syntheses) + {id} else old(syntheses)
    {
      begun := free > 0;
      if begun {
        free := free - 1;
        syntheses := syntheses + {id};
      }
    }

    method EndSynthesis(id: nat)
      requires Valid() && id in syntheses
      modifies this
      ensures Valid() && streams == old(streams) && syntheses == old(syntheses) - {id} && free == old(free) + 1
    {
      free := free + 1;
      syntheses := syntheses - {id};
    }
  }

  lemma HoldsNothing(streams: map<nat, Stream>, id: nat)
    requires id !in streams
    ensures Good(IDLE) && SlotHolders(streams[id := IDLE]) == SlotHolders(streams)
  {}

  lemma SlotMoves(s: Stream, a: Action)
    requires Good(s) && Enabled(s, a) && InOrder(a)
    ensures a.Acquire? ==> !s.slot && Step(s, a).slot
    ensures !a.Acquire? && Step(s, a).slot ==> s.slot
  {}

  lemma HoldingChanges(streams: map<nat, Stream>, id: nat, s: Stream)
    requires id in streams
    ensures |SlotHolders(streams[id := s])| - |SlotHolders(streams)| ==
      (if s.slot then 1 else 0) - (if streams[id].slot then 1 else 0)
  {
    var before, after := SlotHolders(streams), SlotHolders(streams[id := s]);
    assert forall o :: o != id ==> (o in before <==> o in after);
    assert id in before <==> streams[id].slot;
    assert id in after <==> s.slot;
    hide SlotHolders;
    SizeWithout(before, id);
    SizeWithout(after, id);
    assert before - {id} == after - {id};
  }

  lemma SizeWithout(ids: set<nat>, id: nat)
    ensures |ids| == |ids - {id}| + if id in ids then 1 else 0
  {}
}
