/** Progress delivery of packages/client/src/state.ts for one session, and what `resume` makes of it
    across dropped connections (client.ts:259-272). */
module Resume {

  import opened Options

  // ---------- The watermark of one session ----------

  /** What can reach `ClientState` for one session. `Snapshot` is any application of a session
      snapshot, including a merge that re-applies the stored one; `Forget` is `session_removed`, or a
      server snapshot of another server instance. */
  datatype Input = Progress(sequence: nat) | Snapshot(lastSequence: nat) | Forget

  /** `last` is the entry of `#sessionSequences` (0 when absent), `base` what it was last set to other
      than by progress, and `heard` the progress delivered to listeners since then. */
  datatype Watermark = Watermark(last: nat, base: nat, heard: seq<nat>)

  function Take(w: Watermark, i: Input): Watermark {
    match i
    case Progress(k) => if k <= w.last then w else Watermark(k, w.base, w.heard + [k])
    case Snapshot(k) => Watermark(k, k, [])
    case Forget => Watermark(0, 0, [])
  }

  function TakeAll(w: Watermark, inputs: seq<Input>): Watermark
    decreases |inputs|
  {
    if inputs == [] then w else TakeAll(Take(w, inputs[0]), inputs[1..])
  }

  ghost predicate Rising(w: Watermark) {
    && (forall i :: 0 <= i < |w.heard| ==> w.base < w.heard[i])
    && (forall i, j :: 0 <= i < j < |w.heard| ==> w.heard[i] < w.heard[j])
    && w.last == if w.heard == [] then w.base else w.heard[|w.heard| - 1]
  }

  lemma TakeRises(w: Watermark, i: Input)
    requires Rising(w)
    ensures Rising(Take(w, i))
  {}

  /** Whatever the server sends, between two snapshot applications the delivered sequences strictly
      increase and exceed the snapshot's. */
  lemma {:induction false} DeliveriesRise(w: Watermark, inputs: seq<Input>)
    requires Rising(w)
    ensures Rising(TakeAll(w, inputs))
    decreases |inputs|
  {
    if inputs != [] {
      TakeRises(w, inputs[0]);
      DeliveriesRise(Take(w, inputs[0]), inputs[1..]);
    }
  }

  /** Re-applying the stored snapshot, as a merge does, lets an already delivered entry through again,
      exactly when something was delivered since that snapshot. */
  lemma MergeRewinds(w: Watermark)
    requires Rising(w)
    ensures (exists k :: 0 < k && k in w.heard && k in TakeAll(w, [Snapshot(w.base), Progress(k)]).heard) <==>
      w.heard != []
  {
    if w.heard != [] {
      var k := w.heard[|w.heard| - 1];
      var w1 := Take(w, Snapshot(w.base));
      assert [Snapshot(w.base), Progress(k)][1..] == [Progress(k)] && [Progress(k)][1..] == [];
      assert TakeAll(w1, [Progress(k)]) == Take(w1, Progress(k)) == Watermark(k, w.base, [k]);
      assert k in w.heard && k in TakeAll(w, [Snapshot(w.base), Progress(k)]).heard;
    }
  }

  // ---------- The session over dropping connections ----------

  /** The client's attach request on its way to the server. */
  datatype Wish = Nothing | Attach | ResumeAfter(sequence: nat)

  /** The server keeps a log of entries numbered 1 to `n`. `channel` is what it has sent on the
      current connection and the client has not yet handled. `start` is the position of the first
      snapshot the client applied, and `delivered` all progress delivered since. */
  datatype State = State(n: nat, up: bool, subscribed: bool, wish: Wish, channel: seq<Input>,
                         last: nat, start: Option<nat>, delivered: seq<nat>)

  const FRESH := State(0, false, false, Nothing, [], 0, None, [])

  datatype Action = Append | Connect | Drop | Ask | Serve | Push | Deliver

  function Replay(from: nat, to: nat): (r: seq<Input>)
    decreases if from < to then to - from else 0
  {
    if from >= to then [] else [Progress(from + 1)] + Replay(from + 1, to)
  }

  predicate Enabled(s: State, a: Action) {
    match a
    case Append => true
    case Connect => !s.up
    case Drop => s.up
    case Ask => s.up && s.wish.Nothing?
    case Serve => s.up && !s.wish.Nothing?
    case Push => s.up && s.subscribed
    case Deliver => s.up && s.channel != []
  }

  /** The server appends, answers and pushes; the client asks to resume from its watermark when that is
      positive and attaches afresh otherwise. */
  function Step(s: State, a: Action): State
    requires Enabled(s, a)
  {
    match a
    case Append =>
      s.(n := s.n + 1, channel := if s.subscribed then s.channel + [Progress(s.n + 1)] else s.channel)
    case Connect => s.(up := true)
    case Drop => s.(up := false, subscribed := false, wish := Nothing, channel := [])
    case Ask => s.(wish := if s.last > 0 then ResumeAfter(s.last) else Attach)
    case Serve =>
      var replay := if s.wish.Attach? then [] else Replay(s.wish.sequence, s.n);
      s.(subscribed := true, wish := Nothing, channel := s.channel + replay + [Snapshot(s.n)])
    case Push => s.(channel := s.channel + [Snapshot(s.n)])
    case Deliver =>
      var s1 := s.(channel := s.channel[1..]);
      match s.channel[0]
      case Progress(k) => if k <= s.last then s1 else s1.(last := k, delivered := s.delivered + [k])
      case Snapshot(k) => s1.(last := k, start := if s.start.None? then Some(k) else s.start)
      case Forget => s1
  }

  ghost predicate IsRun(s: State, actions: seq<Action>)
    decreases |actions|
  {
    actions != [] ==> Enabled(s, actions[0]) && IsRun(Step(s, actions[0]), actions[1..])
  }

  ghost function After(s: State, actions: seq<Action>): State
    requires IsRun(s, actions)
    decreases |actions|
  {
    if actions == [] then s else After(Step(s, actions[0]), actions[1..])
  }

  /** The server is asked to attach a client that has been attached before, without a position, and it
      has entries that the client has not seen. */
  predicate IsBlind(s: State, a: Action) {
    a.Serve? && s.wish.Attach? && s.start.Some? && !s.subscribed && s.n > 0
  }

  /** A client that has been attached before, and knows no position, is handed the snapshot of a log that has
      entries. */
  predicate SkipsNow(s: State, a: Action)
    requires Enabled(s, a)
  {
    a.Deliver? && s.start.Some? && s.last == 0 && s.channel[0].Snapshot? && s.channel[0].lastSequence > 0
  }

  ghost predicate Skips(s: State, actions: seq<Action>)
    requires IsRun(s, actions)
    decreases |actions|
  {
    actions != [] && (SkipsNow(s, actions[0]) || Skips(Step(s, actions[0]), actions[1..]))
  }

  // ---------- What is kept ----------

  /** From watermark `last`, handling `channel` never skips an entry and ends at `end`. */
  ghost predicate Feeds(last: nat, channel: seq<Input>, end: nat)
    decreases |channel|
  {
    if channel == [] then last == end
    else match channel[0]
         case Progress(k) => k <= last + 1 && Feeds(if k <= last then last else k, channel[1..], end)
         case Snapshot(k) => k == last && Feeds(last, channel[1..], end)
         case Forget => false
  }

  /** `n` entries in order, with no gap and no duplicate, from `from + 1` to `to`. */
  ghost predicate IsLog(entries: seq<nat>, from: nat, to: nat) {
    from <= to && |entries| == to - from && forall i :: 0 <= i < |entries| ==> entries[i] == from + 1 + i
  }

  ghost predicate Good(s: State) {
    && s.last <= s.n
    && (!s.up ==> !s.subscribed && s.wish.Nothing?)
    && (!s.subscribed ==> s.channel == [])
    && (s.wish.ResumeAfter? ==> 0 < s.wish.sequence <= s.last)
    && (s.start.None? ==> s.last == 0 && s.delivered == [])
    && (s.start.Some? ==> IsLog(s.delivered, s.start.value, s.last))
    && (s.wish.Attach? && !s.subscribed ==> s.last == 0)
    && (s.subscribed ==>
          if s.start.Some? then Feeds(s.last, s.channel, s.n)
          else s.channel != [] && s.channel[0].Snapshot? && Feeds(s.channel[0].lastSequence, s.channel[1..], s.n))
  }

  lemma {:induction false} FeedsMore(last: nat, a: seq<Input>, mid: nat, b: seq<Input>, end: nat)
    requires Feeds(last, a, mid) && Feeds(mid, b, end)
    ensures Feeds(last, a + b, end)
    decreases |a|
  {
    if a == [] {
      assert a + b == b;
    } else {
      assert (a + b)[1..] == a[1..] + b;
      FeedsMore(if a[0].Progress? && a[0].sequence > last then a[0].sequence else last, a[1..], mid, b, end);
    }
  }

  lemma {:induction false} ReplayFeeds(last: nat, from: nat, to: nat)
    requires from <= last <= to
    ensures Feeds(last, Replay(from, to), to)
    decreases if from < to then to - from else 0
  {
    if from < to {
      assert Replay(from, to)[1..] == Replay(from + 1, to);
      ReplayFeeds(if from + 1 <= last then last else from + 1, from + 1, to);
    }
  }

  lemma SnapshotFeeds(k: nat)
    ensures Feeds(k, [Snapshot(k)], k)
  {}

  lemma {:induction false} FeedsFarther(last: nat, channel: seq<Input>, end: nat)
    requires Feeds(last, channel, end)
    ensures last <= end
    decreases |channel|
  {
    if channel != [] {
      var next := if channel[0].Progress? && channel[0].sequence > last then channel[0].sequence else last;
      FeedsFarther(next, channel[1..], end);
    }
  }

  lemma ServeIsGood(s: State)
    requires Good(s) && Enabled(s, Serve) && !IsBlind(s, Serve)
    ensures Good(Step(s, Serve))
  {
    var replay := if s.wish.Attach? then [] else Replay(s.wish.sequence, s.n);
    SnapshotFeeds(s.n);
    if s.wish.ResumeAfter? {
      ReplayFeeds(s.n, s.wish.sequence, s.n);
      ReplayFeeds(s.last, s.wish.sequence, s.n);
      FeedsMore(s.last, replay, s.n, [Snapshot(s.n)], s.n);
      FeedsMore(s.n, replay, s.n, [Snapshot(s.n)], s.n);
    } else {
      assert replay + [Snapshot(s.n)] == [Snapshot(s.n)];
    }
    var tail := replay + [Snapshot(s.n)];
    assert s.channel + replay + [Snapshot(s.n)] == s.channel + tail;
    if s.subscribed {
      if s.start.Some? {
        FeedsMore(s.last, s.channel, s.n, tail, s.n);
      } else {
        FeedsMore(s.channel[0].lastSequence, s.channel[1..], s.n, tail, s.n);
        assert (s.channel + tail)[1..] == s.channel[1..] + tail;
      }
    } else {
      assert s.channel + tail == tail;
      assert s.start.None? ==> tail[1..] == [];
    }
  }

  /** The server adds one message at the end of the channel. */
  lemma SendIsGood(s: State, a: Action)
    requires Good(s) && Enabled(s, a) && (a.Append? || a.Push?)
    ensures Good(Step(s, a))
  {
    if s.subscribed {
      var m := if a.Append? then Progress(s.n + 1) else Snapshot(s.n);
      assert Feeds(s.n, [m], Step(s, a).n) by { assert [m][1..] == []; }
      if s.start.Some? {
        FeedsMore(s.last, s.channel, s.n, [m], Step(s, a).n);
      } else {
        FeedsMore(s.channel[0].lastSequence, s.channel[1..], s.n, [m], Step(s, a).n);
        assert (s.channel + [m])[1..] == s.channel[1..] + [m];
      }
    }
  }

  lemma DeliverIsGood(s: State)
    requires Good(s) && Enabled(s, Deliver)
    ensures Good(Step(s, Deliver))
  {
    var s' := Step(s, Deliver);
    FeedsFarther(if s.channel[0].Progress? then s'.last else s.channel[0].lastSequence, s.channel[1..], s.n);
  }

  lemma GoodStep(s: State, a: Action)
    requires Good(s) && Enabled(s, a) && !IsBlind(s, a)
    ensures Good(Step(s, a)) && !SkipsNow(s, a)
  {
    match a
    case Append => SendIsGood(s, a);
    case Push => SendIsGood(s, a);
    case Serve => ServeIsGood(s);
    case Deliver => DeliverIsGood(s);
    case _ =>
  }

  // ---------- Blind re-attachments ----------

  ghost predicate AllPositive(channel: seq<Input>) {
    forall i :: 0 <= i < |channel| ==>
      !channel[i].Forget? && (channel[i].Snapshot? ==> channel[i].lastSequence > 0)
  }

  /** After a blind re-attachment: the snapshot that skips the log is the next message. */
  ghost predicate Blinded(s: State) {
    && s.up && s.subscribed && s.start == Some(0) && s.last == 0 && s.delivered == [] && s.n > 0
    && !s.wish.ResumeAfter? && s.channel != [] && s.channel[0].Snapshot? && AllPositive(s.channel)
  }

  /** The log has been skipped: its first entry is never heard. */
  ghost predicate Skipped(s: State) {
    && s.start == Some(0) && 0 < s.last && s.n > 0 && AllPositive(s.channel)
    && (s.delivered == [] || s.delivered[0] > 1)
  }

  lemma {:induction false} ReplayIsPositive(from: nat, to: nat)
    ensures AllPositive(Replay(from, to))
    decreases if from < to then to - from else 0
  {
    if from < to { ReplayIsPositive(from + 1, to); }
  }

  lemma BlindServe(s: State)
    requires Good(s) && Enabled(s, Serve) && IsBlind(s, Serve)
    ensures Blinded(Step(s, Serve))
  {}

  /** Until it is handed over, only a lost connection takes the snapshot away. */
  lemma BlindedStep(s: State, a: Action)
    requires Blinded(s) && Enabled(s, a)
    ensures SkipsNow(s, a) <==> a.Deliver?
    ensures if a.Deliver? then Skipped(Step(s, a)) else if a.Drop? then Good(Step(s, a)) else Blinded(Step(s, a))
  {}

  lemma SkippedStep(s: State, a: Action)
    requires Skipped(s) && Enabled(s, a)
    ensures Skipped(Step(s, a))
  {
    if a.Serve? && s.wish.ResumeAfter? { ReplayIsPositive(s.wish.sequence, s.n); }
    if a.Deliver? { assert forall i :: 0 <= i < |s.channel| - 1 ==> s.channel[1..][i] == s.channel[i + 1]; }
  }

  lemma {:induction false} SkippedRun(s: State, actions: seq<Action>)
    requires Skipped(s) && IsRun(s, actions)
    ensures Skipped(After(s, actions))
    decreases |actions|
  {
    if actions != [] {
      SkippedStep(s, actions[0]);
      SkippedRun(Step(s, actions[0]), actions[1..]);
    }
  }

  lemma {:induction false} AnyRun(s: State, actions: seq<Action>)
    requires (Good(s) || Blinded(s)) && IsRun(s, actions)
    ensures var s' := After(s, actions);
      if Skips(s, actions) then Skipped(s') else Good(s') || Blinded(s')
    decreases |actions|
  {
    if actions != [] {
      var a, s1 := actions[0], Step(s, actions[0]);
      if Blinded(s) {
        BlindedStep(s, a);
      } else if IsBlind(s, a) {
        BlindServe(s);
      } else {
        GoodStep(s, a);
      }
      hide Good, Blinded, Skipped, Step;
      if SkipsNow(s, a) { SkippedRun(s1, actions[1..]); } else { AnyRun(s1, actions[1..]); }
    }
  }

  /** Exactly-once, with its exact condition: over any number of drops and re-attachments, the progress
      delivered since the first attachment is the server's log from there on, in order, with no gap and no
      duplicate, if and only if the client was never handed the snapshot of a log with entries after it had
      been attached without hearing any. And then a client that has handled all that was sent has heard the log
      to its end. */
  lemma DeliversTheLog(actions: seq<Action>)
    requires IsRun(FRESH, actions)
    ensures var s := After(FRESH, actions);
      && (s.start.None? ==> s.delivered == [])
      && (s.start.Some? ==> (IsLog(s.delivered, s.start.value, s.last) <==> !Skips(FRESH, actions)))
      && (s.start.Some? && !Skips(FRESH, actions) && s.subscribed && s.channel == [] ==> s.last == s.n)
  {
    AnyRun(FRESH, actions);
  }

  /** A blind re-attachment is what leads there: the client hears the log from its next entry on, although
      nothing had been delivered before. */
  lemma BlindSkips(s: State)
    requires Good(s) && Enabled(s, Serve) && IsBlind(s, Serve)
    ensures var s1 := Step(s, Serve);
            Enabled(s1, Deliver) && SkipsNow(s1, Deliver) &&
            var s2 := Step(Step(s1, Deliver), Append);
            Enabled(s2, Deliver) &&
            var s3 := Step(s2, Deliver);
            s3.start == Some(0) && s3.delivered == [s.n + 1] && !IsLog(s3.delivered, s3.start.value, s3.last)
  {}

  const BLIND := State(1, true, false, Attach, [], 0, Some(0), [])

  /** And a run without any other race leads to one: an empty session is attached, the connection is lost, and
      an entry is logged meanwhile. */
  lemma BlindIsReached()
    ensures exists actions :: IsRun(FRESH, actions) && !Skips(FRESH, actions) && After(FRESH, actions) == BLIND
    ensures Good(BLIND) && Enabled(BLIND, Serve) && IsBlind(BLIND, Serve)
  {
    var attached := State(0, true, true, Nothing, [], 0, Some(0), []);
    var lost := State(0, false, false, Nothing, [], 0, Some(0), []);
    AttachesEmpty(attached);
    LosesAndAsks(attached, lost);
    var before, later := [Connect, Ask, Serve, Deliver], [Drop, Append, Connect, Ask];
    RunsJoin(FRESH, before, later);
    assert IsRun(FRESH, before + later) && !Skips(FRESH, before + later) && After(FRESH, before + later) == BLIND;
  }

  lemma AttachesEmpty(attached: State)
    requires attached == State(0, true, true, Nothing, [], 0, Some(0), [])
    ensures IsRun(FRESH, [Connect, Ask, Serve, Deliver]) && !Skips(FRESH, [Connect, Ask, Serve, Deliver])
    ensures After(FRESH, [Connect, Ask, Serve, Deliver]) == attached
  {
    var s1, s2 := FRESH.(up := true), FRESH.(up := true, wish := Attach);
    var s3 := State(0, true, true, Nothing, [Snapshot(0)], 0, None, []);
    assert Step(FRESH, Connect) == s1 && Step(s1, Ask) == s2;
    assert [] + [] + [Snapshot(0)] == [Snapshot(0)];
    assert Step(s2, Serve) == s3 && [Snapshot(0)][1..] == [] && Step(s3, Deliver) == attached;
    assert [Connect, Ask, Serve, Deliver][1..] == [Ask, Serve, Deliver]
      && [Ask, Serve, Deliver][1..] == [Serve, Deliver];
    assert [Serve, Deliver][1..] == [Deliver] && [Deliver][1..] == [];
    assert IsRun(s3, [Deliver]) && IsRun(s2, [Serve, Deliver]) && IsRun(s1, [Ask, Serve, Deliver]);
    assert !Skips(s3, [Deliver]) && !Skips(s2, [Serve, Deliver]) && !Skips(s1, [Ask, Serve, Deliver]);
  }

  lemma LosesAndAsks(attached: State, lost: State)
    requires attached == State(0, true, true, Nothing, [], 0, Some(0), [])
    requires lost == State(0, false, false, Nothing, [], 0, Some(0), [])
    ensures IsRun(attached, [Drop, Append, Connect, Ask]) && !Skips(attached, [Drop, Append, Connect, Ask])
    ensures After(attached, [Drop, Append, Connect, Ask]) == BLIND
  {
    var s2, s3 := lost.(n := 1), lost.(n := 1, up := true);
    assert Step(attached, Drop) == lost && Step(lost, Append) == s2 && Step(s2, Connect) == s3
      && Step(s3, Ask) == BLIND;
    assert [Drop, Append, Connect, Ask][1..] == [Append, Connect, Ask] && [Append, Connect, Ask][1..] == [Connect, Ask];
    assert [Connect, Ask][1..] == [Ask] && [Ask][1..] == [];
    assert IsRun(s3, [Ask]) && IsRun(s2, [Connect, Ask]) && IsRun(lost, [Append, Connect, Ask]);
    assert !Skips(s3, [Ask]) && !Skips(s2, [Connect, Ask]) && !Skips(lost, [Append, Connect, Ask]);
  }

  lemma {:induction false} RunsJoin(s: State, a: seq<Action>, b: seq<Action>)
    requires IsRun(s, a) && IsRun(After(s, a), b)
    ensures IsRun(s, a + b) && After(s, a + b) == After(After(s, a), b)
    ensures Skips(s, a + b) <==> Skips(s, a) || Skips(After(s, a), b)
    decreases |a|
  {
    if a == [] {
      assert a + b == b;
    } else {
      assert (a + b)[1..] == a[1..] + b;
      RunsJoin(Step(s, a[0]), a[1..], b);
    }
  }

  /** Delivering on the wire is what `ClientState` does with each message: progress is dropped or appended to
      what is heard, and a snapshot starts anew from its position. */
  lemma DeliverIsTake(s: State, w: Watermark)
    requires Good(s) && Enabled(s, Deliver) && w.last == s.last
    ensures var s', w' := Step(s, Deliver), Take(w, s.channel[0]);
      && s'.last == w'.last
      && match s.channel[0]
         case Progress(_) => w'.base == w.base && w'.heard == w.heard + s'.delivered[|s.delivered|..]
         case Snapshot(k) => s'.delivered == s.delivered && w' == Watermark(k, k, [])
         case Forget => false
  {}
}
