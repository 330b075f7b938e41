/** Why the runs of LeaseSafety must be calm: each condition of a calm schedule is exact. In a good state
    where it fails the client breaks its promises by calm steps alone, and where it holds it never does. */
module LeaseRaces {
  import opened LeaseSafety
  import opened Leases
  import opened Options

  /** Some calm run leads from here to a state that is not safe. */
  ghost predicate CanGoWrong(s: Session) {
    exists actions :: IsCalmRun(s, actions) && IsRun(s, actions) && !Safe(After(s, actions))
  }

  lemma WrongNow(s: Session)
    requires !Safe(s)
    ensures CanGoWrong(s)
  {
    assert IsCalmRun(s, []) && IsRun(s, []) && After(s, []) == s;
  }

  lemma WrongNext(s: Session, a: Action)
    requires Enabled(s, a) && Calm(s, a) && CanGoWrong(Step(s, a))
    ensures CanGoWrong(s)
  {
    var actions :| IsCalmRun(Step(s, a), actions) && IsRun(Step(s, a), actions) && !Safe(After(Step(s, a), actions));
    var all := [a] + actions;
    assert all[0] == a && all[1..] == actions;
    assert IsCalmRun(s, all) && IsRun(s, all) && After(s, all) == After(Step(s, a), actions);
  }

  lemma GoodNeverGoesWrong(s: Session)
    requires Good(s)
    ensures !CanGoWrong(s)
  {
    forall actions | IsCalmRun(s, actions) && IsRun(s, actions) ensures Safe(After(s, actions)) {
      GoodRun(s, actions);
      GoodIsSafe(After(s, actions));
    }
  }

  // ---------- The two ways to go wrong ----------

  /** A reservation that nobody counts: the client admits an exclusive lease beside it. */
  lemma UncountedIsWrong(s: Session, n: Token)
    requires s.count == 0 && Out(s, n)
    ensures CanGoWrong(s)
  {
    assert n in Outstanding(s);
    WrongNow(s);
  }

  /** A lease of the current generation that has no reservation behind it. */
  ghost predicate IsGhostLease(s: Session, t: Token) {
    IsLease(s, t) && t !in Outstanding(s)
  }

  lemma GhostLeaseIsWrong(s: Session, t: Token)
    requires IsGhostLease(s, t)
    ensures CanGoWrong(s)
  {
    WrongNow(s);
  }

  // ---------- A stale release on its way ----------

  /** The release `u` of an older generation that sent `p` runs to its end. */
  lemma SettleRelease(s: Session, u: Token, p: PromiseId) returns (s': Session)
    requires IsSettled(s, p) && Awaits(s, u, p) && s.holders[u].phase.generation != s.generation
    ensures CanGoWrong(s') ==> CanGoWrong(s)
    ensures Ended(s, s', u)
    ensures s.holders[u].phase.Failing? || IsRejected(s, p) ==> s'.count == s.count
  {
    hide CanGoWrong, Safe, GiveBack;
    if s.holders[u].phase.Failing? {
      s' := SettleFailed(s, u);
    } else if IsRejected(s, p) {
      var x := Step(s, Wake(u, true));
      assert x == Fail(s, u);
      FailFrame(s, u);
      hide Fail, Resume, Step;
      s' := SettleFailed(x, u);
      if CanGoWrong(s') { WrongNext(s, Wake(u, true)); }
    } else {
      s' := Step(s, Wake(u, true));
      SettleGiven(s, u);
      if CanGoWrong(s') { WrongNext(s, Wake(u, true)); }
    }
  }

  /** The call `u` is over; with it the count and the slot of its request may go. */
  ghost predicate Ended(s: Session, s': Session, u: Token) {
    && u < |s.holders|
    && s' == s.(holders := s.holders[u := s.holders[u].(phase := Gone)],
                detachment := s'.detachment, count := s'.count, exclusive := s'.exclusive)
  }

  lemma SettleFailed(s: Session, u: Token) returns (s': Session)
    requires u < |s.holders| && s.holders[u].phase.Failing? && s.holders[u].phase.generation != s.generation
    ensures CanGoWrong(s') ==> CanGoWrong(s)
    ensures Ended(s, s', u) && s'.count == s.count
  {
    hide CanGoWrong;
    s' := Step(s, Handle(u));
    if CanGoWrong(s') { WrongNext(s, Handle(u)); }
  }

  lemma SettleGiven(s: Session, u: Token)
    requires CanWake(s, u) && s.holders[u].phase.Releasing? && !IsRejected(s, s.holders[u].phase.p)
    ensures Ended(s, WakeHolder(s, u, true), u)
  {}

  lemma NobodyAwaits(s: Session, p: PromiseId)
    requires forall v: Token :: !Awaits(s, v, p)
    ensures forall h <- s.holders :: !AwaitsRelease(h, p)
  {
    forall h | h in s.holders ensures !AwaitsRelease(h, p) {
      var v: Token :| v < |s.holders| && s.holders[v] == h;
      assert !Awaits(s, v, p);
    }
  }

  /** Only one release awaits `p`, and it is stale. */
  ghost predicate OnlyStaleAwaits(s: Session, p: PromiseId) {
    && (forall u: Token :: Awaits(s, u, p) ==> s.holders[u].phase.generation != s.generation)
    && (forall u: Token, v: Token :: Awaits(s, u, p) && Awaits(s, v, p) ==> u == v)
  }

  // ---------- A stale call takes away the count ----------

  /** No connection, and no attach request that could still succeed. */
  ghost predicate Lost(s: Session) {
    && !s.connected && !s.attached && !s.cleanup
    && (s.attachment.Some? ==> IsRejected(s, s.attachment.value))
  }

  /** The reservation `n` is counted, and the stale call `t` will count down. */
  ghost predicate Poised(s: Session, n: Token, t: Token) {
    && s.count <= 1 && Out(s, n) && n != t && t < |s.holders|
    && match s.holders[t].phase
       case OnAttach(p) => IsRejected(s, p)
       case Releasing(_, p, _) => p < |s.requests| && !IsRejected(s, p)
       case OnReconcile(p) => IsSettled(s, p) && (IsRejected(s, p) || Lost(s))
       case OnDetach(p) => IsSettled(s, p) && Lost(s) && OnlyStaleAwaits(s, p) && !Awaits(s, n, p)
       case _ => false
  }

  lemma GivesBack(s: Session, n: Token, t: Token)
    requires CanWake(s, t) && s.count <= 1 && Out(s, n) && n != t
    requires WakeHolder(s, t, true) == GiveBack(Resume(s, t), t)
    ensures CanGoWrong(s)
  {
    ResumeFrame(s, t);
    hide Resume, CanGoWrong, CanWake;
    UncountedIsWrong(Step(s, Wake(t, true)), n);
    WrongNext(s, Wake(t, true));
  }

  /** Without a connection a call that wants an attachment finds, or makes, a refused request. */
  lemma LostAttaches(s: Session, n: Token, t: Token)
    requires CanWake(s, t) && Lost(s) && s.count <= 1 && Out(s, n) && n != t
    requires s.holders[t].phase.OnDetach? || (s.holders[t].phase.OnReconcile? && !IsRejected(s, s.holders[t].phase.p))
    ensures CanGoWrong(s)
  {
    var x := Step(s, Wake(t, true));
    ResumeFrame(s, t);
    ResumeLink(s, t);
    assert x.holders[t].phase.OnAttach? && IsRejected(x, x.holders[t].phase.p);
    assert x.count == s.count && Out(x, n);
    hide Resume, CanGoWrong, Lost;
    GivesBack(x, n, t);
    WrongNext(s, Wake(t, true));
  }

  lemma PoisedRelease(s: Session, n: Token, t: Token)
    requires Poised(s, n, t) && s.holders[t].phase.Releasing?
    ensures CanGoWrong(s)
  {
    hide CanGoWrong;
    var p := s.holders[t].phase.p;
    if s.requests[p].status.Pending? {
      var x := Step(s, Answer(p, true, false));
      GivesBack(x, n, t);
      WrongNext(s, Answer(p, true, false));
    } else {
      GivesBack(s, n, t);
    }
  }

  lemma PoisedReconcile(s: Session, n: Token, t: Token)
    requires Poised(s, n, t) && s.holders[t].phase.OnReconcile? && s.reconciliation != Some(s.holders[t].phase.p)
    ensures CanGoWrong(s)
  {
    hide CanGoWrong;
    if IsRejected(s, s.holders[t].phase.p) { GivesBack(s, n, t); } else { LostAttaches(s, n, t); }
  }

  lemma PoisedDetach(s: Session, n: Token, t: Token)
    requires Poised(s, n, t) && s.holders[t].phase.OnDetach?
    ensures CanGoWrong(s)
  {
    hide CanGoWrong;
    var p := s.holders[t].phase.p;
    if u: Token :| Awaits(s, u, p) {
      if s.holders[u].phase.Releasing? && !IsRejected(s, p) {
        PoisedRelease(s, n, u);
      } else {
        var x := SettleRelease(s, u, p);
        forall v: Token ensures !Awaits(x, v, p) { assert Awaits(x, v, p) ==> Awaits(s, v, p); }
        NobodyAwaits(x, p);
        LostAttaches(x, n, t);
      }
    } else {
      NobodyAwaits(s, p);
      LostAttaches(s, n, t);
    }
  }

  lemma PoisedGoesWrong(s: Session, n: Token, t: Token)
    requires Poised(s, n, t)
    ensures CanGoWrong(s)
  {
    hide CanGoWrong;
    match s.holders[t].phase
    case OnAttach(p) => GivesBack(s, n, t);
    case Releasing(_, _, _) => PoisedRelease(s, n, t);
    case OnDetach(_) => PoisedDetach(s, n, t);
    case OnReconcile(p) =>
      if s.reconciliation == Some(p) {
        PoisedReconcile(Step(s, FinishReconcile), n, t);
        WrongNext(s, FinishReconcile);
      } else {
        PoisedReconcile(s, n, t);
      }
  }

  predicate IsNew(phase: Phase) {
    phase.OnAttach? || phase.OnDetach? || phase.Held?
  }

  /** What a new reservation changes while nothing requires a cleanup. */
  ghost predicate Reserved(s: Session, s': Session) {
    && s'.count == s.count + 1 && s'.generation == s.generation && s'.cleanup == s.cleanup
    && s'.connected == s.connected && s'.attached == s.attached && s'.reconciliation == s.reconciliation
    && |s'.holders| == |s.holders| + 1
    && (forall u: Token :: u < |s.holders| ==> s'.holders[u] == s.holders[u])
    && s'.holders[|s.holders|].born == s.generation
    && IsNew(s'.holders[|s.holders|].phase)
    && |s.requests| <= |s'.requests|
    && (forall q: PromiseId :: q < |s.requests| ==> s'.requests[q] == s.requests[q])
    && (s'.attachment == s.attachment
        || (s'.attachment.Some? && (!s.connected ==> IsRejected(s', s'.attachment.value))))
  }

  lemma NewReservation(s: Session, a: Action)
    requires (a.Acquire? || a.Create?) && Enabled(s, a) && !s.cleanup
    ensures Reserved(s, Step(s, a))
  {}

  /** While calls drain, a connection that is lost leaves no attach request that could succeed. */
  lemma DrainingIsLost(s: Session, s': Session)
    requires Good(s) && Draining(s) && !s.connected && Reserved(s, s')
    ensures Lost(s')
    ensures forall p: PromiseId :: p < |s.requests| ==> IsSettled(s', p)
    ensures forall p: PromiseId :: OnlyStaleAwaits(s', p) && !Awaits(s', |s.holders|, p)
  {
    forall p: PromiseId, u: Token | Awaits(s', u, p)
      ensures Awaits(s, u, p) && s.holders[u].phase.generation != s.generation
    {
      assert TypedHolder(s.requests, s.generation, s.holders[u]);
      assert u !in Outstanding(s);
    }
  }

  /** In a good state a call that spoils is poised to take away the count of a new reservation. */
  lemma SpoilerIsPoised(s: Session, s': Session, t: Token)
    requires Good(s) && Spoils(s, t) && Reserved(s, s')
    ensures Poised(s', |s.holders|, t)
  {
    assert Draining(s) && TypedHolder(s.requests, s.generation, s.holders[t]);
    assert Quiet(s) && !s.holders[t].phase.Running?;
    if !s.connected { DrainingIsLost(s, s'); }
    hide Draining, OnlyStaleAwaits, Lost;
    match s.holders[t].phase
    case OnAttach(p) => assert AtAttach(s, t, p);
    case OnDetach(_) => assert Returning(s, t);
    case OnReconcile(p) => assert IsRejected(s, p) || Returning(s, t);
    case _ =>
  }

  // ---------- An acquire of an older generation obtains a lease ----------

  /** With a connection, the acquire `t` of an older generation goes on to a lease. */
  ghost predicate Haunted(s: Session, t: Token) {
    && s.connected && !s.attached && !s.cleanup && t < |s.holders| && s.holders[t].born != s.generation
    && (s.attachment.Some? ==> Names(s.requests, s.attachment.value, Attach)
                               && exists v: Token :: AtAttach(s, v, s.attachment.value))
    && match s.holders[t].phase
       case OnAttach(p) => Names(s.requests, p, Attach) && !IsRejected(s, p)
       case OnReconcile(p) => Names(s.requests, p, Detach) && !IsRejected(s, p)
       case OnDetach(p) => Names(s.requests, p, Detach) && OnlyStaleAwaits(s, p)
       case _ => false
  }

  lemma HauntedAttach(s: Session, t: Token)
    requires Haunted(s, t) && s.holders[t].phase.OnAttach?
    ensures CanGoWrong(s)
  {
    hide CanGoWrong;
    var p := s.holders[t].phase.p;
    var x := if s.requests[p].status.Pending? then Step(s, Answer(p, true, true)) else s;
    ResumeFrame(x, t);
    assert IsGhostLease(Step(x, Wake(t, true)), t);
    hide Resume, Safe;
    GhostLeaseIsWrong(Step(x, Wake(t, true)), t);
    WrongNext(x, Wake(t, true));
    if s.requests[p].status.Pending? { WrongNext(s, Answer(p, true, true)); }
  }

  /** Past the detach requests it asks for an attachment, or joins one that is not refused. */
  lemma HauntedJoins(s: Session, t: Token)
    requires Haunted(s, t) && CanWake(s, t) && !s.holders[t].phase.OnAttach?
    requires s.attachment.Some? ==> !IsRejected(s, s.attachment.value)
    ensures CanGoWrong(s)
  {
    var x := Step(s, Wake(t, true));
    ResumeFrame(s, t);
    ResumeLink(s, t);
    assert x.holders[t].phase.OnAttach? && x.attachment == Some(x.holders[t].phase.p);
    assert AtAttach(x, t, x.attachment.value) && Haunted(x, t);
    hide Resume, CanGoWrong, Haunted;
    HauntedAttach(x, t);
    WrongNext(s, Wake(t, true));
  }

  /** A refused attachment is dropped by the first call that waits for it. */
  lemma HauntedGoes(s: Session, t: Token)
    requires Haunted(s, t) && CanWake(s, t) && !s.holders[t].phase.OnAttach?
    ensures CanGoWrong(s)
  {
    hide CanGoWrong;
    if s.attachment.Some? && IsRejected(s, s.attachment.value) {
      var v: Token :| AtAttach(s, v, s.attachment.value);
      var x := Step(s, Wake(v, true));
      ResumeFrame(s, v);
      ResumeLink(s, v);
      assert x.attachment.None? && x.holders[t] == s.holders[t] && x.requests == s.requests;
      forall u: Token, p: PromiseId | Awaits(x, u, p) ensures Awaits(s, u, p) && x.holders[u] == s.holders[u] {}
      forall h, p | h in x.holders && AwaitsRelease(h, p) ensures h in s.holders {
        var u: Token :| u < |x.holders| && x.holders[u] == h;
        assert Awaits(x, u, p);
      }
      hide Resume;
      HauntedJoins(x, t);
      WrongNext(s, Wake(v, true));
    } else {
      HauntedJoins(s, t);
    }
  }

  lemma HauntedReconcile(s: Session, t: Token)
    requires Haunted(s, t) && s.holders[t].phase.OnReconcile?
    ensures CanGoWrong(s)
  {
    hide CanGoWrong;
    var p := s.holders[t].phase.p;
    var x := if s.requests[p].status.Pending? then Step(s, Answer(p, true, false)) else s;
    assert forall v: Token, q: PromiseId :: AtAttach(s, v, q) ==> AtAttach(x, v, q);
    var y := if x.reconciliation == Some(p) then Step(x, FinishReconcile) else x;
    assert forall v: Token, q: PromiseId :: AtAttach(x, v, q) ==> AtAttach(y, v, q);
    assert Haunted(y, t) && CanWake(y, t);
    HauntedGoes(y, t);
    if x.reconciliation == Some(p) { WrongNext(x, FinishReconcile); }
    if s.requests[p].status.Pending? { WrongNext(s, Answer(p, true, false)); }
  }

  /** The release it waits for has its answer. */
  lemma HauntedDetached(s: Session, t: Token)
    requires Haunted(s, t) && s.holders[t].phase.OnDetach? && IsSettled(s, s.holders[t].phase.p)
    ensures CanGoWrong(s)
  {
    hide CanGoWrong;
    var p := s.holders[t].phase.p;
    if u: Token :| Awaits(s, u, p) {
      var x := SettleRelease(s, u, p);
      forall v: Token ensures !Awaits(x, v, p) { assert Awaits(x, v, p) ==> Awaits(s, v, p); }
      NobodyAwaits(x, p);
      assert forall v: Token, q: PromiseId :: AtAttach(s, v, q) ==> AtAttach(x, v, q);
      HauntedGoes(x, t);
    } else {
      NobodyAwaits(s, p);
      HauntedGoes(s, t);
    }
  }

  lemma HauntedGoesWrong(s: Session, t: Token)
    requires Haunted(s, t)
    ensures CanGoWrong(s)
  {
    hide CanGoWrong;
    match s.holders[t].phase
    case OnAttach(_) => HauntedAttach(s, t);
    case OnReconcile(_) => HauntedReconcile(s, t);
    case OnDetach(p) =>
      if s.requests[p].status.Pending? {
        var x := Step(s, Answer(p, true, false));
        assert forall v: Token, q: PromiseId :: AtAttach(s, v, q) ==> AtAttach(x, v, q);
        assert forall v: Token, q: PromiseId :: Awaits(s, v, q) <==> Awaits(x, v, q);
        HauntedDetached(x, t);
        WrongNext(s, Answer(p, true, false));
      } else {
        HauntedDetached(s, t);
      }
  }

  /** With nothing outstanding, whoever awaits a detach request is stale. */
  lemma AwaitsAreStale(s: Session, s': Session, p: PromiseId)
    requires Typed(s') && Slotted(s) && s'.holders == s.holders && forall u: Token :: !Out(s', u)
    ensures OnlyStaleAwaits(s', p)
  {
    forall u: Token | Awaits(s', u, p) ensures Awaits(s, u, p) && s'.holders[u].phase.generation != s'.generation {
      assert TypedHolder(s'.requests, s'.generation, s'.holders[u]) && !Out(s', u);
    }
  }

  lemma RemovedHaunts(s: Session, t: Token)
    requires Good(s) && s.connected && Returning(s, t)
    ensures Haunted(Step(s, Removed), t)
  {
    var s' := Step(s, Removed);
    assert TypedHolder(s.requests, s.generation, s.holders[t]);
    InvalidatedCounted(s);
    InvalidatedTyped(s);
    assert s'.holders == s.holders && forall u: Token :: !Out(s', u) by {
      forall u: Token ensures !Out(s', u) { assert !Out(Invalidate(s), u); }
    }
    assert Typed(s');
    assert forall v: Token, q: PromiseId :: AtAttach(s, v, q) ==> AtAttach(s', v, q);
    forall p: PromiseId ensures OnlyStaleAwaits(s', p) { AwaitsAreStale(s, s', p); }
  }

  lemma ConnectHaunts(s: Session, attached: bool, t: Token)
    requires Good(s) && !s.connected && Stale(s, t) && Returning(s, t)
    ensures Haunted(Step(Step(s, Connect(attached)), ServerSays(false)), t)
  {
    var s' := Step(Step(s, Connect(attached)), ServerSays(false));
    assert Spoils(s, t) && Quiet(s) && TypedHolder(s.requests, s.generation, s.holders[t]);
    forall u: Token ensures !Out(s', u) { assert u !in Outstanding(s); }
    assert Typed(s');
    assert forall v: Token, q: PromiseId :: AtAttach(s, v, q) ==> AtAttach(s', v, q);
    forall p: PromiseId ensures OnlyStaleAwaits(s', p) { AwaitsAreStale(s, s', p); }
  }

  // ---------- The other two races ----------

  /** A lost connection leaves behind a ghost lease exactly when some acquire had its attach request
      answered without having run since. */
  lemma DisconnectGuardIsExact(s: Session)
    requires Good(s) && s.connected
    ensures var s' := Step(s, Disconnect);
      (exists t: Token :: AttachAnswered(s, t))
      <==> (exists t: Token :: CanWake(s', t) && IsGhostLease(Step(s', Wake(t, true)), t))
  {
    var s' := Step(s, Disconnect);
    if t: Token :| AttachAnswered(s, t) {
      assert Out(s, t) by { assert Returning(s, t) && !Spoils(s, t); }
      assert t in Outstanding(s);
      assert s'.requests[s.holders[t].phase.p].status.Fulfilled?;
      ResumeFrame(s', t);
      assert CanWake(s', t) && IsGhostLease(Step(s', Wake(t, true)), t);
    } else {
      forall t: Token | CanWake(s', t) ensures !IsGhostLease(Step(s', Wake(t, true)), t) {
        DisconnectIsSound(s);
        WakeIsSound(s', t, true);
        var x := Step(s', Wake(t, true));
        if IsLease(x, t) { assert TypedHolder(x.requests, x.generation, x.holders[t]); }
      }
    }
  }

  /** An acquire admitted while a failed `dispose` is about to be handled is overtaken by the reconciliation,
      which sends its detach request over a lease just handed out or beside an unanswered attach request. */
  lemma OvertakenAcquire(s: Session, g: Token)
    requires Good(s) && Relinquishes(s, g) && Admits(s, Shared)
    ensures var t := |s.holders|;
            var s1 := Step(s, Acquire(Shared, true));
            Enabled(s1, Handle(g)) &&
            var s2 := Step(s1, Handle(g));
            Enabled(s2, Acquire(Shared, true)) && Calm(s2, Acquire(Shared, true)) &&
            var s3 := Step(s2, Acquire(Shared, true));
            && (exists p: PromiseId :: Unanswered(s3, p, Detach))
            && (IsLease(s3, t) || exists p: PromiseId :: Unanswered(s3, p, Attach))
  {
    FailingIsAlone(s, g);
    var t := |s.holders|;
    var s1 := Step(s, Acquire(Shared, true));
    var s2 := Step(s1, Handle(g));
    var s3 := Step(s2, Acquire(Shared, true));
    assert s2.cleanup && s2.reconciliation.None?;
    assert Unanswered(s3, |s2.requests|, Detach);
    if !s.attached { assert Unanswered(s3, |s.requests|, Attach); }
    NewReservation(s, Acquire(Shared, true));
    forall u: Token ensures !Spoils(s2, u) && !Relinquishes(s2, u) {
      if u < |s.holders| && u != g {
        assert s2.holders[u] == s.holders[u] && TypedHolder(s.requests, s.generation, s.holders[u]);
        assert !Spoils(s, u) && forall p :: IsRejected(s, p) ==> IsRejected(s2, p);
      }
    }
    hide Good;
  }

  /** Beside a failed `dispose` that admits shared leases everything else waits for its detach request. */
  lemma FailingIsAlone(s: Session, g: Token)
    requires Good(s) && Relinquishes(s, g) && Admits(s, Shared)
    ensures s.connected && !s.cleanup && Out(s, g) && s.holders[g].phase.generation == s.generation
    ensures s.detachment.None? && s.attachment.None? && s.reconciliation.None?
    ensures forall u: Token :: u < |s.holders| && u != g ==> !Relinquishes(s, u) && !Spoils(s, u)
  {
    SuspendedIsOut(s, g);
    assert TypedHolder(s.requests, s.generation, s.holders[g]);
    assert !s.holders[g].mode.Exclusive?;
    forall u: Token, p: PromiseId ensures !AtAttach(s, u, p) && !AtReconcile(s, u, p) {
      if AtAttach(s, u, p) || AtReconcile(s, u, p) { SuspendedIsOut(s, u); }
    }
  }

  lemma OvertakenGoesWrong(s: Session, g: Token, mode: Mode)
    requires Good(s) && Relinquishes(s, g) && Admits(s, mode)
    ensures CanGoWrong(Step(s, Acquire(mode, true)))
  {
    assert Out(s, g) && g in Outstanding(s);
    assert mode.Shared?;
    OvertakenAcquire(s, g);
    var s1 := Step(s, Acquire(Shared, true));
    var s2 := Step(s1, Handle(g));
    var s3 := Step(s2, Acquire(Shared, true));
    hide Good, Step, Enabled;
    assert !Safe(s3);
    WrongNow(s3);
    WrongNext(s2, Acquire(Shared, true));
    WrongNext(s1, Handle(g));
  }

  // ---------- The guards are exact ----------

  /** The same action; a request it sends goes through the encoder. */
  function Encoded(a: Action): Action {
    match a
    case Acquire(mode, _) => Acquire(mode, true)
    case _ => a
  }

  lemma SpoiledReservation(s: Session, a: Action, t: Token)
    requires Good(s) && Spoils(s, t) && (a.Acquire? || a.Create?) && Enabled(s, a)
    ensures CanGoWrong(Step(s, a))
  {
    assert Draining(s);
    NewReservation(s, a);
    SpoilerIsPoised(s, Step(s, a), t);
    hide *;
    PoisedGoesWrong(Step(s, a), |s.holders|, t);
  }

  lemma HauntedConnection(s: Session, attached: bool, t: Token)
    requires Good(s) && !s.connected && Stale(s, t) && Returning(s, t)
    ensures CanGoWrong(Step(s, Connect(attached)))
  {
    var s1 := Step(s, Connect(attached));
    ConnectHaunts(s, attached, t);
    hide CanGoWrong, Good, Haunted, Stale, Returning;
    HauntedGoesWrong(Step(s1, ServerSays(false)), t);
    WrongNext(s1, ServerSays(false));
  }

  lemma HauntedDisconnect(s: Session, t: Token)
    requires Good(s) && s.connected && AttachAnswered(s, t)
    ensures CanGoWrong(Step(s, Disconnect))
  {
    DisconnectGuardIsExact(s);
    var s1 := Step(s, Disconnect);
    hide CanGoWrong, Good, AttachAnswered, IsGhostLease, CanWake;
    var u: Token :| CanWake(s1, u) && IsGhostLease(Step(s1, Wake(u, true)), u);
    GhostLeaseIsWrong(Step(s1, Wake(u, true)), u);
    WrongNext(s1, Wake(u, true));
  }

  lemma NotCalmGoesWrong(s: Session, a: Action)
    requires Good(s) && Enabled(s, a) && !Calm(s, a)
    ensures CanGoWrong(Step(s, Encoded(a)))
  {
    hide CanGoWrong, Good, Step, CanWake, Spoils, Stale, Returning, Relinquishes, AttachAnswered, Admits;
    match a
    case Acquire(mode, _) =>
      if t: Token :| Spoils(s, t) { SpoiledReservation(s, Encoded(a), t); }
      else {
        var g: Token :| Relinquishes(s, g);
        OvertakenGoesWrong(s, g, mode);
      }
    case Create =>
      var t: Token :| Spoils(s, t);
      SpoiledReservation(s, a, t);
    case Connect(attached) =>
      var t: Token :| Stale(s, t) && Returning(s, t);
      HauntedConnection(s, attached, t);
    case Removed =>
      var t: Token :| Returning(s, t);
      RemovedHaunts(s, t);
      HauntedGoesWrong(Step(s, Removed), t);
    case Disconnect =>
      var t: Token :| AttachAnswered(s, t);
      HauntedDisconnect(s, t);
  }

  /** Main result: in a good state an action is calm exactly when no calm run after it leaves the safe states. */
  lemma GuardsAreExact(s: Session, a: Action)
    requires Good(s) && Enabled(s, a)
    ensures Calm(s, a) <==> !CanGoWrong(Step(s, a)) && !CanGoWrong(Step(s, Encoded(a)))
  {
    if Calm(s, a) {
      GoodStep(s, a);
      GoodStep(s, Encoded(a));
      GoodNeverGoesWrong(Step(s, a));
      GoodNeverGoesWrong(Step(s, Encoded(a)));
    } else {
      NotCalmGoesWrong(s, a);
    }
  }

  /** Which stale calls take the count away at once: after a new reservation the count drops when one of
      them runs exactly if it waited for an attachment, for a reconciliation that failed, or as a release
      for a detach that succeeded. */
  lemma UncountsIff(s: Session, a: Action, t: Token, encodes: bool)
    requires Good(s) && Stale(s, t) && (a.Acquire? || a.Create?) && Enabled(s, a) && CanWake(Step(s, a), t)
    ensures var s1, phase := Step(s, a), s.holders[t].phase;
      Step(s1, Wake(t, encodes)).count < s1.count
      <==> phase.OnAttach? || (phase.OnReconcile? && IsRejected(s, phase.p))
           || (phase.Releasing? && !IsRejected(s, phase.p))
  {
    var s1 := Step(s, a);
    assert TypedHolder(s.requests, s.generation, s.holders[t]);
    if Spoils(s, t) {
      assert Draining(s);
      NewReservation(s, a);
      SpoilerIsPoised(s, s1, t);
    } else {
      SpentStaysSpent(s, a, t);
    }
    hide Good, Step, Enabled, Resume, WakeHolder, Calm, OnlyStaleAwaits, Lost;
    WakeCounts(s1, t, encodes);
  }

  lemma WakeCounts(s: Session, t: Token, encodes: bool)
    requires CanWake(s, t) && s.count > 0
    ensures var phase := s.holders[t].phase;
      WakeHolder(s, t, encodes).count < s.count
      <==> (phase.Releasing? && !IsRejected(s, phase.p))
           || ((phase.OnAttach? || phase.OnReconcile?) && IsRejected(s, phase.p))
  {
    ResumeFrame(s, t);
    PiecesCount(Resume(s, t), t, encodes);
    hide Resume, GiveBack, AttachOrLease, ReconcileOrAttach;
  }

  lemma SpentStaysSpent(s: Session, a: Action, t: Token)
    requires Stale(s, t) && Spent(s, t) && (a.Acquire? || a.Create?) && Enabled(s, a)
    ensures var s1 := Step(s, a); s1.holders[t] == s.holders[t] && Spent(s1, t) && s1.count > 0
  {
    RequestsSettle(s, a);
    if a.Acquire? {
      PiecesMove(Reserve(s, a.mode), |s.holders|, a.encodes);
      PiecesCount(Reserve(s, a.mode), |s.holders|, a.encodes);
    }
    hide ReconcileOrAttach, Admits;
  }

  lemma PiecesCount(s: Session, t: Token, encodes: bool)
    requires t < |s.holders|
    ensures GiveBack(s, t).count == if s.count == 0 then 0 else s.count - 1
    ensures forall b :: AttachOrLease(s, t, b, encodes).count == s.count
    ensures ReconcileOrAttach(s, t, encodes).count == s.count
  {}

  // ---------- Each guard fails in a state that a calm run reaches ----------

  lemma {:induction false} CalmRunExtends(s: Session, actions: seq<Action>, a: Action)
    requires IsCalmRun(s, actions) && IsRun(s, actions)
    requires Enabled(After(s, actions), a) && Calm(After(s, actions), a)
    ensures IsCalmRun(s, actions + [a]) && IsRun(s, actions + [a])
    ensures After(s, actions + [a]) == Step(After(s, actions), a)
    decreases |actions|
  {
    if actions == [] {
      assert ([a])[1..] == [];
      assert actions + [a] == [a];
    } else {
      assert (actions + [a])[1..] == actions[1..] + [a];
      CalmRunExtends(Step(s, actions[0]), actions[1..], a);
    }
  }

  ghost predicate Reaches(s: Session) {
    exists actions :: IsCalmRun(START, actions) && IsRun(START, actions) && After(START, actions) == s
  }

  lemma ReachesNext(s: Session, a: Action)
    requires Reaches(s) && Enabled(s, a) && Calm(s, a)
    ensures Reaches(Step(s, a))
  {
    var actions :| IsCalmRun(START, actions) && IsRun(START, actions) && After(START, actions) == s;
    CalmRunExtends(START, actions, a);
  }

  const UNDERWAY := Session(1, None, 0, false, true, Some(0), None, None, false,
    [Request(Attach, Pending)], [Holder(Shared, 0, OnAttach(0))])

  const ANSWERED := UNDERWAY.(attached := true, requests := [Request(Attach, Fulfilled)])

  const LEASED := ANSWERED.(attachment := None, holders := [Holder(Shared, 0, Held(0))])

  const DETACHING := LEASED.(detachment := Some(1), requests := [Request(Attach, Fulfilled), Request(Detach, Pending)],
                             holders := [Holder(Shared, 0, Releasing(0, 1, true))])

  const FAILING := DETACHING.(detachment := None,
                              requests := [Request(Attach, Fulfilled), Request(Detach, Rejected)],
                              holders := [Holder(Shared, 0, Failing(0, 1, true))])

  const QUEUED := DETACHING.(count := 2, holders := DETACHING.holders + [Holder(Shared, 0, OnDetach(1))])

  /** A shared acquire under way. */
  lemma UnderwayIsReached()
    ensures Reaches(UNDERWAY)
  {
    assert IsCalmRun(START, []) && IsRun(START, []) && After(START, []) == START;
    hide Reaches;
    var s1 := START.(connected := true);
    ReachesNext(START, Connect(false));
    assert Step(START, Connect(false)) == s1;
    ReachesNext(s1, Acquire(Shared, true));
    assert Step(s1, Acquire(Shared, true)) == UNDERWAY;
  }

  /** The same acquire answered, and with its lease. */
  lemma AnsweredIsReached()
    ensures Reaches(ANSWERED) && Reaches(LEASED)
  {
    hide Reaches;
    UnderwayIsReached();
    ReachesNext(UNDERWAY, Answer(0, true, true));
    assert Step(UNDERWAY, Answer(0, true, true)) == ANSWERED;
    ReachesNext(ANSWERED, Wake(0, true));
    assert Step(ANSWERED, Wake(0, true)) == LEASED;
  }

  /** Its lease, being released by `dispose`, with another acquire that waits for that; and after the release
      failed, before the handler. */
  lemma DetachingIsReached()
    ensures Reaches(DETACHING) && Reaches(QUEUED) && Reaches(FAILING)
  {
    hide Reaches;
    AnsweredIsReached();
    ReachesNext(LEASED, Release(0, true, true));
    assert Step(LEASED, Release(0, true, true)) == DETACHING;
    ReachesNext(DETACHING, Acquire(Shared, true));
    assert Step(DETACHING, Acquire(Shared, true)) == QUEUED;
    var s2 := DETACHING.(requests := [Request(Attach, Fulfilled), Request(Detach, Rejected)]);
    ReachesNext(DETACHING, Answer(1, false, false));
    assert Step(DETACHING, Answer(1, false, false)) == s2;
    ReachesNext(s2, Wake(0, true));
    assert Step(s2, Wake(0, true)) == FAILING;
  }

  const LOST := Session(0, None, 1, false, false, Some(0), None, None, false,
    [Request(Attach, Rejected)], UNDERWAY.holders)

  const WAITING := Session(0, None, 1, false, false, None, Some(1), None, false,
    [Request(Attach, Fulfilled), Request(Detach, Rejected)], QUEUED.holders)

  /** What is left of an acquire under way, and of one that waits for a release, after a disconnect. */
  lemma LeftoversAreReached()
    ensures Reaches(LOST) && Reaches(WAITING)
  {
    hide Reaches;
    UnderwayIsReached();
    DetachingIsReached();
    ReachesNext(UNDERWAY, Disconnect);
    assert Step(UNDERWAY, Disconnect) == LOST;
    ReachesNext(QUEUED, Disconnect);
    assert Step(QUEUED, Disconnect) == WAITING;
  }

  /** The guard of `a` fails in some state that a calm run reaches, where the client would take it. */
  ghost predicate IsNeeded(a: Action) {
    exists s :: Reaches(s) && Enabled(s, a) && !Calm(s, a)
  }

  lemma NeededAt(s: Session, a: Action)
    requires Reaches(s) && Enabled(s, a) && !Calm(s, a)
    ensures IsNeeded(a)
  {}

  lemma ReservingIsGuarded(mode: Mode, encodes: bool)
    ensures Enabled(LOST, Acquire(mode, encodes)) && !Calm(LOST, Acquire(mode, encodes))
    ensures Enabled(LOST, Create) && !Calm(LOST, Create)
  {
    assert Spoils(LOST, 0);
  }

  lemma ConnectingIsGuarded(attached: bool)
    ensures Enabled(WAITING, Connect(attached)) && !Calm(WAITING, Connect(attached))
  {
    assert Stale(WAITING, 1) && Returning(WAITING, 1);
  }

  lemma LosingIsGuarded()
    ensures Enabled(UNDERWAY, Removed) && !Calm(UNDERWAY, Removed)
    ensures Enabled(ANSWERED, Disconnect) && !Calm(ANSWERED, Disconnect)
  {
    assert Returning(UNDERWAY, 0) && AttachAnswered(ANSWERED, 0);
  }

  /** No guard is idle. */
  lemma GuardsAreNeeded(mode: Mode, encodes: bool, attached: bool)
    ensures IsNeeded(Acquire(mode, encodes)) && IsNeeded(Create) && IsNeeded(Connect(attached))
    ensures IsNeeded(Removed) && IsNeeded(Disconnect)
  {
    hide *;
    UnderwayIsReached();
    AnsweredIsReached();
    DetachingIsReached();
    LeftoversAreReached();
    ReservingIsGuarded(mode, encodes);
    ConnectingIsGuarded(attached);
    LosingIsGuarded();
    NeededAt(LOST, Acquire(mode, encodes));
    NeededAt(LOST, Create);
    NeededAt(WAITING, Connect(attached));
    NeededAt(UNDERWAY, Removed);
    NeededAt(ANSWERED, Disconnect);
  }

  /** Nor is either part of the one on acquires: here nothing drains and the handler has yet to run. */
  lemma FailingIsReached()
    ensures Reaches(FAILING) && !Draining(FAILING) && Relinquishes(FAILING, 0) && Admits(FAILING, Shared)
  {
    DetachingIsReached();
    hide Reaches;
  }
}
