/** What the lease protocol keeps over every calm run. */
module LeaseSafety {
  import opened Leases
  import opened Options

  ghost predicate Out(s: Session, t: Token) {
    t < |s.holders| && s.holders[t].phase != Gone && s.holders[t].born == s.generation
  }

  ghost predicate Names(requests: seq<Request>, p: PromiseId, command: Command) {
    p < |requests| && requests[p].command == command
  }

  ghost predicate TypedHolder(requests: seq<Request>, generation: nat, h: Holder) {
    && h.born <= generation
    && match h.phase
       case OnDetach(p) => Names(requests, p, Detach)
       case OnReconcile(p) => Names(requests, p, Detach)
       case OnAttach(p) => Names(requests, p, Attach)
       case Held(g) => g == h.born
       case Releasing(g, p, _) => g == h.born && Names(requests, p, Detach)
       case Failing(g, p, _) => g == h.born && Names(requests, p, Detach)
       case Running => true
       case Gone => true
  }

  /** Every promise id in use names a request of the right kind, and a lease keeps the generation
      of its reservation. */
  ghost predicate Typed(s: Session) {
    && (forall t: Token :: t < |s.holders| ==> TypedHolder(s.requests, s.generation, s.holders[t]))
    && (s.attachment.Some? ==> Names(s.requests, s.attachment.value, Attach))
    && (s.detachment.Some? ==> Names(s.requests, s.detachment.value, Detach))
    && (s.reconciliation.Some? ==> Names(s.requests, s.reconciliation.value, Detach))
  }

  ghost predicate Counted(s: Session) {
    && s.count == |Outstanding(s)|
    && (s.exclusive.Some? ==> Out(s, s.exclusive.value) && s.holders[s.exclusive.value].mode.Exclusive? && s.count == 1)
    && (forall t: Token :: Out(s, t) && s.holders[t].mode.Exclusive? ==> s.exclusive == Some(t))
  }

  ghost predicate AtAttach(s: Session, t: Token, p: PromiseId) {
    t < |s.holders| && s.holders[t].phase == OnAttach(p)
  }

  ghost predicate AtReconcile(s: Session, t: Token, p: PromiseId) {
    t < |s.holders| && s.holders[t].phase == OnReconcile(p)
  }

  ghost predicate AtRelease(s: Session, t: Token, p: PromiseId) {
    t < |s.holders| && s.holders[t].phase.Releasing? && s.holders[t].phase.p == p
  }

  /** The release of token `t` has sent `p` and is not through with it. */
  ghost predicate Awaits(s: Session, t: Token, p: PromiseId) {
    t < |s.holders| && AwaitsRelease(s.holders[t], p)
  }

  /** Each shared promise has a suspended call behind it, and each unanswered request is one of them; a
      release has its slot unless it is stale and spent. */
  ghost predicate Backed(s: Session) {
    && (s.attachment.Some? ==> exists t: Token :: AtAttach(s, t, s.attachment.value))
    && (s.reconciliation.Some? ==> exists t: Token :: AtReconcile(s, t, s.reconciliation.value))
    && (s.detachment.Some? ==> exists t: Token :: AtRelease(s, t, s.detachment.value))
    && (forall p: PromiseId :: p < |s.requests| && s.requests[p].status.Pending? ==>
          s.connected && (s.attachment == Some(p) || s.detachment == Some(p) || s.reconciliation == Some(p)))
    && (forall t: Token, p: PromiseId :: AtRelease(s, t, p) && !(Stale(s, t) && IsRejected(s, p)) ==>
          s.detachment == Some(p))
    && (forall t: Token, u: Token, p: PromiseId :: AtRelease(s, t, p) && AtRelease(s, u, p) ==> t == u)
  }

  /** While suspended calls of an older generation settle, nothing else is going on; and with a connection
      none of them goes on to an attachment. */
  ghost predicate Quiet(s: Session) {
    && s.count == 0 && !s.cleanup
    && (forall t: Token, p: PromiseId :: AtAttach(s, t, p) && p < |s.requests| ==> s.requests[p].status.Rejected?)
    && (s.connected ==> forall t: Token :: !Returning(s, t))
  }

  /** A release that has, or may leave behind, a detach request of its own. */
  ghost predicate Claims(phase: Phase) {
    phase.Releasing? || (phase.Failing? && phase.relinquish)
  }

  /** An acquire on its way to, or through, the reconciliation. */
  ghost predicate Reconciles(s: Session, phase: Phase) {
    || phase.OnDetach? || phase.Running?
    || (phase.OnReconcile?
        && (s.reconciliation == Some(phase.p) || (phase.p < |s.requests| && s.requests[phase.p].status.Rejected?)))
  }

  /** The one lease of a session that was created here, held or being released. */
  ghost predicate Owns(h: Holder) {
    h.mode.Exclusive? && (h.phase.Held? || h.phase.Releasing? || h.phase.Failing?)
  }

  /** A stale release whose slot is still there. */
  ghost predicate IsLeftover(s: Session, t: Token) {
    Stale(s, t) && s.detachment.Some? && AtRelease(s, t, s.detachment.value)
  }

  /** Detaching, reconciling and attaching exclude one another. */
  ghost predicate Exclusion(s: Session) {
    && (forall t: Token, u: Token :: Out(s, t) && Claims(s.holders[t].phase) && Out(s, u) && t != u ==>
          s.holders[u].phase == OnDetach(s.holders[t].phase.p))
    && (forall t: Token :: Out(s, t) && Claims(s.holders[t].phase) ==> s.connected)
    && (s.reconciliation.Some? ==> s.cleanup)
    && (s.cleanup ==> forall t: Token :: Out(s, t) ==> Reconciles(s, s.holders[t].phase) || Owns(s.holders[t]))
  }

  ghost predicate Sound(s: Session) {
    && Typed(s) && Counted(s) && Backed(s) && (s.attached ==> s.connected)
    && if Draining(s) then Quiet(s) else Exclusion(s)
  }

  /** A slot that a stale release still has to give back holds up nothing that this generation waits for, and
      a detach request has one release behind it at most. */
  ghost predicate Slotted(s: Session) {
    && (forall t: Token :: Relinquishes(s, t) ==> s.detachment.None?)
    && (s.cleanup ==> forall t: Token :: !IsLeftover(s, t))
    && (forall t: Token, u: Token, p: PromiseId :: Awaits(s, t, p) && Awaits(s, u, p) ==> t == u)
  }

  /** Between two actions no call is running. */
  ghost predicate Resting(s: Session) {
    forall t: Token :: t < |s.holders| ==> !s.holders[t].phase.Running?
  }

  ghost predicate Good(s: Session) {
    Sound(s) && Slotted(s) && Resting(s)
  }

  lemma StartIsGood()
    ensures Good(START)
  {}

  // ---------- The pieces ----------

  lemma AtMostOne(tokens: set<Token>, a: Token, b: Token)
    requires a in tokens && b in tokens && |tokens| == 1
    ensures a == b
  {
    assert |tokens - {a}| == 0;
  }

  lemma EmptyExcludes(s: Session)
    requires Typed(s) && Counted(s) && Backed(s) && s.count == 0 && !s.cleanup && !Draining(s)
    ensures Exclusion(s)
  {
    forall t: Token ensures !Out(s, t) { assert t !in Outstanding(s); }
    forall t: Token, p: PromiseId ensures !AtReconcile(s, t, p) { assert !Spoils(s, t) && !Out(s, t); }
  }

  /** A suspended call is outstanding or stale; with anything outstanding nothing drains. */
  lemma SuspendedIsOut(s: Session, t: Token)
    requires Sound(s) && t < |s.holders| && Suspended(s.holders[t].phase)
    ensures Out(s, t) <==> !Stale(s, t)
    ensures Out(s, t) ==> !Draining(s)
    ensures !Out(s, t) ==> Draining(s) || Spent(s, t)
  {
    if Out(s, t) { assert t in Outstanding(s); } else { assert Spoils(s, t) || Spent(s, t); }
  }

  /** Changing only a running holder leaves the others backing what they backed. */
  lemma OthersStillBack(s: Session, s': Session, t: Token)
    requires t < |s.holders| == |s'.holders| && s.holders[t].phase.Running? && !s'.holders[t].phase.Releasing?
    requires forall u: Token :: u < |s.holders| && u != t ==> s'.holders[u] == s.holders[u]
    ensures forall u: Token, p :: AtAttach(s, u, p) ==> AtAttach(s', u, p)
    ensures forall u: Token, p :: AtReconcile(s, u, p) ==> AtReconcile(s', u, p)
    ensures forall u: Token, p :: AtRelease(s, u, p) <==> AtRelease(s', u, p)
  {}

  // Giving back the reservation of a running call.

  lemma GiveBackCounted(s: Session, t: Token)
    requires Counted(s) && t < |s.holders| && s.holders[t].phase.Running? && (Out(s, t) || s.count == 0)
    ensures Counted(GiveBack(s, t))
  {
    var s' := GiveBack(s, t);
    assert Outstanding(s') == Outstanding(s) - {t};
    if Out(s, t) {
      assert t in Outstanding(s);
      if s.exclusive.Some? { AtMostOne(Outstanding(s), t, s.exclusive.value); }
    }
    forall u: Token | Out(s', u) && s'.holders[u].mode.Exclusive? ensures s'.exclusive == Some(u) {
      assert Out(s, u);
    }
  }

  lemma GiveBackBacked(s: Session, t: Token)
    requires Backed(s) && t < |s.holders| && s.holders[t].phase.Running?
    ensures Backed(GiveBack(s, t))
  {
    OthersStillBack(s, GiveBack(s, t), t);
  }

  lemma GiveBackExcludes(s: Session, t: Token)
    requires Exclusion(s) && t < |s.holders| && s.holders[t].phase.Running?
    ensures Exclusion(GiveBack(s, t))
  {}

  lemma GiveBackIsSound(s: Session, t: Token)
    requires Sound(s) && t < |s.holders| && s.holders[t].phase.Running?
    ensures Sound(GiveBack(s, t))
  {
    var s' := GiveBack(s, t);
    SuspendedIsOut(s, t);
    GiveBackCounted(s, t);
    GiveBackBacked(s, t);
    assert Typed(s');
    assert forall u: Token :: Spoils(s', u) <==> Spoils(s, u) && u != t;
    hide Counted, Backed, Outstanding, Typed, Exclusion;
    if Draining(s) {
      if Draining(s') {
        assert forall u: Token, p :: AtAttach(s', u, p) ==> AtAttach(s, u, p);
        assert forall u: Token :: Returning(s', u) ==> Returning(s, u);
      } else {
        EmptyExcludes(s');
      }
    } else {
      GiveBackExcludes(s, t);
    }
  }

  // A running call that goes to wait for, or obtain, an attachment.

  /** Moving a running call into a waiting phase or a lease changes neither the count nor the backing. */
  lemma MoveCounted(s: Session, t: Token, phase: Phase)
    requires Counted(s) && t < |s.holders| && s.holders[t].phase.Running? && !phase.Gone?
    ensures Counted(SetPhase(s, t, phase))
  {
    var s' := SetPhase(s, t, phase);
    assert Outstanding(s') == Outstanding(s);
    forall u: Token | Out(s', u) && s'.holders[u].mode.Exclusive? ensures s'.exclusive == Some(u) { assert Out(s, u); }
  }

  /** What a running call may turn into. */
  ghost predicate Fits(s: Session, t: Token, phase: Phase)
    requires t < |s.holders|
  {
    match phase
    case OnAttach(p) => !s.cleanup && s.attachment == Some(p) && (Draining(s) ==> !s.connected)
    case OnReconcile(p) => s.cleanup && s.reconciliation == Some(p)
    case Held(g) => (s.cleanup ==> s.holders[t].mode.Exclusive?) && !Draining(s) && g == s.generation
    case _ => false
  }

  lemma MoveBacked(s: Session, t: Token, phase: Phase)
    requires Typed(s) && Backed(s) && t < |s.holders| && s.holders[t].phase.Running? && Fits(s, t, phase)
    requires phase.Held? ==> Out(s, t)
    ensures Typed(SetPhase(s, t, phase)) && Backed(SetPhase(s, t, phase))
  {
    OthersStillBack(s, SetPhase(s, t, phase), t);
  }

  lemma MoveQuiet(s: Session, t: Token, phase: Phase)
    requires Backed(s) && Quiet(s) && Draining(s) && t < |s.holders| && s.holders[t].phase.Running? && Fits(s, t, phase)
    ensures Quiet(SetPhase(s, t, phase))
  {
    var s' := SetPhase(s, t, phase);
    forall u: Token, p: PromiseId | AtAttach(s', u, p) && p < |s'.requests| ensures s'.requests[p].status.Rejected? {
      if u == t {
        var v: Token :| AtAttach(s, v, p);
      } else {
        assert AtAttach(s, u, p);
      }
    }
  }

  lemma MoveExcludes(s: Session, t: Token, phase: Phase)
    requires Exclusion(s) && Out(s, t) && s.holders[t].phase.Running? && Fits(s, t, phase)
    ensures Exclusion(SetPhase(s, t, phase))
  {}

  lemma MoveIsSound(s: Session, t: Token, phase: Phase)
    requires Sound(s) && t < |s.holders| && s.holders[t].phase.Running? && Fits(s, t, phase)
    ensures Sound(SetPhase(s, t, phase))
  {
    var s' := SetPhase(s, t, phase);
    SuspendedIsOut(s, t);
    MoveCounted(s, t, phase);
    MoveBacked(s, t, phase);
    hide Counted, Backed, Outstanding, Typed, Quiet, Exclusion;
    if Draining(s) {
      MoveQuiet(s, t, phase);
      assert Spoils(s', t);
    } else {
      MoveExcludes(s, t, phase);
      assert forall u: Token :: Spoils(s', u) ==> Spoils(s, u);
    }
  }

  /** Sending a request for a free slot, on behalf of a running call that waits for it. */
  ghost function Send(s: Session, t: Token, command: Command, encodes: bool): Session
    requires t < |s.holders|
  {
    var p := |s.requests|;
    var s1 := Issue(s, command, encodes);
    if command.Attach? then SetPhase(s1.(attachment := Some(p)), t, OnAttach(p))
    else SetPhase(s1.(reconciliation := Some(p)), t, OnReconcile(p))
  }

  ghost predicate MaySend(s: Session, t: Token, command: Command) {
    && t < |s.holders| && s.holders[t].phase.Running?
    && if command.Attach? then !s.cleanup && s.attachment.None? && (Draining(s) ==> !s.connected)
       else s.cleanup && s.reconciliation.None?
  }

  lemma SendCounted(s: Session, t: Token, command: Command, encodes: bool)
    requires Counted(s) && MaySend(s, t, command)
    ensures Counted(Send(s, t, command, encodes))
  {
    var s' := Send(s, t, command, encodes);
    assert Outstanding(s') == Outstanding(s);
    forall u: Token | Out(s', u) && s'.holders[u].mode.Exclusive? ensures s'.exclusive == Some(u) { assert Out(s, u); }
  }

  lemma SendTyped(s: Session, t: Token, command: Command, encodes: bool)
    requires Typed(s) && MaySend(s, t, command)
    ensures Typed(Send(s, t, command, encodes))
  {}

  lemma SendBacked(s: Session, t: Token, command: Command, encodes: bool)
    requires Backed(s) && MaySend(s, t, command)
    ensures Backed(Send(s, t, command, encodes))
  {
    var s' := Send(s, t, command, encodes);
    OthersStillBack(s, s', t);
    assert if command.Attach? then AtAttach(s', t, |s.requests|) else AtReconcile(s', t, |s.requests|);
  }

  lemma SendQuiet(s: Session, t: Token, command: Command, encodes: bool)
    requires Quiet(s) && Typed(s) && Draining(s) && MaySend(s, t, command)
    ensures Quiet(Send(s, t, command, encodes))
  {
    var s' := Send(s, t, command, encodes);
    forall u: Token, p: PromiseId | AtAttach(s', u, p) && p < |s'.requests| ensures s'.requests[p].status.Rejected? {
      if u != t {
        assert AtAttach(s, u, p) && TypedHolder(s.requests, s.generation, s.holders[u]);
      }
    }
  }

  lemma SendExcludes(s: Session, t: Token, command: Command, encodes: bool)
    requires Exclusion(s) && Out(s, t) && MaySend(s, t, command)
    ensures Exclusion(Send(s, t, command, encodes))
  {}

  lemma SendIsSound(s: Session, t: Token, command: Command, encodes: bool)
    requires Sound(s) && MaySend(s, t, command)
    ensures Sound(Send(s, t, command, encodes))
  {
    var s' := Send(s, t, command, encodes);
    SuspendedIsOut(s, t);
    SendCounted(s, t, command, encodes);
    SendTyped(s, t, command, encodes);
    SendBacked(s, t, command, encodes);
    SendSpoils(s, t, command, encodes);
    hide Counted, Backed, Outstanding, Typed, Quiet, Exclusion, Send;
    if Draining(s) {
      SendQuiet(s, t, command, encodes);
    } else {
      SendExcludes(s, t, command, encodes);
    }
  }

  lemma SendSpoils(s: Session, t: Token, command: Command, encodes: bool)
    requires Typed(s) && MaySend(s, t, command)
    ensures Draining(Send(s, t, command, encodes)) <==> Draining(s)
  {
    var s' := Send(s, t, command, encodes);
    forall u: Token ensures Spoils(s', u) <==> Spoils(s, u) {
      if u < |s.holders| { assert TypedHolder(s.requests, s.generation, s.holders[u]); }
    }
  }

  /** `acquireSession` from its attachment check, and from its cleanup check. */
  lemma AttachOrLeaseIsSound(s: Session, t: Token, reconciled: bool, encodes: bool)
    requires Sound(s) && t < |s.holders| && s.holders[t].phase.Running? && !s.cleanup && (Draining(s) ==> !s.connected)
    ensures Sound(AttachOrLease(s, t, reconciled, encodes))
  {
    if reconciled || !s.attached {
      if s.attachment.Some? { MoveIsSound(s, t, OnAttach(s.attachment.value)); }
      else { SendIsSound(s, t, Attach, encodes); }
    } else {
      MoveIsSound(s, t, Held(s.generation));
    }
  }

  lemma ReconcileOrAttachIsSound(s: Session, t: Token, encodes: bool)
    requires Sound(s) && t < |s.holders| && s.holders[t].phase.Running? && (Draining(s) ==> !s.connected)
    ensures Sound(ReconcileOrAttach(s, t, encodes))
  {
    if s.cleanup {
      if s.reconciliation.Some? { MoveIsSound(s, t, OnReconcile(s.reconciliation.value)); }
      else { SendIsSound(s, t, Detach, encodes); }
    } else {
      AttachOrLeaseIsSound(s, t, false, encodes);
    }
  }

  // A suspended call that runs again.

  /** A suspended call that is about to run: a failed release of the current generation, or one whose
      promise has settled, unless it is stale and spent. */
  ghost predicate MayResume(s: Session, t: Token) {
    && t < |s.holders| && !(Stale(s, t) && Spent(s, t))
    && (s.holders[t].phase.Failing? || CanWake(s, t))
  }

  lemma ResumeCounted(s: Session, t: Token)
    requires Counted(s) && MayResume(s, t)
    ensures Counted(Resume(s, t))
  {
    var s' := Resume(s, t);
    ResumedHasSettled(s, t);
    ResumeFrame(s, t);
    hide Resume, MayResume, CanWake;
    assert forall u: Token :: Out(s', u) <==> Out(s, u);
    assert Outstanding(s') == Outstanding(s);
  }

  /** What `MayResume` leaves to know about the promise the holder waited for. */
  lemma ResumedHasSettled(s: Session, t: Token)
    requires MayResume(s, t)
    ensures s.holders[t].phase.OnAttach? || s.holders[t].phase.Releasing? ==> IsSettled(s, s.holders[t].phase.p)
    ensures s.holders[t].phase.OnReconcile? ==> s.reconciliation != Some(s.holders[t].phase.p)
    ensures s.holders[t].phase.OnDetach? ==>
            forall u: Token :: u < |s.holders| ==> !AwaitsRelease(s.holders[u], s.holders[t].phase.p)
    ensures Suspended(s.holders[t].phase) && !s.holders[t].phase.Running?
  {}

  /** What `Resume` changes. */
  lemma ResumeFrame(s: Session, t: Token)
    requires t < |s.holders|
    ensures var s' := Resume(s, t);
      && s'.requests == s.requests && s'.generation == s.generation && s'.connected == s.connected
      && s'.count == s.count && s'.exclusive == s.exclusive && s'.reconciliation == s.reconciliation
      && s'.cleanup == s.cleanup && |s'.holders| == |s.holders|
      && (forall u: Token :: u < |s.holders| && u != t ==> s'.holders[u] == s.holders[u])
      && s'.holders[t] == s.holders[t].(phase := Running)
      && s'.attachment ==
         (if s.holders[t].phase.OnAttach? && s.attachment == Some(s.holders[t].phase.p) then None else s.attachment)
      && s'.detachment ==
         (if s.holders[t].phase.Releasing? && s.detachment == Some(s.holders[t].phase.p) then None else s.detachment)
  {}

  lemma ResumeAt(s: Session, t: Token)
    requires t < |s.holders|
    ensures var s' := Resume(s, t);
      && (forall u: Token, p: PromiseId :: AtAttach(s', u, p) <==> AtAttach(s, u, p) && u != t)
      && (forall u: Token, p: PromiseId :: AtReconcile(s', u, p) <==> AtReconcile(s, u, p) && u != t)
      && (forall u: Token, p: PromiseId :: AtRelease(s', u, p) <==> AtRelease(s, u, p) && u != t)
  {
    ResumeFrame(s, t);
    hide Resume;
  }

  lemma ResumeBacked(s: Session, t: Token)
    requires Backed(s) && MayResume(s, t)
    ensures Backed(Resume(s, t))
  {
    var s' := Resume(s, t);
    ResumedHasSettled(s, t);
    ResumeFrame(s, t);
    ResumeAt(s, t);
    assert s.holders[t].phase.Releasing? ==>
      AtRelease(s, t, s.holders[t].phase.p) && s.detachment == Some(s.holders[t].phase.p);
    assert s.attachment.Some? && AtAttach(s, t, s.attachment.value) ==> s'.attachment.None?;
    assert s.detachment.Some? && AtRelease(s, t, s.detachment.value) ==> s'.detachment.None?;
    assert s.reconciliation.Some? ==> !AtReconcile(s, t, s.reconciliation.value);
    hide CanWake, MayResume, Resume, AtAttach, AtReconcile, AtRelease;
    forall u: Token, p: PromiseId | AtRelease(s', u, p) && !(Stale(s', u) && IsRejected(s', p))
      ensures s'.detachment == Some(p)
    {
      assert AtRelease(s, u, p) && (Stale(s, u) ==> Stale(s', u));
    }
  }

  lemma ResumeQuiet(s: Session, t: Token)
    requires Quiet(s) && MayResume(s, t)
    ensures Quiet(Resume(s, t))
  {
    var s' := Resume(s, t);
    forall u: Token, p: PromiseId | AtAttach(s', u, p) ensures AtAttach(s, u, p) {}
    forall u: Token | Returning(s', u) ensures Returning(s, u) {}
  }

  lemma ResumeExcludes(s: Session, t: Token)
    requires Exclusion(s) && Backed(s) && Out(s, t) && MayResume(s, t)
    ensures Exclusion(Resume(s, t))
    ensures !s.holders[t].phase.OnDetach? && !s.holders[t].phase.OnReconcile? && s.cleanup ==>
      s.holders[t].mode.Exclusive?
    ensures s.holders[t].phase.OnAttach? ==> !s.cleanup
    ensures s.holders[t].phase.OnReconcile? && IsSettled(s, s.holders[t].phase.p) ==>
            s.requests[s.holders[t].phase.p].status.Rejected? || !s.cleanup
  {
    var s' := Resume(s, t);
    ResumedHasSettled(s, t);
    ResumeFrame(s, t);
    hide Resume, MayResume, Backed;
    forall u: Token | Out(s', u) ensures Out(s, u) {}
    forall u: Token | Out(s, u) && u != t ensures !Claims(s.holders[u].phase) {
      if s.holders[t].phase.OnDetach? { assert !AwaitsRelease(s.holders[u], s.holders[t].phase.p); }
    }
    if s.cleanup { assert Reconciles(s, s.holders[t].phase) || Owns(s.holders[t]); }
  }

  lemma ResumeTyped(s: Session, t: Token)
    requires Typed(s) && t < |s.holders|
    ensures Typed(Resume(s, t))
  {
    var s' := Resume(s, t);
    ResumeFrame(s, t);
    hide Resume;
    forall u: Token | u < |s'.holders| ensures TypedHolder(s'.requests, s'.generation, s'.holders[u]) {
      assert TypedHolder(s.requests, s.generation, s.holders[u]);
    }
  }

  lemma ResumeStale(s: Session, t: Token)
    requires MayResume(s, t)
    ensures forall u: Token :: Stale(Resume(s, t), u) <==> Stale(s, u)
    ensures Draining(Resume(s, t)) <==> Draining(s)
  {
    var s' := Resume(s, t);
    ResumeFrame(s, t);
    ResumedHasSettled(s, t);
    hide CanWake, Resume;
    forall u: Token ensures Spoils(s', u) <==> Spoils(s, u) {}
  }

  lemma ResumeIsSound(s: Session, t: Token)
    requires Sound(s) && MayResume(s, t)
    ensures Sound(Resume(s, t)) && (Draining(s) <==> Draining(Resume(s, t)))
    ensures Draining(s) && Returning(s, t) ==> !s.connected
    ensures !s.holders[t].phase.OnDetach? && !s.holders[t].phase.OnReconcile? && s.cleanup ==>
      s.holders[t].mode.Exclusive?
    ensures s.holders[t].phase.OnAttach? ==> !s.cleanup
    ensures s.holders[t].phase.OnReconcile? && IsSettled(s, s.holders[t].phase.p) ==>
            s.requests[s.holders[t].phase.p].status.Rejected? || !s.cleanup
  {
    ResumedHasSettled(s, t);
    SuspendedIsOut(s, t);
    ResumeCounted(s, t);
    ResumeBacked(s, t);
    ResumeTyped(s, t);
    ResumeStale(s, t);
    ResumeFrame(s, t);
    ResumeLink(s, t);
    if Draining(s) { ResumeQuiet(s, t); } else { ResumeExcludes(s, t); }
    assert Draining(s) && Returning(s, t) ==> !s.connected;
    hide *;
  }

  lemma ResumeLink(s: Session, t: Token)
    requires t < |s.holders|
    ensures Resume(s, t).attached == s.attached && Resume(s, t).connected == s.connected
  {}

  // ---------- The actions ----------

  /** A new reservation, admitted while nothing drains and no failed dispose is about to be handled. */
  lemma ReserveCounted(s: Session, mode: Mode)
    requires Typed(s) && Counted(s) && Admits(s, mode)
    ensures Counted(Reserve(s, mode))
  {
    var s' := Reserve(s, mode);
    assert |s.holders| !in Outstanding(s);
    assert Outstanding(s') == Outstanding(s) + {|s.holders|};
    forall u: Token | Out(s', u) && s'.holders[u].mode.Exclusive? ensures s'.exclusive == Some(u) {
      assert u < |s.holders| ==> (Out(s, u) <==> u in Outstanding(s));
    }
  }

  lemma ReserveTyped(s: Session, mode: Mode)
    requires Typed(s)
    ensures Typed(Reserve(s, mode))
  {}

  lemma ReserveBacked(s: Session, mode: Mode)
    requires Backed(s)
    ensures Backed(Reserve(s, mode))
  {
    var s' := Reserve(s, mode);
    assert forall u: Token, p: PromiseId :: AtAttach(s, u, p) <==> AtAttach(s', u, p);
    assert forall u: Token, p: PromiseId :: AtReconcile(s, u, p) <==> AtReconcile(s', u, p);
    assert forall u: Token, p: PromiseId :: AtRelease(s, u, p) <==> AtRelease(s', u, p);
  }

  /** A reservation made now is the only thing the new state adds. */
  lemma ReserveIsSound(s: Session, mode: Mode)
    requires Sound(s) && Admits(s, mode) && !Draining(s)
    requires forall u: Token :: Out(s, u) ==> !Claims(s.holders[u].phase)
    ensures Sound(Reserve(s, mode)) && !Draining(Reserve(s, mode))
  {
    var s' := Reserve(s, mode);
    ReserveCounted(s, mode);
    ReserveTyped(s, mode);
    ReserveBacked(s, mode);
    assert forall u: Token :: Spoils(s', u) ==> Spoils(s, u);
    hide Counted, Backed, Outstanding, Typed;
    forall u: Token | Out(s', u) ensures u == |s.holders| || Out(s, u) {}
  }

  lemma ReserveBehindDetachExcludes(s: Session, mode: Mode)
    requires Exclusion(s) && Backed(s) && s.detachment.Some? && Admits(s, mode) && Counted(s)
    requires forall u: Token :: !Relinquishes(s, u)
    ensures Exclusion(SetPhase(Reserve(s, mode), |s.holders|, OnDetach(s.detachment.value)))
  {
    var s' := SetPhase(Reserve(s, mode), |s.holders|, OnDetach(s.detachment.value));
    forall u: Token | Out(s', u) ensures u == |s.holders| || Out(s, u) {}
    forall u: Token | Out(s, u) && Claims(s.holders[u].phase) ensures s.holders[u].phase.p == s.detachment.value {
      assert !Relinquishes(s, u);
      assert AtRelease(s, u, s.holders[u].phase.p);
    }
    forall u: Token | s'.cleanup && Out(s', u) ensures Reconciles(s', s'.holders[u].phase) || Owns(s'.holders[u]) {
      if u < |s.holders| { assert Reconciles(s, s.holders[u].phase) || Owns(s.holders[u]); }
    }
  }

  lemma ReserveBehindDetachIsSound(s: Session, mode: Mode)
    requires Sound(s) && Admits(s, mode) && !Draining(s) && s.detachment.Some?
    requires forall u: Token :: !Relinquishes(s, u)
    ensures Sound(SetPhase(Reserve(s, mode), |s.holders|, OnDetach(s.detachment.value)))
  {
    var t := |s.holders|;
    var s1 := Reserve(s, mode);
    var s' := SetPhase(s1, t, OnDetach(s.detachment.value));
    ReserveCounted(s, mode);
    ReserveTyped(s, mode);
    ReserveBacked(s, mode);
    ReserveBehindDetachExcludes(s, mode);
    MoveCounted(s1, t, OnDetach(s.detachment.value));
    BehindDetachBacked(s1, t);
    assert Typed(s');
    assert forall u: Token :: Spoils(s', u) ==> Spoils(s, u);
    hide Counted, Backed, Outstanding, Typed, Exclusion;
  }

  lemma BehindDetachBacked(s: Session, t: Token)
    requires Backed(s) && t < |s.holders| && s.holders[t].phase.Running? && s.detachment.Some?
    ensures Backed(SetPhase(s, t, OnDetach(s.detachment.value)))
  {
    OthersStillBack(s, SetPhase(s, t, OnDetach(s.detachment.value)), t);
  }

  lemma AcquireIsSound(s: Session, mode: Mode, encodes: bool)
    requires Sound(s) && Enabled(s, Acquire(mode, encodes)) && Calm(s, Acquire(mode, encodes))
    ensures Sound(Step(s, Acquire(mode, encodes)))
  {
    if s.detachment.Some? {
      ReserveBehindDetachIsSound(s, mode);
    } else {
      forall u: Token | Out(s, u) ensures !Claims(s.holders[u].phase) {
        assert !Relinquishes(s, u);
        if s.holders[u].phase.Releasing? { assert AtRelease(s, u, s.holders[u].phase.p); }
      }
      ReserveIsSound(s, mode);
      ReconcileOrAttachIsSound(Reserve(s, mode), |s.holders|, encodes);
    }
  }

  lemma CreateIsSound(s: Session)
    requires Sound(s) && Enabled(s, Create) && Calm(s, Create)
    ensures Sound(Step(s, Create))
  {
    forall u: Token ensures !Out(s, u) { assert u !in Outstanding(s); }
    ReserveIsSound(s, Exclusive);
    MoveIsSound(Reserve(s, Exclusive), |s.holders|, Held(s.generation));
  }

  /** The release whose detach request failed, between its own throw and its handler. */
  ghost function Fail(s: Session, t: Token): Session
    requires t < |s.holders| && s.holders[t].phase.Releasing?
  {
    var Releasing(g, p, relinquish) := s.holders[t].phase;
    SetPhase(Resume(s, t), t, Failing(g, p, relinquish))
  }

  lemma FailExcludes(s: Session, t: Token)
    requires Exclusion(s) && t < |s.holders| && s.holders[t].phase.Releasing?
    ensures Exclusion(Fail(s, t))
  {}

  /** What `Fail` changes. */
  lemma FailFrame(s: Session, t: Token)
    requires t < |s.holders| && s.holders[t].phase.Releasing?
    ensures var s' := Fail(s, t);
      && s' == s.(holders := s'.holders, detachment := if s.detachment == Some(s.holders[t].phase.p) then None
         else s.detachment)
      && |s'.holders| == |s.holders|
      && (forall u: Token :: u < |s.holders| && u != t ==> s'.holders[u] == s.holders[u])
      && s'.holders[t] == s.holders[t].(phase :=
         Failing(s.holders[t].phase.generation, s.holders[t].phase.p, s.holders[t].phase.relinquish))
  {}

  lemma FailCounted(s: Session, t: Token)
    requires Counted(s) && t < |s.holders| && s.holders[t].phase.Releasing?
    ensures Counted(Fail(s, t))
  {
    var s' := Fail(s, t);
    FailFrame(s, t);
    hide Fail;
    assert forall u: Token :: Out(s', u) <==> Out(s, u);
    assert Outstanding(s') == Outstanding(s);
  }

  lemma FailBacked(s: Session, t: Token)
    requires Typed(s) && Backed(s) && t < |s.holders| && s.holders[t].phase.Releasing?
      && IsRejected(s, s.holders[t].phase.p)
    ensures Typed(Fail(s, t)) && Backed(Fail(s, t))
  {
    var s' := Fail(s, t);
    FailFrame(s, t);
    hide Fail;
    assert Typed(s') by {
      forall u: Token | u < |s'.holders| ensures TypedHolder(s'.requests, s'.generation, s'.holders[u]) {
        assert TypedHolder(s.requests, s.generation, s.holders[u]);
      }
    }
    FailAt(s, t);
    forall u: Token, p: PromiseId | AtRelease(s', u, p) && !(Stale(s', u) && IsRejected(s', p))
      ensures s'.detachment == Some(p)
    {
      assert AtRelease(s, u, p) && (Stale(s, u) <==> Stale(s', u));
      assert AtRelease(s, t, s.holders[t].phase.p);
    }
    if s'.detachment.Some? {
      var u: Token :| AtRelease(s, u, s.detachment.value);
      assert AtRelease(s', u, s.detachment.value);
    }
  }

  lemma FailAt(s: Session, t: Token)
    requires t < |s.holders| && s.holders[t].phase.Releasing?
    ensures var s' := Fail(s, t);
      && (forall u: Token, p: PromiseId :: AtAttach(s', u, p) <==> AtAttach(s, u, p))
      && (forall u: Token, p: PromiseId :: AtReconcile(s', u, p) <==> AtReconcile(s, u, p))
      && (forall u: Token, p: PromiseId :: AtRelease(s', u, p) <==> AtRelease(s, u, p) && u != t)
  {
    FailFrame(s, t);
    hide Fail;
  }

  lemma FailIsSound(s: Session, t: Token)
    requires Sound(s) && CanWake(s, t) && s.holders[t].phase.Releasing? && IsRejected(s, s.holders[t].phase.p)
    ensures Sound(Fail(s, t))
  {
    var s' := Fail(s, t);
    FailFrame(s, t);
    FailCounted(s, t);
    FailBacked(s, t);
    FailAt(s, t);
    if !Draining(s) { FailExcludes(s, t); }
    assert forall u: Token :: Spoils(s', u) <==> Spoils(s, u);
    assert forall u: Token :: Returning(s', u) <==> Returning(s, u);
    hide Counted, Backed, Outstanding, Typed, Exclusion, Fail, CanWake, Spoils, Returning;
  }

  lemma WakeIsSound(s: Session, t: Token, encodes: bool)
    requires Sound(s) && CanWake(s, t)
    ensures Sound(WakeHolder(s, t, encodes))
  {
    if s.holders[t].phase.Releasing? && !s.requests[s.holders[t].phase.p].status.Fulfilled? {
      FailIsSound(s, t);
    } else {
      var r := Resume(s, t);
      ResumeIsSound(s, t);
      ResumeFrame(s, t);
      ResumedHasSettled(s, t);
      match s.holders[t].phase
      case OnDetach(_) => ReconcileOrAttachIsSound(r, t, encodes);
      case OnReconcile(p) =>
        if s.requests[p].status.Fulfilled? { AttachOrLeaseIsSound(r, t, true, encodes); } else {
          GiveBackIsSound(r, t);
        }
      case OnAttach(p) =>
        if s.requests[p].status.Fulfilled? {
          assert AtAttach(s, t, p);
          MoveIsSound(r, t, Held(r.generation));
        } else {
          GiveBackIsSound(r, t);
        }
      case Releasing(g, p, relinquish) => GiveBackIsSound(r, t);
    }
  }

  lemma RelinquishExcludes(s: Session, t: Token)
    requires Exclusion(s) && Out(s, t) && Relinquishes(s, t)
    ensures Exclusion(GiveBack(s, t).(cleanup := true))
  {}

  lemma RelinquishIsSound(s: Session, t: Token)
    requires Sound(s) && Relinquishes(s, t) && Sound(GiveBack(s, t)) && Out(s, t) && !Draining(s)
    ensures Sound(GiveBack(s, t).(cleanup := true))
  {
    var g, s' := GiveBack(s, t), GiveBack(s, t).(cleanup := true);
    RelinquishExcludes(s, t);
    assert forall u: Token :: Spoils(g, u) ==> Spoils(s, u);
    SameHolders(g, s');
    SameCalls(g, s');
    hide GiveBack, Exclusion;
  }

  /** The handler of a stale release only notices that the lease is gone. */
  lemma DropSpent(s: Session, t: Token)
    requires Sound(s) && Stale(s, t) && s.holders[t].phase.Failing?
    ensures Sound(SetPhase(s, t, Gone))
  {
    var s' := SetPhase(s, t, Gone);
    assert Outstanding(s') == Outstanding(s);
    assert forall u: Token :: Out(s', u) <==> Out(s, u);
    assert Counted(s') && Typed(s');
    DropBacked(s, t);
    assert forall u: Token :: Spoils(s', u) <==> Spoils(s, u);
    assert forall u: Token :: Returning(s', u) <==> Returning(s, u);
    assert forall u: Token, p: PromiseId :: AtAttach(s', u, p) <==> AtAttach(s, u, p);
    hide Counted, Backed, Outstanding, Typed, Spoils, Returning;
  }

  lemma DropBacked(s: Session, t: Token)
    requires Backed(s) && t < |s.holders| && s.holders[t].phase.Failing?
    ensures Backed(SetPhase(s, t, Gone))
  {
    var s' := SetPhase(s, t, Gone);
    forall u: Token, p: PromiseId
      ensures AtAttach(s', u, p) <==> AtAttach(s, u, p)
      ensures AtReconcile(s', u, p) <==> AtReconcile(s, u, p)
      ensures AtRelease(s', u, p) <==> AtRelease(s, u, p)
    {}
    if s.attachment.Some? {
      var u: Token :| AtAttach(s, u, s.attachment.value);
      assert AtAttach(s', u, s'.attachment.value);
    }
    if s.reconciliation.Some? {
      var u: Token :| AtReconcile(s, u, s.reconciliation.value);
      assert AtReconcile(s', u, s'.reconciliation.value);
    }
    if s.detachment.Some? {
      var u: Token :| AtRelease(s, u, s.detachment.value);
      assert AtRelease(s', u, s'.detachment.value);
    }
    forall u: Token, p: PromiseId | AtRelease(s', u, p) && !(Stale(s', u) && IsRejected(s', p))
      ensures s'.detachment == Some(p)
    {
      assert AtRelease(s, u, p) && (Stale(s, u) ==> Stale(s', u)) && (IsRejected(s, p) ==> IsRejected(s', p));
    }
  }

  /** Its own release having failed, the lease is given back or becomes active again. */
  lemma FailedIsSound(s: Session, t: Token)
    requires Sound(s) && t < |s.holders| && s.holders[t].phase.Failing? && s.holders[t].born == s.generation
    ensures Sound(GiveBack(s, t)) && Sound(SetPhase(s, t, Held(s.generation))) && Out(s, t) && !Draining(s)
  {
    var r := Resume(s, t);
    ResumeIsSound(s, t);
    SuspendedIsOut(s, t);
    assert GiveBack(s, t) == GiveBack(r, t);
    assert SetPhase(r, t, Held(s.generation)) == SetPhase(s, t, Held(s.generation));
    hide Sound, Draining;
    GiveBackIsSound(r, t);
    MoveIsSound(r, t, Held(s.generation));
  }

  lemma HandleIsSound(s: Session, t: Token)
    requires Sound(s) && t < |s.holders| && s.holders[t].phase.Failing?
    ensures Sound(Step(s, Handle(t)))
  {
    var phase := s.holders[t].phase;
    assert TypedHolder(s.requests, s.generation, s.holders[t]);
    hide Sound, Draining, GiveBack;
    if phase.generation != s.generation {
      DropSpent(s, t);
    } else {
      FailedIsSound(s, t);
      if phase.relinquish { RelinquishIsSound(s, t); }
    }
  }

  // The remaining actions touch no holder, or the lease that is released.

  lemma SameHolders(s: Session, s': Session)
    requires s'.holders == s.holders && s'.generation == s.generation
    ensures forall u: Token :: Out(s', u) <==> Out(s, u)
    ensures forall u: Token :: Stale(s', u) <==> Stale(s, u)
    ensures Outstanding(s') == Outstanding(s)
    ensures forall u: Token, p: PromiseId :: AtAttach(s, u, p) <==> AtAttach(s', u, p)
    ensures forall u: Token, p: PromiseId :: AtReconcile(s, u, p) <==> AtReconcile(s', u, p)
    ensures forall u: Token, p: PromiseId :: AtRelease(s, u, p) <==> AtRelease(s', u, p)
  {}

  lemma SameCalls(s: Session, s': Session)
    requires s'.holders == s.holders && s'.generation == s.generation && s'.requests == s.requests
    ensures Draining(s') <==> Draining(s)
    ensures forall u: Token :: Returning(s', u) <==> Returning(s, u)
  {
    assert forall u: Token :: Spoils(s', u) <==> Spoils(s, u);
  }

  lemma FinishIsSound(s: Session)
    requires Sound(s) && Enabled(s, FinishReconcile)
    ensures Sound(Step(s, FinishReconcile))
  {
    SameHolders(s, Step(s, FinishReconcile));
    SameCalls(s, Step(s, FinishReconcile));
  }

  lemma SameTyping(s: Session, s': Session)
    requires Typed(s) && s'.holders == s.holders && s'.generation == s.generation
    requires |s.requests| <= |s'.requests| && forall p :: 0 <= p < |s.requests| ==>
      s'.requests[p].command == s.requests[p].command
    requires s'.attachment == s.attachment && s'.detachment == s.detachment && s'.reconciliation == s.reconciliation
    ensures Typed(s')
  {}

  /** Requests only settle: nobody starts to spoil, and nobody who was refused returns. */
  lemma SettlingSpoilsNothing(s: Session, s': Session)
    requires s'.holders == s.holders && s'.generation == s.generation
    requires forall p: PromiseId :: IsRejected(s, p) ==> IsRejected(s', p)
    ensures forall u: Token :: Spoils(s', u) ==> Spoils(s, u)
    ensures forall u: Token :: Returning(s', u) ==> Returning(s, u)
  {}

  lemma AnswerBacked(s: Session, p: PromiseId, ok: bool, attached: bool)
    requires Backed(s) && Enabled(s, Answer(p, ok, attached))
    ensures Backed(Step(s, Answer(p, ok, attached)))
  {
    var s' := Step(s, Answer(p, ok, attached));
    SameHolders(s, s');
    hide Out, Outstanding;
    forall u: Token, q: PromiseId | AtRelease(s', u, q) && !(Stale(s', u) && IsRejected(s', q))
      ensures s'.detachment == Some(q)
    {
      assert AtRelease(s, u, q) && (IsRejected(s, q) ==> IsRejected(s', q));
    }
  }

  lemma AnswerIsSound(s: Session, p: PromiseId, ok: bool, attached: bool)
    requires Sound(s) && Enabled(s, Answer(p, ok, attached))
    ensures Sound(Step(s, Answer(p, ok, attached)))
  {
    var s' := Step(s, Answer(p, ok, attached));
    SameHolders(s, s');
    SameTyping(s, s');
    SettlingSpoilsNothing(s, s');
    AnswerBacked(s, p, ok, attached);
    assert s.connected && Counted(s');
    hide Counted, Outstanding, Typed, Backed;
    if Draining(s) {
      if !Draining(s') { EmptyExcludes(s'); }
    } else if s'.cleanup {
      forall u: Token | Out(s', u) ensures Reconciles(s', s'.holders[u].phase) || Owns(s'.holders[u]) {
        assert Reconciles(s, s.holders[u].phase) || Owns(s.holders[u]);
      }
    }
  }

  lemma ServerSaysIsSound(s: Session, attached: bool)
    requires Sound(s) && s.connected
    ensures Sound(Step(s, ServerSays(attached)))
  {
    SameHolders(s, Step(s, ServerSays(attached)));
    SameCalls(s, Step(s, ServerSays(attached)));
  }

  /** In a good state, what still returns after an invalidation is stale. */
  lemma ConnectIsSound(s: Session, attached: bool)
    requires Sound(s) && Enabled(s, Connect(attached)) && Calm(s, Connect(attached))
    ensures Sound(Step(s, Connect(attached)))
  {
    var s' := Step(s, Connect(attached));
    SameHolders(s, s');
    SameCalls(s, s');
    if Draining(s) {
      forall u: Token ensures !Returning(s, u) {
        if Returning(s, u) { SuspendedIsOut(s, u); }
      }
    }
    hide Returning, Spoils;
  }

  /** Nobody else is around when the last reservation is an active lease. */
  lemma LastIsAlone(s: Session, t: Token)
    requires Sound(s) && IsActive(s, t) && s.count <= 1
    ensures Outstanding(s) == {t} && !Draining(s) && (s.cleanup ==> s.holders[t].mode.Exclusive?)
    ensures forall u: Token :: u < |s.holders| && u != t && Suspended(s.holders[u].phase) ==> Stale(s, u) && Spent(s, u)
    ensures s.attachment.None? && s.reconciliation.None?
    ensures s.detachment.Some? ==> IsRejected(s, s.detachment.value)
    ensures forall p: PromiseId :: p < |s.requests| ==> !s.requests[p].status.Pending?
  {
    assert TypedHolder(s.requests, s.generation, s.holders[t]);
    assert Out(s, t) && t in Outstanding(s);
    forall u: Token | u in Outstanding(s) ensures u == t { AtMostOne(Outstanding(s), t, u); }
    forall u: Token | u < |s.holders| && u != t && Suspended(s.holders[u].phase) ensures Stale(s, u) && Spent(s, u) {
      SuspendedIsOut(s, u);
      assert Out(s, u) <==> u in Outstanding(s);
    }
    assert !Reconciles(s, s.holders[t].phase);
    SlotsOfSpent(s, t);
  }

  lemma SlotsOfSpent(s: Session, t: Token)
    requires Backed(s) && t < |s.holders| && s.holders[t].phase.Held?
    requires forall u: Token :: u < |s.holders| && u != t && Suspended(s.holders[u].phase) ==>
      Stale(s, u) && Spent(s, u)
    ensures s.attachment.None? && s.reconciliation.None?
    ensures s.detachment.Some? ==> IsRejected(s, s.detachment.value)
    ensures forall p: PromiseId :: p < |s.requests| ==> !s.requests[p].status.Pending?
  {
    if s.attachment.Some? {
      var u: Token :| AtAttach(s, u, s.attachment.value); assert Suspended(s.holders[u].phase) && u != t;
    }
    if s.reconciliation.Some? {
      var u: Token :| AtReconcile(s, u, s.reconciliation.value); assert Suspended(s.holders[u].phase) && u != t;
    }
    if s.detachment.Some? {
      var u: Token :| AtRelease(s, u, s.detachment.value); assert Suspended(s.holders[u].phase) && u != t;
    }
  }

  ghost function Detaching(s: Session, t: Token, relinquish: bool, encodes: bool): Session
    requires t < |s.holders|
  {
    SetPhase(Issue(s, Detach, encodes).(detachment := Some(|s.requests|)), t,
      Releasing(s.generation, |s.requests|, relinquish))
  }

  lemma DetachingBacked(s: Session, t: Token, relinquish: bool, encodes: bool)
    requires Backed(s) && Typed(s) && t < |s.holders| && s.holders[t].phase == Held(s.generation)
      && s.holders[t].born == s.generation
    requires forall u: Token :: u < |s.holders| && u != t && Suspended(s.holders[u].phase) ==>
      Stale(s, u) && Spent(s, u)
    ensures Backed(Detaching(s, t, relinquish, encodes)) && Typed(Detaching(s, t, relinquish, encodes))
    ensures !Draining(Detaching(s, t, relinquish, encodes))
  {
    var s', p := Detaching(s, t, relinquish, encodes), |s.requests|;
    SlotsOfSpent(s, t);
    assert Typed(s') by {
      forall u: Token | u < |s'.holders| ensures TypedHolder(s'.requests, s'.generation, s'.holders[u]) {
        assert TypedHolder(s.requests, s.generation, s.holders[u]);
      }
    }
    assert AtRelease(s', t, p);
    forall u: Token, q: PromiseId | AtRelease(s', u, q) && u != t
      ensures AtRelease(s, u, q) && q < p && Stale(s', u) && IsRejected(s', q)
    {
      assert TypedHolder(s.requests, s.generation, s.holders[u]);
      assert Stale(s, u) && Spent(s, u);
    }
    forall u: Token ensures !Spoils(s', u) {
      if u < |s.holders| && u != t && Suspended(s.holders[u].phase) {
        assert TypedHolder(s.requests, s.generation, s.holders[u]) && Spent(s, u);
      }
    }
  }

  lemma ReleaseLastIsSound(s: Session, t: Token, relinquish: bool, encodes: bool)
    requires Sound(s) && IsActive(s, t) && s.count <= 1
    ensures Sound(Step(s, Release(t, relinquish, encodes)))
  {
    var s' := Step(s, Release(t, relinquish, encodes));
    assert s' == Detaching(s, t, relinquish, encodes);
    LastIsAlone(s, t);
    assert TypedHolder(s.requests, s.generation, s.holders[t]);
    DetachingBacked(s, t, relinquish, encodes);
    assert Outstanding(s') == Outstanding(s);
    forall u: Token ensures Out(s', u) <==> u == t { assert Out(s', u) <==> u in Outstanding(s'); }
    assert Counted(s') by { assert s.exclusive.Some? ==> s.exclusive.value in Outstanding(s); }
    hide Backed, Typed, Counted, Outstanding;
  }

  lemma HeldRunsIsSound(s: Session, t: Token)
    requires Sound(s) && IsActive(s, t)
    ensures Sound(SetPhase(s, t, Running)) && Out(s, t)
  {
    var s' := SetPhase(s, t, Running);
    assert TypedHolder(s.requests, s.generation, s.holders[t]);
    assert Out(s, t) && t in Outstanding(s);
    assert Typed(s');
    assert Outstanding(s') == Outstanding(s);
    assert forall u: Token :: Out(s', u) <==> Out(s, u);
    assert Counted(s');
    HeldRunsBacked(s, t);
    assert forall u: Token :: Spoils(s', u) ==> Spoils(s, u);
    hide Counted, Backed, Outstanding, Typed, Spoils;
  }

  lemma HeldRunsBacked(s: Session, t: Token)
    requires Backed(s) && t < |s.holders| && s.holders[t].phase.Held? && s.holders[t].born == s.generation
    ensures Backed(SetPhase(s, t, Running))
  {
    var s' := SetPhase(s, t, Running);
    assert forall u: Token, p: PromiseId :: AtAttach(s, u, p) <==> AtAttach(s', u, p);
    assert forall u: Token, p: PromiseId :: AtReconcile(s, u, p) <==> AtReconcile(s', u, p);
    assert forall u: Token, p: PromiseId :: AtRelease(s, u, p) <==> AtRelease(s', u, p);
  }

  lemma ReleaseIsSound(s: Session, t: Token, relinquish: bool, encodes: bool)
    requires Sound(s) && IsActive(s, t)
    ensures Sound(Step(s, Release(t, relinquish, encodes)))
  {
    if s.count <= 1 {
      ReleaseLastIsSound(s, t, relinquish, encodes);
    } else {
      HeldRunsIsSound(s, t);
      GiveBackIsSound(SetPhase(s, t, Running), t);
      assert GiveBack(SetPhase(s, t, Running), t) == GiveBack(s, t);
    }
  }

  lemma InvalidatedCounted(s: Session)
    requires Typed(s)
    ensures Outstanding(Invalidate(s)) == {} && Counted(Invalidate(s))
    ensures forall u: Token :: !Out(Invalidate(s), u)
  {}

  lemma InvalidatedTyped(s: Session)
    requires Typed(s)
    ensures Typed(Invalidate(s))
  {}

  lemma InvalidatedBacked(s: Session)
    requires Backed(s) && Typed(s)
    ensures Backed(Invalidate(s))
    ensures forall u: Token :: Returning(Invalidate(s), u) <==> Returning(s, u)
    ensures forall u: Token, p: PromiseId :: AtAttach(s, u, p) <==> AtAttach(Invalidate(s), u, p)
  {
    var s' := Invalidate(s);
    assert forall u: Token, p: PromiseId :: AtAttach(s, u, p) <==> AtAttach(s', u, p);
    assert forall u: Token, p: PromiseId :: AtReconcile(s, u, p) <==> AtReconcile(s', u, p);
    assert forall u: Token, p: PromiseId :: AtRelease(s, u, p) <==> AtRelease(s', u, p);
    forall u: Token | Stale(s, u) ensures Stale(s', u) { assert TypedHolder(s.requests, s.generation, s.holders[u]); }
  }

  /** A session that has just been invalidated is good if no attach request can still succeed, and with a
      connection no acquire returns. */
  lemma InvalidatedIsSound(s: Session)
    requires Typed(s) && Backed(s) && (s.attached ==> s.connected)
    requires forall t: Token, p: PromiseId :: AtAttach(s, t, p) ==> IsRejected(s, p)
    requires s.connected ==> forall t: Token :: !Returning(s, t)
    ensures Sound(Invalidate(s))
  {
    var s' := Invalidate(s);
    InvalidatedCounted(s);
    InvalidatedTyped(s);
    InvalidatedBacked(s);
    hide Typed, Backed, Counted, Returning, Spoils, AtAttach;
    if !Draining(s') { EmptyExcludes(s'); }
  }

  lemma RemovedIsSound(s: Session)
    requires Sound(s) && Enabled(s, Removed) && Calm(s, Removed)
    ensures Sound(Step(s, Removed))
  {
    var s1 := s.(attached := false);
    SameHolders(s, s1);
    SameCalls(s, s1);
    assert Backed(s1) && Typed(s1);
    forall t: Token, p: PromiseId | AtAttach(s1, t, p) ensures IsRejected(s1, p) { assert !Returning(s, t); }
    InvalidatedIsSound(s1);
  }

  lemma CutBacked(s: Session)
    requires Backed(s) && Typed(s)
    ensures var s1 := s.(connected := false, attached := false, requests := RejectPending(s.requests));
      Backed(s1) && Typed(s1)
  {
    var s1 := s.(connected := false, attached := false, requests := RejectPending(s.requests));
    SameHolders(s, s1);
    SameTyping(s, s1);
    hide Out, Outstanding, Typed;
    forall u: Token, q: PromiseId | AtRelease(s1, u, q) && !(Stale(s1, u) && IsRejected(s1, q))
      ensures s1.detachment == Some(q)
    {
      assert AtRelease(s, u, q) && (IsRejected(s, q) ==> IsRejected(s1, q));
    }
  }

  lemma DisconnectIsSound(s: Session)
    requires Sound(s) && Enabled(s, Disconnect) && Calm(s, Disconnect)
    ensures Sound(Step(s, Disconnect))
  {
    var s1 := s.(connected := false, attached := false, requests := RejectPending(s.requests));
    SameHolders(s, s1);
    CutBacked(s);
    SettlingSpoilsNothing(s, s1);
    forall t: Token, p: PromiseId | AtAttach(s1, t, p) ensures IsRejected(s1, p) {
      assert AtAttach(s, t, p) && !AttachAnswered(s, t) && TypedHolder(s.requests, s.generation, s.holders[t]);
    }
    if s.count > 0 {
      InvalidatedIsSound(s1);
    } else {
      var s' := s1.(cleanup := false);
      SameHolders(s1, s');
      SameCalls(s1, s');
      assert Typed(s') && Backed(s') && Counted(s');
      hide Typed, Backed, Counted, Returning, Spoils, AtAttach;
      if !Draining(s') { EmptyExcludes(s'); }
    }
  }

  lemma SoundStep(s: Session, a: Action)
    requires Sound(s) && Enabled(s, a) && Calm(s, a)
    ensures Sound(Step(s, a))
  {
    match a
    case Acquire(mode, encodes) => AcquireIsSound(s, mode, encodes);
    case Create => CreateIsSound(s);
    case Wake(t, encodes) => WakeIsSound(s, t, encodes);
    case Handle(t) => HandleIsSound(s, t);
    case FinishReconcile => FinishIsSound(s);
    case Release(t, relinquish, encodes) => ReleaseIsSound(s, t, relinquish, encodes);
    case Answer(p, ok, attached) => AnswerIsSound(s, p, ok, attached);
    case ServerSays(attached) => ServerSaysIsSound(s, attached);
    case Removed => RemovedIsSound(s);
    case Connect(attached) => ConnectIsSound(s, attached);
    case Disconnect => DisconnectIsSound(s);
  }

  /** What `Slotted` speaks of, after a step that leaves the detachment and the releases alone. */
  lemma SlottedKept(s: Session, s': Session)
    requires Slotted(s) && (s'.cleanup ==> s.cleanup) && s'.generation == s.generation
    requires s'.detachment.None? || s'.detachment == s.detachment
    requires |s.holders| <= |s'.holders|
    requires forall u: Token :: u < |s.holders| ==> s'.holders[u].born == s.holders[u].born
    requires forall u: Token :: u < |s'.holders| && s'.holders[u].phase.Releasing? ==>
               u < |s.holders| && s'.holders[u] == s.holders[u]
    requires forall u: Token, p: PromiseId :: Awaits(s', u, p) ==> Awaits(s, u, p)
    requires forall u: Token :: Relinquishes(s', u) ==> s'.detachment.None? || Relinquishes(s, u)
    ensures Slotted(s')
  {
    forall u: Token | IsLeftover(s', u) ensures IsLeftover(s, u) {}
  }

  /** The running call `t` goes on; nothing else that releases or their slot depend on changes. */
  ghost predicate Moves(s: Session, s': Session, t: Token) {
    && t < |s.holders| == |s'.holders| && s'.generation == s.generation && s'.detachment == s.detachment
    && s'.cleanup == s.cleanup && s'.holders[t].born == s.holders[t].born
    && !s'.holders[t].phase.Releasing? && !s'.holders[t].phase.Failing? && !s'.holders[t].phase.Running?
    && forall u: Token :: u < |s.holders| && u != t ==> s'.holders[u] == s.holders[u]
  }

  lemma PiecesMove(s: Session, t: Token, encodes: bool)
    requires t < |s.holders|
    ensures Moves(s, GiveBack(s, t), t) && Moves(s, CreateLease(s, t), t)
    ensures forall b :: Moves(s, AttachOrLease(s, t, b, encodes), t)
    ensures Moves(s, ReconcileOrAttach(s, t, encodes), t)
  {}

  /** A call that runs again moves on, unless it is a release whose request was refused. */
  lemma WakeMoves(s: Session, t: Token, encodes: bool)
    requires CanWake(s, t)
    ensures if s.holders[t].phase.Releasing? && IsRejected(s, s.holders[t].phase.p)
            then WakeHolder(s, t, encodes) == Fail(s, t)
            else Moves(Resume(s, t), WakeHolder(s, t, encodes), t)
  {
    ResumeFrame(s, t);
    PiecesMove(Resume(s, t), t, encodes);
    hide Resume, AttachOrLease, ReconcileOrAttach, GiveBack, Moves;
  }

  lemma SlottedWake(s: Session, t: Token, encodes: bool)
    requires Backed(s) && Slotted(s) && CanWake(s, t)
    ensures Slotted(WakeHolder(s, t, encodes))
  {
    assert s.holders[t].phase.Releasing? ==> AtRelease(s, t, s.holders[t].phase.p);
    ResumeFrame(s, t);
    WakeMoves(s, t, encodes);
    if s.holders[t].phase.Releasing? && IsRejected(s, s.holders[t].phase.p) {
      FailFrame(s, t);
      assert !Stale(s, t) ==> s.detachment == Some(s.holders[t].phase.p);
    }
    hide Resume, CanWake, Fail, WakeHolder, Backed;
    SlottedKept(s, WakeHolder(s, t, encodes));
  }

  lemma SlottedRelease(s: Session, t: Token, relinquish: bool, encodes: bool)
    requires Sound(s) && Slotted(s) && IsActive(s, t)
    ensures Slotted(Step(s, Release(t, relinquish, encodes)))
  {
    var s' := Step(s, Release(t, relinquish, encodes));
    if s.count <= 1 {
      LastIsAlone(s, t);
      assert TypedHolder(s.requests, s.generation, s.holders[t]);
      forall u: Token ensures !IsLeftover(s', u) && !Relinquishes(s', u) {
        if u < |s.holders| { assert TypedHolder(s.requests, s.generation, s.holders[u]); }
      }
      forall u: Token, p: PromiseId | Awaits(s', u, p)
        ensures if u == t then p == |s.requests| else p < |s.requests| && Awaits(s, u, p)
      {
        assert TypedHolder(s.requests, s.generation, s.holders[u]);
      }
    } else {
      SlottedKept(s, s');
    }
  }

  lemma SlottedHandle(s: Session, t: Token)
    requires Typed(s) && Slotted(s) && t < |s.holders| && s.holders[t].phase.Failing?
    ensures Slotted(Step(s, Handle(t)))
  {
    var s' := Step(s, Handle(t));
    assert TypedHolder(s.requests, s.generation, s.holders[t]);
    assert Relinquishes(s, t) || s' == SetPhase(s, t, s'.holders[t].phase);
    assert |s'.holders| == |s.holders| && s'.generation == s.generation && s'.detachment == s.detachment;
    assert !s'.holders[t].phase.Failing? && !s'.holders[t].phase.Releasing? && s'.holders[t].born == s.holders[t].born;
    assert forall u: Token :: u < |s.holders| && u != t ==> s'.holders[u] == s.holders[u];
    hide Step, Typed, TypedHolder, GiveBack, SetPhase;
    HandledSlot(s, s', t);
  }

  lemma HandledSlot(s: Session, s': Session, t: Token)
    requires Slotted(s) && |s'.holders| == |s.holders| && s'.generation == s.generation && t < |s.holders|
    requires s'.detachment == s.detachment && (Relinquishes(s, t) || s'.cleanup == s.cleanup)
    requires !s'.holders[t].phase.Failing? && !s'.holders[t].phase.Releasing? && s'.holders[t].born == s.holders[t].born
    requires forall u: Token :: u < |s.holders| && u != t ==> s'.holders[u] == s.holders[u]
    ensures Slotted(s')
  {
    forall u: Token, p: PromiseId | Awaits(s', u, p) ensures Awaits(s, u, p) {}
    if !Relinquishes(s, t) { SlottedKept(s, s'); }
  }

  /** An invalidation forgets the cleanup, and leaves nothing outstanding. */
  lemma SlottedRemoved(s: Session)
    requires Typed(s) && Slotted(s) && s.connected
    ensures Slotted(Step(s, Removed))
  {
    InvalidatedCounted(s);
    forall t: Token ensures !Relinquishes(Step(s, Removed), t) { assert !Out(Invalidate(s), t); }
    assert forall t: Token, p: PromiseId :: Awaits(Step(s, Removed), t, p) ==> Awaits(s, t, p);
  }

  lemma CutTyped(s: Session)
    requires Typed(s)
    ensures Typed(s.(connected := false, attached := false, requests := RejectPending(s.requests)))
  {
    SameTyping(s, s.(connected := false, attached := false, requests := RejectPending(s.requests)));
  }

  lemma CutSlotted(s: Session)
    requires Typed(s) && Slotted(s) && s.connected
    ensures Slotted(Step(s, Disconnect))
  {
    var s1 := s.(connected := false, attached := false, requests := RejectPending(s.requests));
    var s' := Step(s, Disconnect);
    CutTyped(s);
    InvalidatedCounted(s1);
    if s.count == 0 {
      SlottedKept(s, s');
    } else {
      assert s' == Invalidate(s1);
      forall t: Token ensures !Relinquishes(s', t) { assert !Out(s', t); }
      assert forall t: Token, p: PromiseId :: Awaits(s', t, p) ==> Awaits(s, t, p);
    }
  }

  lemma SlottedAcquire(s: Session, mode: Mode, encodes: bool)
    requires Slotted(s) && Admits(s, mode)
    ensures Slotted(Step(s, Acquire(mode, encodes)))
  {
    var r, t := Reserve(s, mode), |s.holders|;
    PiecesMove(r, t, encodes);
    hide ReconcileOrAttach;
    SlottedKept(s, Step(s, Acquire(mode, encodes)));
  }

  lemma SlottedStep(s: Session, a: Action)
    requires Sound(s) && Slotted(s) && Enabled(s, a)
    ensures Slotted(Step(s, a))
  {
    hide Slotted, Typed, Counted, Backed, Quiet, Exclusion, Draining, WakeHolder, CanWake, Invalidate, IsActive;
    hide GiveBack, Issue, Admits;
    match a
    case Acquire(mode, encodes) => SlottedAcquire(s, mode, encodes);
    case Wake(t, encodes) => SlottedWake(s, t, encodes);
    case Release(t, relinquish, encodes) => SlottedRelease(s, t, relinquish, encodes);
    case Handle(t) => SlottedHandle(s, t);
    case Removed => SlottedRemoved(s);
    case Disconnect => CutSlotted(s);
    case _ => SlottedKept(s, Step(s, a));
  }

  lemma RestingStep(s: Session, a: Action)
    requires Resting(s) && Enabled(s, a)
    ensures Resting(Step(s, a))
  {
    hide GiveBack, AttachOrLease, ReconcileOrAttach, Resume, WakeHolder, Admits;
    match a
    case Acquire(mode, encodes) => PiecesMove(Reserve(s, mode), |s.holders|, encodes);
    case Wake(t, encodes) =>
      ResumeFrame(s, t);
      WakeMoves(s, t, encodes);
      if s.holders[t].phase.Releasing? { FailFrame(s, t); }
    case Handle(t) => PiecesMove(s, t, true);
    case Release(t, _, _) => PiecesMove(s, t, true);
    case _ =>
  }

  lemma GoodStep(s: Session, a: Action)
    requires Good(s) && Enabled(s, a) && Calm(s, a)
    ensures Good(Step(s, a))
  {
    SoundStep(s, a);
    SlottedStep(s, a);
    RestingStep(s, a);
  }

  lemma {:induction false} GoodRun(s: Session, actions: seq<Action>)
    requires Good(s) && IsCalmRun(s, actions)
    ensures IsRun(s, actions) && Good(After(s, actions))
    decreases |actions|
  {
    if actions != [] {
      GoodStep(s, actions[0]);
      GoodRun(Step(s, actions[0]), actions[1..]);
    }
  }

  // ---------- The promises ----------

  ghost predicate IsLease(s: Session, t: Token) {
    t < |s.holders| && s.holders[t].phase == Held(s.generation)
  }

  ghost predicate Unanswered(s: Session, p: PromiseId, command: Command) {
    p < |s.requests| && s.requests[p] == Request(command, Pending)
  }

  /** The count is the number of outstanding reservations; an exclusive one is the only one; every
      lease of the current generation has its reservation; at most one session-control request is
      unanswered, and while it is a detach nobody holds a lease. */
  ghost predicate Safe(s: Session) {
    && s.count == |Outstanding(s)|
    && (forall t: Token :: s.exclusive == Some(t) <==> t in Outstanding(s) && s.holders[t].mode.Exclusive?)
    && (forall t: Token :: t in Outstanding(s) && s.holders[t].mode.Exclusive? ==> Outstanding(s) == {t})
    && (forall t: Token :: IsLease(s, t) ==> t in Outstanding(s))
    && (forall p: PromiseId, q: PromiseId, c: Command, d: Command :: Unanswered(s, p, c) && Unanswered(s, q, d) ==>
          p == q)
    && (forall p: PromiseId, t: Token :: Unanswered(s, p, Detach) ==> !IsLease(s, t))
  }

  /** A lease of the current generation has its reservation. */
  lemma LeaseIsOut(s: Session, t: Token)
    requires Good(s) && IsLease(s, t)
    ensures Out(s, t) && !Draining(s)
  {
    assert TypedHolder(s.requests, s.generation, s.holders[t]);
    assert t in Outstanding(s);
  }

  /** A detach request of an outstanding release excludes attaching, reconciling and every lease. */
  lemma ReleaseExcludes(s: Session, r: Token, p: PromiseId)
    requires Good(s) && Out(s, r) && AtRelease(s, r, p)
    ensures s.attachment.None? && s.reconciliation.None? && s.detachment == Some(p)
    ensures forall t: Token :: !IsLease(s, t)
  {
    SuspendedIsOut(s, r);
    forall u: Token, q: PromiseId ensures !AtAttach(s, u, q) && !AtReconcile(s, u, q) {
      if AtAttach(s, u, q) || AtReconcile(s, u, q) { SuspendedIsOut(s, u); }
    }
    forall t: Token ensures !IsLease(s, t) { if IsLease(s, t) { LeaseIsOut(s, t); } }
  }

  /** The three shared promises exclude one another, and a reconciliation excludes every lease; while a
      cleanup is required only the creator of the session has one. A detachment left behind by a stale release
      has already been refused. */
  lemma SlotsExclude(s: Session)
    requires Good(s) && !Draining(s)
    ensures s.reconciliation.Some? ==> s.attachment.None? && forall t: Token :: !IsLease(s, t)
    ensures s.detachment.Some? && !IsRejected(s, s.detachment.value) ==>
              s.attachment.None? && s.reconciliation.None? && forall t: Token :: !IsLease(s, t)
    ensures s.detachment.Some? && (forall t: Token :: !Stale(s, t)) ==>
              s.attachment.None? && s.reconciliation.None? && forall t: Token :: !IsLease(s, t)
    ensures forall t: Token :: s.cleanup && IsLease(s, t) ==> Outstanding(s) == {t} && s.holders[t].mode.Exclusive?
  {
    forall t: Token | IsLease(s, t) ensures Out(s, t) && t in Outstanding(s) && !Reconciles(s, s.holders[t].phase) {
      LeaseIsOut(s, t);
    }
    forall t: Token | IsLease(s, t) && s.holders[t].mode.Exclusive? ensures Outstanding(s) == {t} {
      ExclusiveIsAlone(s, t);
    }
    if s.reconciliation.Some? {
      var u: Token :| AtReconcile(s, u, s.reconciliation.value);
      SuspendedIsOut(s, u);
      assert u in Outstanding(s);
      forall v: Token, p: PromiseId ensures !AtAttach(s, v, p) {
        if AtAttach(s, v, p) { SuspendedIsOut(s, v); }
      }
    }
    if s.detachment.Some? {
      var r: Token :| AtRelease(s, r, s.detachment.value);
      if !IsRejected(s, s.detachment.value) || !Stale(s, r) {
        SuspendedIsOut(s, r);
        ReleaseExcludes(s, r, s.detachment.value);
      }
    }
  }

  /** An unanswered request belongs to the one slot in use. */
  lemma PendingSlot(s: Session, p: PromiseId)
    requires Good(s) && p < |s.requests| && s.requests[p].status.Pending?
    ensures s.connected
    ensures Draining(s) ==> s.detachment == Some(p)
    ensures !Draining(s) && s.detachment == Some(p) ==> s.attachment.None? && s.reconciliation.None?
  {
    if Draining(s) {
      forall u: Token ensures !AtAttach(s, u, p) {}
      forall u: Token ensures !AtReconcile(s, u, p) { assert !Returning(s, u); }
    } else {
      SlotsExclude(s);
    }
  }

  lemma PendingIsOne(s: Session, p: PromiseId, q: PromiseId, c: Command, d: Command)
    requires Good(s) && Unanswered(s, p, c) && Unanswered(s, q, d)
    ensures p == q
  {
    PendingSlot(s, p);
    PendingSlot(s, q);
    if !Draining(s) { SlotsExclude(s); }
  }

  lemma DetachingHasNoLease(s: Session, p: PromiseId, t: Token)
    requires Good(s) && Unanswered(s, p, Detach)
    ensures !IsLease(s, t)
  {
    if IsLease(s, t) {
      LeaseIsOut(s, t);
      SlotsExclude(s);
    }
  }

  lemma ExclusiveIsAlone(s: Session, t: Token)
    requires Counted(s) && t in Outstanding(s) && s.holders[t].mode.Exclusive?
    ensures Outstanding(s) == {t}
  {
    assert Out(s, t);
    forall u: Token | u in Outstanding(s) ensures u == t { AtMostOne(Outstanding(s), t, u); }
  }

  lemma GoodIsSafe(s: Session)
    requires Good(s)
    ensures Safe(s)
  {
    forall t: Token ensures t in Outstanding(s) <==> Out(s, t) {}
    forall t: Token | t in Outstanding(s) && s.holders[t].mode.Exclusive? ensures Outstanding(s) == {t} {
      ExclusiveIsAlone(s, t);
    }
    forall t: Token | IsLease(s, t) ensures t in Outstanding(s) {
      assert TypedHolder(s.requests, s.generation, s.holders[t]);
    }
    forall p: PromiseId, q: PromiseId, c: Command, d: Command | Unanswered(s, p, c) && Unanswered(s, q, d)
      ensures p == q
    {
      PendingIsOne(s, p, q, c, d);
    }
    forall p: PromiseId, t: Token | Unanswered(s, p, Detach) ensures !IsLease(s, t) { DetachingHasNoLease(s, p, t); }
  }

  /** Main result: every state of every calm run is safe. */
  lemma CalmRunsAreSafe(actions: seq<Action>)
    requires IsCalmRun(START, actions)
    ensures IsRun(START, actions) && Safe(After(START, actions))
  {
    StartIsGood();
    GoodRun(START, actions);
    GoodIsSafe(After(START, actions));
  }

  /** A release sends its detach request exactly when its own reservation is the only outstanding one. */
  lemma DetachesOnlyAlone(s: Session, t: Token, relinquish: bool, encodes: bool)
    requires Good(s) && Enabled(s, Release(t, relinquish, encodes))
    ensures var s' := Step(s, Release(t, relinquish, encodes));
            |s'.requests| > |s.requests| <==> Outstanding(s) == {t}
    ensures var s' := Step(s, Release(t, relinquish, encodes));
            |s'.requests| > |s.requests| ==> s'.detachment == Some(|s.requests|)
  {
    assert TypedHolder(s.requests, s.generation, s.holders[t]);
    assert t in Outstanding(s);
    if s.count <= 1 { LastIsAlone(s, t); }
  }

  /** While a detach request is unanswered, every acquire that is admitted waits for that very answer and
      sends nothing. */
  lemma AcquiresWait(s: Session, p: PromiseId, mode: Mode, encodes: bool)
    requires Good(s) && Unanswered(s, p, Detach) && Admits(s, mode)
    ensures var s' := Step(s, Acquire(mode, encodes));
      && s'.requests == s.requests && |s'.holders| == |s.holders| + 1
      && s'.holders[|s.holders|].phase == if s.detachment == Some(p) then OnDetach(p) else OnReconcile(p)
  {
    PendingSlot(s, p);
    if s.detachment != Some(p) {
      assert s.reconciliation == Some(p) && s.cleanup;
      forall r: Token ensures !(s.detachment.Some? && AtRelease(s, r, s.detachment.value)) {
        if s.detachment.Some? && AtRelease(s, r, s.detachment.value) {
          SuspendedIsOut(s, r);
          assert !IsLeftover(s, r);
          ReleaseExcludes(s, r, s.detachment.value);
        }
      }
    }
  }

  /** The slot of a detach request is its own until it has been answered. */
  lemma {:induction false} DetachKeepsItsSlot(s: Session, p: PromiseId, actions: seq<Action>)
    requires Good(s) && s.detachment == Some(p) && p < |s.requests| && IsCalmRun(s, actions) && IsRun(s, actions)
    requires Unanswered(After(s, actions), p, Detach)
    ensures Unanswered(s, p, Detach) && After(s, actions).detachment == Some(p)
    decreases |actions|
  {
    if actions != [] {
      var a, s' := actions[0], Step(s, actions[0]);
      GoodStep(s, a);
      GoodRun(s', actions[1..]);
      RunSettles(s, actions, p);
      KeepsSlot(s, a, p);
      DetachKeepsItsSlot(s', p, actions[1..]);
    }
  }

  /** If the detach request `p` is unanswered and the acquire admitted, it waits for `p` and sends nothing. */
  ghost predicate WaitsBehind(s: Session, p: PromiseId, a: Action) {
    Unanswered(s, p, Detach) && Enabled(s, a) ==>
      && Step(s, a).requests == s.requests && |Step(s, a).holders| == |s.holders| + 1
      && Step(s, a).holders[|s.holders|].phase == OnDetach(p)
  }

  /** From the release that sent a detach request until its answer, every acquire that is admitted waits for
      that answer and sends nothing, whatever happens in between. */
  lemma AcquiresWaitForRelease(s: Session, t: Token, relinquish: bool, encodes: bool, actions: seq<Action>,
                               mode: Mode, e: bool)
    requires Good(s) && Enabled(s, Release(t, relinquish, encodes)) && Outstanding(s) == {t}
    requires IsCalmRun(Step(s, Release(t, relinquish, encodes)), actions)
    ensures var s' := Step(s, Release(t, relinquish, encodes));
      IsRun(s', actions) && WaitsBehind(After(s', actions), |s.requests|, Acquire(mode, e))
  {
    var s' := Step(s, Release(t, relinquish, encodes));
    DetachesOnlyAlone(s, t, relinquish, encodes);
    GoodStep(s, Release(t, relinquish, encodes));
    hide Good, Step, Outstanding;
    GoodRun(s', actions);
    var x := After(s', actions);
    assert Enabled(x, Acquire(mode, e)) <==> Admits(x, mode);
    if Unanswered(x, |s.requests|, Detach) && Admits(x, mode) {
      DetachKeepsItsSlot(s', |s.requests|, actions);
      AcquiresWait(x, |s.requests|, mode, e);
    }
  }

  /** A request keeps its command, and once it has settled its outcome. */
  ghost predicate Settles(s: Session, s': Session) {
    && |s.requests| <= |s'.requests|
    && forall p :: 0 <= p < |s.requests| ==>
         && s'.requests[p].command == s.requests[p].command
         && (!s.requests[p].status.Pending? ==> s'.requests[p] == s.requests[p])
  }

  lemma RequestsSettle(s: Session, a: Action)
    requires Enabled(s, a)
    ensures Settles(s, Step(s, a))
  {
    if a.Wake? {
      ResumeFrame(s, a.t);
      PiecesSettle(Resume(s, a.t), a.t, a.encodes);
      hide Resume, CanWake, AttachOrLease, ReconcileOrAttach, GiveBack, CreateLease;
    } else if a.Acquire? {
      PiecesSettle(Reserve(s, a.mode), |s.holders|, a.encodes);
      hide ReconcileOrAttach, CanWake, WakeHolder;
    } else {
      hide CanWake, WakeHolder, ReconcileOrAttach, IsActive;
    }
  }

  lemma PiecesSettle(s: Session, t: Token, encodes: bool)
    requires t < |s.holders|
    ensures Settles(s, GiveBack(s, t)) && Settles(s, CreateLease(s, t))
    ensures forall b :: Settles(s, AttachOrLease(s, t, b, encodes))
    ensures Settles(s, ReconcileOrAttach(s, t, encodes))
  {}

  lemma {:induction false} RunSettles(s: Session, actions: seq<Action>, p: PromiseId)
    requires IsRun(s, actions) && p < |s.requests| && Unanswered(After(s, actions), p, Detach)
    ensures Unanswered(s, p, Detach) && (actions != [] ==> Unanswered(Step(s, actions[0]), p, Detach))
    decreases |actions|
  {
    if actions != [] {
      RequestsSettle(s, actions[0]);
      RunSettles(Step(s, actions[0]), actions[1..], p);
    }
  }

  /** While the request is pending nothing else sends one, and its release does not run. */
  lemma KeepsSlot(s: Session, a: Action, p: PromiseId)
    requires Good(s) && s.detachment == Some(p) && Unanswered(s, p, Detach) && Enabled(s, a) && Calm(s, a)
    ensures Step(s, a).detachment == Some(p)
  {
    if a.Wake? {
      assert s.holders[a.t].phase.Releasing? ==> s.holders[a.t].phase.p != p;
      ResumeFrame(s, a.t);
      WakeMoves(s, a.t, a.encodes);
      if s.holders[a.t].phase.Releasing? { FailFrame(s, a.t); }
      hide Resume, CanWake, Fail, WakeHolder, Sound, Slotted;
    } else if a.Release? {
      assert TypedHolder(s.requests, s.generation, s.holders[a.t]);
      DetachingHasNoLease(s, p, a.t);
    } else {
      hide Sound, Slotted, CanWake, Calm;
    }
  }

  ghost predicate SendsOnlyDetach(s: Session, s': Session) {
    && (forall p :: |s.requests| <= p < |s'.requests| ==> s'.requests[p].command == Detach)
    && s'.cleanup
  }

  lemma PiecesUnderCleanup(s: Session, t: Token, encodes: bool)
    requires s.cleanup && t < |s.holders|
    ensures SendsOnlyDetach(s, GiveBack(s, t)) && SendsOnlyDetach(s, ReconcileOrAttach(s, t, encodes))
    ensures forall u: Token :: IsLease(GiveBack(s, t), u) ==> IsLease(s, u)
    ensures forall u: Token :: IsLease(ReconcileOrAttach(s, t, encodes), u) ==> IsLease(s, u)
  {}

  lemma WakeUnderCleanup(s: Session, t: Token, encodes: bool)
    requires Good(s) && s.cleanup && CanWake(s, t)
    ensures SendsOnlyDetach(s, WakeHolder(s, t, encodes))
    ensures forall u: Token :: IsLease(WakeHolder(s, t, encodes), u) ==> IsLease(s, u)
  {
    ResumeFrame(s, t);
    if s.holders[t].phase.Releasing? && IsRejected(s, s.holders[t].phase.p) {
      FailFrame(s, t);
      assert WakeHolder(s, t, encodes) == Fail(s, t);
      hide Fail, WakeHolder, Good, Resume, CanWake;
    } else {
      ResumeIsSound(s, t);
      PiecesUnderCleanup(Resume(s, t), t, encodes);
      hide Good, Resume, MayResume, GiveBack, ReconcileOrAttach;
    }
  }

  lemma AcquireUnderCleanup(s: Session, mode: Mode, encodes: bool)
    requires s.cleanup && Admits(s, mode)
    ensures var s' := Step(s, Acquire(mode, encodes));
      SendsOnlyDetach(s, s') && forall u: Token :: IsLease(s', u) ==> IsLease(s, u)
  {}

  lemma HandleUnderCleanup(s: Session, t: Token)
    requires Good(s) && s.cleanup && Enabled(s, Handle(t))
    ensures var s' := Step(s, Handle(t));
      SendsOnlyDetach(s, s') && forall u: Token :: IsLease(s', u) ==> IsLease(s, u) || (u == t && Owns(s.holders[u]))
  {
    assert TypedHolder(s.requests, s.generation, s.holders[t]);
    if s.holders[t].phase.generation == s.generation { SuspendedIsOut(s, t); }
    hide CanWake, Resume, Typed, Counted, Backed;
  }

  lemma SmallStepUnderCleanup(s: Session, a: Action)
    requires s.cleanup && Enabled(s, a) && (a.Create? || a.Release? || a.Answer? || a.ServerSays?)
    ensures var s' := Step(s, a);
      SendsOnlyDetach(s, s') && forall u: Token :: IsLease(s', u) ==> IsLease(s, u) || a.Create?
  {
    hide WakeHolder, ReconcileOrAttach, Admits;
  }

  /** After a failed `dispose` no attach request goes out and no acquire is handed a lease until a detach
      request has been answered, or the session or the connection is lost. Only the creator of the session
      gets a lease, or its own back when releasing it has failed. */
  lemma CleanupComesFirst(s: Session, a: Action)
    requires Good(s) && s.cleanup && Enabled(s, a) && Calm(s, a)
    ensures var s' := Step(s, a);
      || (SendsOnlyDetach(s, s')
          && forall u: Token :: IsLease(s', u) ==> IsLease(s, u) || a.Create? || (a == Handle(u) && Owns(s.holders[u])))
      || (a.FinishReconcile? && s'.requests == s.requests
          && s.requests[s.reconciliation.value] == Request(Detach, Fulfilled))
      || a.Removed? || a.Disconnect?
  {
    assert s.reconciliation.Some? ==> Names(s.requests, s.reconciliation.value, Detach);
    hide Good, Calm, CanWake, WakeHolder, ReconcileOrAttach, Admits, IsActive;
    match a
    case Acquire(mode, encodes) => AcquireUnderCleanup(s, mode, encodes);
    case Wake(t, encodes) => WakeUnderCleanup(s, t, encodes);
    case Handle(t) => HandleUnderCleanup(s, t);
    case FinishReconcile =>
    case Connect(_) =>
    case Removed =>
    case Disconnect =>
    case _ => SmallStepUnderCleanup(s, a);
  }

  /** Unless it was created here, a session that requires a cleanup has no lease at all. */
  lemma NoLeaseUnderCleanup(s: Session, t: Token)
    requires Good(s) && s.cleanup && t < |s.holders| && !s.holders[t].mode.Exclusive?
    ensures !IsLease(s, t)
  {
    if IsLease(s, t) {
      LeaseIsOut(s, t);
      SlotsExclude(s);
    }
  }

  ghost predicate Spares(s: Session, s': Session, t: Token) {
    t < |s.holders| <= |s'.holders| && s'.generation >= s.generation && s'.holders[t] == s.holders[t]
  }

  lemma PiecesSpare(s: Session, u: Token, t: Token, encodes: bool)
    requires t < |s.holders| && u < |s.holders| && t != u
    ensures Spares(s, GiveBack(s, u), t) && Spares(s, CreateLease(s, u), t)
    ensures forall b :: Spares(s, AttachOrLease(s, u, b, encodes), t)
    ensures Spares(s, ReconcileOrAttach(s, u, encodes), t)
  {}

  lemma WakeSpares(s: Session, u: Token, t: Token, encodes: bool)
    requires t < |s.holders| && t != u && CanWake(s, u)
    ensures Spares(s, WakeHolder(s, u, encodes), t)
  {
    ResumeFrame(s, u);
    PiecesSpare(Resume(s, u), u, t, encodes);
    hide CanWake, Resume, AttachOrLease, ReconcileOrAttach, GiveBack;
  }

  lemma StepSparesLease(s: Session, a: Action, t: Token)
    requires Enabled(s, a) && t < |s.holders| && s.holders[t].phase.Held? && !IsActive(s, t)
    ensures Spares(s, Step(s, a), t)
  {
    match a
    case Wake(u, encodes) => WakeSpares(s, u, t, encodes);
    case Acquire(mode, encodes) => PiecesSpare(Reserve(s, mode), |s.holders|, t, encodes);
    case _ =>
  }

  /** A lease of an older generation never sends a command again, on any run whatever. */
  lemma {:induction false} StaleLeaseStaysDead(s: Session, t: Token, actions: seq<Action>)
    requires t < |s.holders| && s.holders[t].phase.Held? && s.holders[t].phase.generation < s.generation
    requires IsRun(s, actions)
    ensures !IsActive(After(s, actions), t)
    decreases |actions|
  {
    if actions != [] {
      StepSparesLease(s, actions[0], t);
      StaleLeaseStaysDead(Step(s, actions[0]), t, actions[1..]);
    }
  }
}
