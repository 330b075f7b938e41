/** What the client believes of the attachment of its session, and what acquires make of it. */
module LeaseAttachment {
  import opened LeaseSafety
  import opened Leases
  import opened Options

  lemma {:induction false} RunFront(s: Session, actions: seq<Action>)
    requires IsRun(s, actions) && actions != []
    ensures var front, last := actions[..|actions| - 1], actions[|actions| - 1];
      IsRun(s, front) && Enabled(After(s, front), last) && After(s, actions) == Step(After(s, front), last)
    decreases |actions|
  {
    if |actions| > 1 {
      RunFront(Step(s, actions[0]), actions[1..]);
      assert actions[..|actions| - 1][1..] == actions[1..][..|actions| - 2];
    }
  }

  // ---------- Whose word the client takes ----------

  /** What an event says of the attachment, if anything: an answer that is not an error, by its command; a
      snapshot of the server; the end of the session or of the connection. */
  function Says(requests: seq<Request>, a: Action): Option<bool> {
    match a
    case Answer(p, ok, attached) =>
      if !ok || p >= |requests| then None
      else if requests[p].command.Detach? then Some(false) else Some(attached)
    case ServerSays(attached) => Some(attached)
    case Connect(attached) => Some(attached)
    case Removed => Some(false)
    case Disconnect => Some(false)
    case _ => None
  }

  /** What the last of these events said, or `was` if there was none. */
  function LastSaid(requests: seq<Request>, was: bool, actions: seq<Action>): bool {
    if actions == [] then was
    else
      var said := Says(requests, actions[|actions| - 1]);
      if said.Some? then said.value else LastSaid(requests, was, actions[..|actions| - 1])
  }

  lemma {:induction false} SaidStays(requests: seq<Request>, more: seq<Request>, was: bool, actions: seq<Action>)
    requires |requests| <= |more| && forall p :: 0 <= p < |requests| ==> more[p].command == requests[p].command
    requires forall a :: a in actions && a.Answer? ==> a.p < |requests|
    ensures LastSaid(more, was, actions) == LastSaid(requests, was, actions)
  {
    if actions != [] { SaidStays(requests, more, was, actions[..|actions| - 1]); }
  }

  /** The pieces of an acquire say nothing of it. */
  lemma PiecesSayNothing(s: Session, t: Token, encodes: bool)
    requires t < |s.holders|
    ensures GiveBack(s, t).attached == s.attached == CreateLease(s, t).attached
    ensures forall b :: AttachOrLease(s, t, b, encodes).attached == s.attached
    ensures ReconcileOrAttach(s, t, encodes).attached == s.attached
  {}

  lemma CallSaysNothing(s: Session, a: Action)
    requires Enabled(s, a) && (a.Wake? || a.Acquire? || a.Create? || a.Handle? || a.Release?)
    ensures Step(s, a).attached == s.attached
  {
    hide AttachOrLease, ReconcileOrAttach, GiveBack, Resume, Admits;
    match a
    case Acquire(mode, encodes) => PiecesSayNothing(Reserve(s, mode), |s.holders|, encodes);
    case Wake(t, encodes) =>
      ResumeLink(s, t);
      ResumeFrame(s, t);
      PiecesSayNothing(Resume(s, t), t, encodes);
    case Handle(t) => PiecesSayNothing(s, t, true);
    case Release(t, _, encodes) => PiecesSayNothing(s, t, encodes);
    case _ =>
  }

  lemma StepSays(s: Session, a: Action)
    requires Enabled(s, a)
    ensures Step(s, a).attached == if Says(s.requests, a).Some? then Says(s.requests, a).value else s.attached
    ensures a.Answer? ==> a.p < |s.requests|
  {
    if a.Wake? || a.Acquire? || a.Create? || a.Handle? || a.Release? {
      CallSaysNothing(s, a);
      hide Step, Enabled;
    } else {
      hide WakeHolder, CanWake, ReconcileOrAttach, Invalidate;
    }
  }

  /** On every run the client takes the session to be attached exactly if the last event that says anything about
      it said so. */
  lemma {:induction false} AttachedIsLastSaid(s: Session, actions: seq<Action>)
    requires IsRun(s, actions)
    ensures After(s, actions).attached == LastSaid(After(s, actions).requests, s.attached, actions)
    ensures forall a :: a in actions && a.Answer? ==> a.p < |After(s, actions).requests|
  {
    if actions != [] {
      var front, last := actions[..|actions| - 1], actions[|actions| - 1];
      RunFront(s, actions);
      AttachedIsLastSaid(s, front);
      var x, y := After(s, front), After(s, actions);
      StepSays(x, last);
      RequestsSettle(x, last);
      hide Step, After, IsRun, Enabled;
      SaidStays(x.requests, y.requests, s.attached, front);
      assert forall a :: a in actions ==> a in front || a == last;
    }
  }

  // ---------- After a detach ----------

  ghost predicate Answered(s: Session, p: PromiseId) {
    p < |s.requests| && s.requests[p].status.Fulfilled?
  }

  /** The session is not attached, and nobody waits for, or could join, an attachment that says otherwise. */
  ghost predicate Unattached(s: Session) {
    && !s.attached && (forall t: Token :: !AttachAnswered(s, t))
    && (s.attachment.Some? ==> !Answered(s, s.attachment.value))
  }

  /** An event that may attach the session again. */
  predicate Reattaches(requests: seq<Request>, a: Action) {
    match a
    case Answer(p, ok, _) => ok && p < |requests| && requests[p].command.Attach?
    case ServerSays(attached) => attached
    case Connect(attached) => attached
    case _ => false
  }

  lemma NobodyIsAnswered(s: Session, p: PromiseId, t: Token)
    requires Good(s) && Unanswered(s, p, Detach)
    ensures !AttachAnswered(s, t)
  {
    PendingSlot(s, p);
    if !Draining(s) {
      if s.detachment == Some(p) {
        var r: Token :| AtRelease(s, r, p);
        SuspendedIsOut(s, r);
        assert Out(s, r) && Claims(s.holders[r].phase);
      } else {
        assert s.reconciliation == Some(p) && s.cleanup;
      }
      if AttachAnswered(s, t) { SuspendedIsOut(s, t); }
    } else {
      assert AttachAnswered(s, t) ==> Returning(s, t);
    }
  }

  /** A detach request that succeeds leaves the session unattached for everyone. */
  lemma DetachedIsUnattached(s: Session, p: PromiseId, attached: bool)
    requires Good(s) && Unanswered(s, p, Detach)
    ensures Enabled(s, Answer(p, true, attached)) && Unattached(Step(s, Answer(p, true, attached)))
  {
    var s' := Step(s, Answer(p, true, attached));
    forall t: Token ensures !AttachAnswered(s, t) { NobodyIsAnswered(s, p, t); }
    forall t: Token ensures !AttachAnswered(s', t) {
      if t < |s.holders| { assert TypedHolder(s.requests, s.generation, s.holders[t]) && !AttachAnswered(s, t); }
    }
    if s.attachment.Some? {
      var t: Token :| AtAttach(s, t, s.attachment.value);
      assert AtAttach(s', t, s.attachment.value) && !AttachAnswered(s', t);
    }
  }

  ghost predicate IsHeld(s: Session, t: Token) {
    t < |s.holders| && s.holders[t].phase.Held?
  }

  /** Nobody obtains a lease. */
  ghost predicate HandsOutNothing(s: Session, s': Session) {
    forall u: Token :: IsHeld(s', u) ==> IsHeld(s, u)
  }

  /** The pieces of an acquire, without an attachment. */
  lemma PiecesUnattached(s: Session, t: Token, encodes: bool)
    requires Unattached(s) && t < |s.holders|
    ensures Unattached(GiveBack(s, t)) && HandsOutNothing(s, GiveBack(s, t))
    ensures forall b ::
      Unattached(AttachOrLease(s, t, b, encodes)) && HandsOutNothing(s, AttachOrLease(s, t, b, encodes))
    ensures Unattached(ReconcileOrAttach(s, t, encodes)) && HandsOutNothing(s, ReconcileOrAttach(s, t, encodes))
  {
    UnattachedPiece(s, GiveBack(s, t), t);
    forall b
      ensures Unattached(AttachOrLease(s, t, b, encodes)) && HandsOutNothing(s, AttachOrLease(s, t, b, encodes))
    {
      UnattachedPiece(s, AttachOrLease(s, t, b, encodes), t);
    }
    UnattachedPiece(s, ReconcileOrAttach(s, t, encodes), t);
  }

  lemma UnattachedPiece(s: Session, s': Session, t: Token)
    requires Unattached(s) && t < |s.holders| == |s'.holders| && !s'.attached && |s.requests| <= |s'.requests|
    requires forall u: Token :: u < |s.holders| && u != t ==> s'.holders[u] == s.holders[u]
    requires forall p: PromiseId :: p < |s'.requests| ==>
               if p < |s.requests| then s'.requests[p] == s.requests[p] else !s'.requests[p].status.Fulfilled?
    requires s'.attachment.Some? ==> s'.attachment == s.attachment || s'.attachment.value >= |s.requests|
    requires !s'.holders[t].phase.Held?
    requires s'.holders[t].phase.OnAttach? ==> s'.attachment == Some(s'.holders[t].phase.p)
    ensures Unattached(s') && HandsOutNothing(s, s')
  {
    assert s'.attachment.Some? ==> !Answered(s', s'.attachment.value);
    forall u: Token ensures !AttachAnswered(s', u) {
      if u < |s.holders| && u != t { assert !AttachAnswered(s, u); }
    }
  }

  lemma WakeUnattached(s: Session, t: Token, encodes: bool)
    requires Unattached(s) && CanWake(s, t)
    ensures Unattached(WakeHolder(s, t, encodes)) && HandsOutNothing(s, WakeHolder(s, t, encodes))
  {
    ResumeFrame(s, t);
    ResumeLink(s, t);
    assert !AttachAnswered(s, t);
    UnattachedPiece(s, Resume(s, t), t);
    PiecesUnattached(Resume(s, t), t, encodes);
    if s.holders[t].phase.Releasing? && IsRejected(s, s.holders[t].phase.p) {
      FailFrame(s, t);
      UnattachedPiece(s, Fail(s, t), t);
    }
    hide Resume, AttachOrLease, ReconcileOrAttach, GiveBack, Unattached, AttachAnswered;
  }

  lemma AcquireUnattached(s: Session, mode: Mode, encodes: bool)
    requires Unattached(s) && Admits(s, mode)
    ensures var s' := Step(s, Acquire(mode, encodes)); Unattached(s') && HandsOutNothing(s, s')
  {
    var r, t := Reserve(s, mode), |s.holders|;
    forall u: Token ensures !AttachAnswered(r, u) { assert !AttachAnswered(s, u); }
    assert Unattached(r) && HandsOutNothing(s, r);
    PiecesUnattached(r, t, encodes);
    if s.detachment.Some? { UnattachedPiece(r, SetPhase(r, t, OnDetach(s.detachment.value)), t); }
    hide ReconcileOrAttach, Unattached, Admits;
  }

  /** No further attach request has been answered, and nobody new waits for one. */
  lemma UnattachedFrame(s: Session, s': Session)
    requires Unattached(s) && !s'.attached && Typed(s')
    requires forall p: PromiseId :: Answered(s', p) && s'.requests[p].command.Attach? ==> Answered(s, p)
    requires forall u: Token, p: PromiseId :: AtAttach(s', u, p) ==> AtAttach(s, u, p)
    requires s'.attachment == s.attachment
    ensures Unattached(s')
  {
    forall u: Token ensures !AttachAnswered(s', u) {
      assert !AttachAnswered(s, u);
      if u < |s'.holders| { assert TypedHolder(s'.requests, s'.generation, s'.holders[u]); }
      if AttachAnswered(s', u) { assert AtAttach(s', u, s'.holders[u].phase.p); }
    }
  }

  lemma OtherStep(s: Session, a: Action)
    requires Enabled(s, a) && !a.Acquire? && !a.Wake? && !Reattaches(s.requests, a)
    ensures var s' := Step(s, a);
      && (!s.attached ==> !s'.attached) && s'.attachment == s.attachment
      && (forall p: PromiseId :: Answered(s', p) && s'.requests[p].command.Attach? ==> Answered(s, p))
      && (forall u: Token, p: PromiseId :: AtAttach(s', u, p) ==> AtAttach(s, u, p))
  {
    hide WakeHolder, CanWake, ReconcileOrAttach, Admits;
  }

  /** Nothing but an attach request that succeeds, or a word of the server, attaches the session again. */
  lemma StaysUnattached(s: Session, a: Action)
    requires Good(s) && Unattached(s) && Enabled(s, a) && Calm(s, a) && !Reattaches(s.requests, a)
    ensures Unattached(Step(s, a))
  {
    GoodStep(s, a);
    hide Unattached, Step, Calm, Typed, Counted, Backed, Quiet, Exclusion, Slotted, Answered;
    match a
    case Acquire(mode, encodes) => AcquireUnattached(s, mode, encodes);
    case Wake(t, encodes) => WakesUnattached(s, t, encodes);
    case _ => OthersUnattached(s, a);
  }

  lemma WakesUnattached(s: Session, t: Token, encodes: bool)
    requires Unattached(s) && CanWake(s, t)
    ensures Unattached(Step(s, Wake(t, encodes))) && HandsOutNothing(s, Step(s, Wake(t, encodes)))
  {
    hide Unattached, WakeHolder, HandsOutNothing, CanWake;
    WakeUnattached(s, t, encodes);
  }

  lemma OthersUnattached(s: Session, a: Action)
    requires Unattached(s) && Enabled(s, a) && Typed(Step(s, a))
    requires !a.Acquire? && !a.Wake? && !Reattaches(s.requests, a)
    ensures Unattached(Step(s, a))
  {
    OtherStep(s, a);
    hide Step, Enabled, Reattaches;
    UnattachedFrame(s, Step(s, a));
  }

  /** The acquire sends an attach request of its own and waits for it. */
  ghost predicate Asks(s: Session, mode: Mode, encodes: bool)
    requires Admits(s, mode)
  {
    var s' := Step(s, Acquire(mode, encodes));
    && s'.requests == s.requests + [Request(Attach, if s.connected && encodes then Pending else Rejected)]
    && s'.attachment == Some(|s.requests|) && s'.holders[|s.holders|..] == [s'.holders[|s'.holders| - 1]]
    && s'.holders[|s'.holders| - 1].phase == OnAttach(|s.requests|)
  }

  lemma {:induction false} UnattachedRun(s: Session, actions: seq<Action>)
    requires Good(s) && Unattached(s) && IsCalmRun(s, actions) && IsRun(s, actions)
    requires forall a :: a in actions ==> !Reattaches(After(s, actions).requests, a)
    ensures Good(After(s, actions)) && Unattached(After(s, actions))
    decreases |actions|
  {
    if actions != [] {
      var a, s' := actions[0], Step(s, actions[0]);
      GoodStep(s, a);
      RequestsSettle(s, a);
      CommandsStay(s', actions[1..]);
      assert a.Answer? ==> a.p < |s.requests|;
      hide Unattached, Good, Step;
      assert !Reattaches(After(s, actions).requests, a);
      StaysUnattached(s, a);
      UnattachedRun(s', actions[1..]);
    }
  }

  lemma {:induction false} CommandsStay(s: Session, actions: seq<Action>)
    requires IsRun(s, actions)
    ensures var s' := After(s, actions);
      && |s.requests| <= |s'.requests|
      && forall p :: 0 <= p < |s.requests| ==> s'.requests[p].command == s.requests[p].command
    decreases |actions|
  {
    if actions != [] {
      RequestsSettle(s, actions[0]);
      CommandsStay(Step(s, actions[0]), actions[1..]);
    }
  }

  /** After a detach request has succeeded, and until an attach request does or the server says otherwise, no
      acquire is handed a lease, and one that is admitted and has nothing to wait for asks to attach again. */
  lemma DetachedMeansAttachAgain(s: Session, p: PromiseId, attached: bool, actions: seq<Action>)
    requires Good(s) && Unanswered(s, p, Detach) && Enabled(s, Answer(p, true, attached))
    requires var s1 := Step(s, Answer(p, true, attached));
      && IsCalmRun(s1, actions) && IsRun(s1, actions)
      && forall a :: a in actions ==> !Reattaches(After(s1, actions).requests, a)
    ensures var x := After(Step(s, Answer(p, true, attached)), actions);
      && !x.attached
      && (forall a :: Enabled(x, a) && (a.Acquire? || a.Wake?) ==> HandsOutNothing(x, Step(x, a)))
      && (forall mode, e ::
            Admits(x, mode) && x.detachment.None? && !x.cleanup && x.attachment.None? ==> Asks(x, mode, e))
  {
    var s1 := Step(s, Answer(p, true, attached));
    DetachedIsUnattached(s, p, attached);
    GoodStep(s, Answer(p, true, attached));
    hide Good, Reattaches, After, IsRun, IsCalmRun;
    UnattachedRun(s1, actions);
    UnattachedHandsOutNothing(After(s1, actions));
  }

  lemma UnattachedHandsOutNothing(x: Session)
    requires Unattached(x)
    ensures !x.attached
    ensures forall a :: Enabled(x, a) && (a.Acquire? || a.Wake?) ==> HandsOutNothing(x, Step(x, a))
    ensures forall mode, e ::
      Admits(x, mode) && x.detachment.None? && !x.cleanup && x.attachment.None? ==> Asks(x, mode, e)
  {
    forall a | Enabled(x, a) && (a.Acquire? || a.Wake?) ensures HandsOutNothing(x, Step(x, a)) {
      if a.Acquire? { AcquireUnattached(x, a.mode, a.encodes); } else { WakesUnattached(x, a.t, a.encodes); }
    }
    forall mode, e | Admits(x, mode) && x.detachment.None? && !x.cleanup && x.attachment.None?
      ensures Asks(x, mode, e)
    {
      AsksToAttach(x, mode, e);
    }
  }

  lemma AsksToAttach(x: Session, mode: Mode, e: bool)
    requires !x.attached && Admits(x, mode) && x.detachment.None? && !x.cleanup && x.attachment.None?
    ensures Asks(x, mode, e)
  {}
}
