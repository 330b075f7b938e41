/** What becomes of each reservation, and when a cleanup is required, told from the outside. */
module LeaseFates {
  import opened LeaseAttachment
  import opened LeaseSafety
  import opened Leases
  import opened Options

  // ---------- The life of one reservation ----------

  /** What the call behind `t` has become when it stops waiting: an acquire that waited for a release goes on
      whatever came of that, one that waited for a request of its own is given up exactly if that was refused; a
      lease is gone when its detach request succeeded or was not needed, and a failed `detach` gives it back. */
  ghost predicate MovesOn(s: Session, a: Action, t: Token, phase: Phase)
    requires t < |s.holders|
  {
    match s.holders[t].phase
    case OnDetach(p) =>
      a.Wake? && !Unanswered(s, p, Detach) && (phase.OnReconcile? || phase.OnAttach? || phase == Held(s.generation))
    case OnReconcile(p) => a.Wake? && (if IsRejected(s, p) then phase.Gone? else phase.OnAttach?)
    case OnAttach(p) => a.Wake? && (if IsRejected(s, p) then phase.Gone? else phase == Held(s.generation))
    case Held(g) =>
      && a.Release? && IsActive(s, t)
      && (phase.Gone? || (phase.Releasing? && phase == Releasing(g, |s.requests|, a.relinquish)))
    case Releasing(g, p, relinquish) =>
      a.Wake? && (if IsRejected(s, p) then phase == Failing(g, p, relinquish) else phase.Gone?)
    case Failing(g, _, relinquish) =>
      a.Handle? && (if g == s.generation && !relinquish then phase == Held(g) else phase.Gone?)
    case Running => false
    case Gone => false
  }

  ghost predicate IsOf(a: Action, t: Token) {
    match a
    case Wake(u, _) => u == t
    case Handle(u) => u == t
    case Release(u, _, _) => u == t
    case _ => false
  }

  lemma WokenMovesOn(s: Session, t: Token, encodes: bool)
    requires CanWake(s, t)
    ensures var w := WakeHolder(s, t, encodes);
      t < |w.holders| && MovesOn(s, Wake(t, encodes), t, w.holders[t].phase)
  {
    ResumeFrame(s, t);
    WokenPieces(Resume(s, t), t, encodes);
    hide Resume, AttachOrLease, ReconcileOrAttach, GiveBack;
  }

  lemma WokenPieces(s: Session, t: Token, encodes: bool)
    requires t < |s.holders|
    ensures GiveBack(s, t).holders[t].phase == Gone
    ensures AttachOrLease(s, t, true, encodes).holders[t].phase.OnAttach?
    ensures var phase := ReconcileOrAttach(s, t, encodes).holders[t].phase;
      phase.OnReconcile? || phase.OnAttach? || phase == Held(s.generation)
  {}

  ghost predicate GoesItsWay(s: Session, a: Action, s': Session, t: Token) {
    && t < |s.holders| && t < |s'.holders|
    && s'.holders[t].mode == s.holders[t].mode && s'.holders[t].born == s.holders[t].born
    && if IsOf(a, t) then MovesOn(s, a, t, s'.holders[t].phase) else s'.holders[t] == s.holders[t]
  }

  lemma WokenGoesItsWay(s: Session, u: Token, encodes: bool, t: Token)
    requires CanWake(s, u) && t < |s.holders|
    ensures GoesItsWay(s, Wake(u, encodes), WakeHolder(s, u, encodes), t)
  {
    ResumeFrame(s, u);
    WakeMoves(s, u, encodes);
    if s.holders[u].phase.Releasing? { FailFrame(s, u); }
    if u == t { WokenMovesOn(s, t, encodes); }
    hide Resume, CanWake, WakeHolder, Fail, MovesOn;
  }

  lemma HandledGoesItsWay(s: Session, u: Token, t: Token)
    requires t < |s.holders| && u < |s.holders| && s.holders[u].phase.Failing?
    ensures GoesItsWay(s, Handle(u), Step(s, Handle(u)), t)
  {}

  lemma ReleasedGoesItsWay(s: Session, a: Action, t: Token)
    requires a.Release? && IsActive(s, a.t) && t < |s.holders|
    ensures GoesItsWay(s, a, Step(s, a), t)
  {}

  lemma ReservedGoesItsWay(s: Session, a: Action, t: Token)
    requires (a.Acquire? || a.Create?) && Enabled(s, a) && t < |s.holders|
    ensures GoesItsWay(s, a, Step(s, a), t)
  {
    if a.Acquire? { PiecesMove(Reserve(s, a.mode), |s.holders|, a.encodes); }
    hide ReconcileOrAttach, Admits;
  }

  /** A reservation keeps its mode and generation, and moves on only by a run of its own call, in one of these
      ways. */
  lemma EachGoesItsWay(s: Session, a: Action, t: Token)
    requires Enabled(s, a) && t < |s.holders|
    ensures GoesItsWay(s, a, Step(s, a), t)
  {
    match a
    case Acquire(_, _) => ReservedGoesItsWay(s, a, t); hide GoesItsWay;
    case Create => ReservedGoesItsWay(s, a, t); hide GoesItsWay;
    case Wake(u, encodes) => WokenGoesItsWay(s, u, encodes, t); hide GoesItsWay;
    case Handle(u) => HandledGoesItsWay(s, u, t); hide GoesItsWay;
    case Release(_, _, _) => ReleasedGoesItsWay(s, a, t); hide GoesItsWay;
    case _ => hide MovesOn;
  }

  // ---------- When a cleanup is required ----------

  /** What an action says of the cleanup: a `dispose` that failed asks for one; a reconciliation that succeeded,
      the end of the session or of the connection ask for none. */
  ghost function Orders(s: Session, a: Action): Option<bool> {
    match a
    case Handle(t) => if Relinquishes(s, t) then Some(true) else None
    case FinishReconcile =>
      if s.reconciliation.Some? && !IsRejected(s, s.reconciliation.value) then Some(false) else None
    case Removed => Some(false)
    case Disconnect => Some(false)
    case _ => None
  }

  /** The last word on it, over a run. */
  ghost function Ordered(s: Session, actions: seq<Action>): bool
    requires IsRun(s, actions)
    decreases |actions|
  {
    if actions == [] then s.cleanup
    else
      RunFront(s, actions);
      var front, last := actions[..|actions| - 1], actions[|actions| - 1];
      var said := Orders(After(s, front), last);
      if said.Some? then said.value else Ordered(s, front)
  }

  lemma StepOrders(s: Session, a: Action)
    requires Typed(s) && Enabled(s, a)
    ensures Step(s, a).cleanup == if Orders(s, a).Some? then Orders(s, a).value else s.cleanup
  {
    if a.Wake? {
      ResumeFrame(s, a.t);
      WakeMoves(s, a.t, a.encodes);
      if s.holders[a.t].phase.Releasing? { FailFrame(s, a.t); }
      hide Resume, CanWake, WakeHolder, Fail;
    } else if a.Acquire? {
      PiecesMove(Reserve(s, a.mode), |s.holders|, a.encodes);
      hide ReconcileOrAttach, Admits;
    } else {
      if a.Handle? { assert TypedHolder(s.requests, s.generation, s.holders[a.t]); }
      hide WakeHolder, CanWake, ReconcileOrAttach, Admits, Typed;
    }
  }

  /** Over every calm run a cleanup is required exactly if a `dispose` has failed and since then no reconciliation
      has succeeded and neither session nor connection was lost. */
  lemma {:induction false} CleanupIsOrdered(s: Session, actions: seq<Action>)
    requires Good(s) && IsCalmRun(s, actions) && IsRun(s, actions)
    ensures Good(After(s, actions)) && After(s, actions).cleanup == Ordered(s, actions)
  {
    GoodRun(s, actions);
    if actions != [] {
      var front, last := actions[..|actions| - 1], actions[|actions| - 1];
      RunFront(s, actions);
      CalmFront(s, actions);
      CleanupIsOrdered(s, front);
      StepOrders(After(s, front), last);
    }
  }

  lemma {:induction false} CalmFront(s: Session, actions: seq<Action>)
    requires IsCalmRun(s, actions) && actions != []
    ensures IsCalmRun(s, actions[..|actions| - 1])
    decreases |actions|
  {
    if |actions| > 1 {
      CalmFront(Step(s, actions[0]), actions[1..]);
      assert actions[..|actions| - 1][1..] == actions[1..][..|actions| - 2];
    }
  }

  // ---------- When a lease is active ----------

  /** The connection is up exactly if the last of connecting and losing it was connecting. */
  function Up(was: bool, actions: seq<Action>): bool {
    if actions == [] then was
    else match actions[|actions| - 1]
      case Connect(_) => true
      case Disconnect => false
      case _ => Up(was, actions[..|actions| - 1])
  }

  lemma StepConnects(s: Session, a: Action)
    requires Enabled(s, a)
    ensures Step(s, a).connected == if a.Connect? then true else if a.Disconnect? then false else s.connected
  {
    if a.Wake? || a.Acquire? || a.Create? || a.Handle? || a.Release? {
      CallConnectsNothing(s, a);
      hide Step, Enabled;
    } else {
      hide WakeHolder, CanWake, ReconcileOrAttach, Invalidate;
    }
  }

  lemma PiecesConnectNothing(s: Session, t: Token, encodes: bool)
    requires t < |s.holders|
    ensures GiveBack(s, t).connected == s.connected == CreateLease(s, t).connected
    ensures forall b :: AttachOrLease(s, t, b, encodes).connected == s.connected
    ensures ReconcileOrAttach(s, t, encodes).connected == s.connected
  {}

  lemma CallConnectsNothing(s: Session, a: Action)
    requires Enabled(s, a) && (a.Wake? || a.Acquire? || a.Create? || a.Handle? || a.Release?)
    ensures Step(s, a).connected == s.connected
  {
    hide AttachOrLease, ReconcileOrAttach, GiveBack, Resume, Admits;
    match a
    case Acquire(mode, encodes) => PiecesConnectNothing(Reserve(s, mode), |s.holders|, encodes);
    case Wake(t, encodes) =>
      ResumeLink(s, t);
      ResumeFrame(s, t);
      PiecesConnectNothing(Resume(s, t), t, encodes);
    case Handle(t) => PiecesConnectNothing(s, t, true);
    case Release(t, _, encodes) => PiecesConnectNothing(s, t, encodes);
    case _ =>
  }

  lemma {:induction false} ConnectedIsUp(s: Session, actions: seq<Action>)
    requires IsRun(s, actions)
    ensures After(s, actions).connected == Up(s.connected, actions)
  {
    if actions != [] {
      var front, last := actions[..|actions| - 1], actions[|actions| - 1];
      RunFront(s, actions);
      ConnectedIsUp(s, front);
      StepConnects(After(s, front), last);
      hide Step, Enabled;
    }
  }

  /** Over every run a lease passes its guard exactly if it is of the current generation, the connection is up, and
      the last word on the session is that it is attached. */
  lemma ActiveExactly(s: Session, actions: seq<Action>, t: Token)
    requires IsRun(s, actions)
    ensures var x := After(s, actions);
      IsActive(x, t) <==>
        t < |x.holders| && x.holders[t].phase == Held(x.generation)
        && Up(s.connected, actions) && LastSaid(x.requests, s.attached, actions)
  {
    AttachedIsLastSaid(s, actions);
    ConnectedIsUp(s, actions);
  }
}
