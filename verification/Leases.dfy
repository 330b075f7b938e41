/** The lease protocol of packages/client/src/client.ts for one session: reference-counted shared
    and exclusive leases over attach/resume and detach requests.

    Every action is one run of the client from one `await` to the next. Tokens number the
    reservations and promise ids the session-control requests, both in order of creation. */
module Leases {

  import opened Options

  datatype Mode = Shared | Exclusive

  /** `Attach` stands for both `attach` and `resume`. */
  datatype Command = Attach | Detach

  datatype Status = Pending | Fulfilled | Rejected

  datatype Request = Request(command: Command, status: Status)

  type Token = nat
  type PromiseId = nat

  /** Where the reservation of a token stands. The first three are suspended `acquireSession` calls,
      `Releasing` is a release awaiting its detach request, and `Failing` is such a release between
      its own throw and the `.catch` handler attached to it. `Running` is a call whose code is running
      right now; it is never seen between two actions. `Gone` is a reservation given back, a
      failed acquire, or a lease that has noticed its invalidation. */
  datatype Phase =
    | OnDetach(p: PromiseId)
    | OnReconcile(p: PromiseId)
    | OnAttach(p: PromiseId)
    | Held(generation: nat)
    | Releasing(generation: nat, p: PromiseId, relinquish: bool)
    | Failing(generation: nat, p: PromiseId, relinquish: bool)
    | Running
    | Gone

  /** `born` is the generation in which the reservation was made. */
  datatype Holder = Holder(mode: Mode, born: nat, phase: Phase)

  datatype Session = Session(
    count: nat,
    exclusive: Option<Token>,
    generation: nat,
    attached: bool,
    connected: bool,
    attachment: Option<PromiseId>,
    detachment: Option<PromiseId>,
    reconciliation: Option<PromiseId>,
    cleanup: bool,
    requests: seq<Request>,
    holders: seq<Holder>)

  const START := Session(0, None, 0, false, false, None, None, None, false, [], [])

  // ---------- Pieces of the client's code ----------

  function SetPhase(s: Session, t: Token, phase: Phase): Session
    requires t < |s.holders|
  {
    s.(holders := s.holders[t := s.holders[t].(phase := phase)])
  }

  /** `#request`: rejected at once when disconnected or when the frame cannot be encoded. */
  function Issue(s: Session, command: Command, encodes: bool): Session {
    s.(requests := s.requests + [Request(command, if s.connected && encodes then Pending else Rejected)])
  }

  predicate Admits(s: Session, mode: Mode) {
    match mode
    case Exclusive => s.count == 0
    case Shared => s.exclusive.None?
  }

  /** `#reserveSessionLease`, for a mode it admits; the new token is `|s.holders|`. */
  function Reserve(s: Session, mode: Mode): Session {
    s.(count := s.count + 1,
       exclusive := if mode.Exclusive? then Some(|s.holders|) else s.exclusive,
       holders := s.holders + [Holder(mode, s.generation, Running)])
  }

  /** `#releaseSessionLease`: it counts down by session, whatever generation the token is from. */
  function GiveBack(s: Session, t: Token): Session
    requires t < |s.holders|
  {
    SetPhase(s, t, Gone).(
      count := if s.count <= 1 then 0 else s.count - 1,
      exclusive := if s.exclusive == Some(t) then None else s.exclusive)
  }

  /** `#createSessionLease`: the lease takes the generation current at this moment. */
  function CreateLease(s: Session, t: Token): Session
    requires t < |s.holders|
  {
    SetPhase(s, t, Held(s.generation))
  }

  /** `acquireSession` from the attachment check on. */
  function AttachOrLease(s: Session, t: Token, reconciled: bool, encodes: bool): Session
    requires t < |s.holders|
  {
    if reconciled || !s.attached then
      if s.attachment.Some? then SetPhase(s, t, OnAttach(s.attachment.value))
      else SetPhase(Issue(s, Attach, encodes).(attachment := Some(|s.requests|)), t, OnAttach(|s.requests|))
    else CreateLease(s, t)
  }

  /** `acquireSession` from the cleanup check on. */
  function ReconcileOrAttach(s: Session, t: Token, encodes: bool): Session
    requires t < |s.holders|
  {
    if s.cleanup then
      if s.reconciliation.Some? then SetPhase(s, t, OnReconcile(s.reconciliation.value))
      else SetPhase(Issue(s, Detach, encodes).(reconciliation := Some(|s.requests|)), t, OnReconcile(|s.requests|))
    else AttachOrLease(s, t, false, encodes)
  }

  /** `#invalidateSessionLeases`. */
  function Invalidate(s: Session): Session {
    s.(count := 0, exclusive := None, cleanup := false, generation := s.generation + 1)
  }

  function RejectPending(requests: seq<Request>): (r: seq<Request>)
    ensures |r| == |requests|
  {
    seq(|requests|, i requires 0 <= i < |requests| =>
      if requests[i].status.Pending? then requests[i].(status := Rejected) else requests[i])
  }

  // ---------- The actions ----------

  datatype Action =
    | Acquire(mode: Mode, encodes: bool)
    | Create
    | Wake(t: Token, encodes: bool)
    | Handle(t: Token)
    | FinishReconcile
    | Release(t: Token, relinquish: bool, encodes: bool)
    | Answer(p: PromiseId, ok: bool, attached: bool)
    | ServerSays(attached: bool)
    | Removed
    | Connect(attached: bool)
    | Disconnect

  predicate IsSettled(s: Session, p: PromiseId) {
    p < |s.requests| && !s.requests[p].status.Pending?
  }

  predicate AwaitsRelease(h: Holder, p: PromiseId) {
    (h.phase.Releasing? || h.phase.Failing?) && h.phase.p == p
  }

  /** The continuation of holder `t` may run. An acquire that waits for the detach request of a
      release subscribed to it after that release did, so it runs after the release's own
      continuation and `.catch` handler; the waiters of a reconciliation run after its `finally`. */
  predicate CanWake(s: Session, t: Token) {
    t < |s.holders| &&
    match s.holders[t].phase
    case OnDetach(p) => IsSettled(s, p) && forall h <- s.holders :: !AwaitsRelease(h, p)
    case OnReconcile(p) => IsSettled(s, p) && s.reconciliation != Some(p)
    case OnAttach(p) => IsSettled(s, p)
    case Releasing(_, p, _) => IsSettled(s, p)
    case _ => false
  }

  /** `assertActive` of the lease of token `t`: the guard of every command it sends. */
  predicate IsActive(s: Session, t: Token) {
    && t < |s.holders| && s.holders[t].phase.Held? && s.holders[t].phase.generation == s.generation
    && s.connected && s.attached
  }

  predicate Enabled(s: Session, a: Action) {
    match a
    case Acquire(mode, _) => Admits(s, mode)
    case Create => Admits(s, Exclusive)
    case Wake(t, _) => CanWake(s, t)
    case Handle(t) => t < |s.holders| && s.holders[t].phase.Failing?
    case FinishReconcile => s.reconciliation.Some? && IsSettled(s, s.reconciliation.value)
    case Release(t, _, _) => IsActive(s, t)
    case Answer(p, _, _) => p < |s.requests| && s.requests[p].status.Pending?
    case ServerSays(_) => s.connected
    case Removed => s.connected
    case Connect(_) => !s.connected
    case Disconnect => s.connected
  }

  /** The holder runs again, and the `finally` of its await drops the shared promise it waited for. */
  function Resume(s: Session, t: Token): Session
    requires t < |s.holders|
  {
    var r := SetPhase(s, t, Running);
    match s.holders[t].phase
    case OnAttach(p) => if s.attachment == Some(p) then r.(attachment := None) else r
    case Releasing(_, p, _) => if s.detachment == Some(p) then r.(detachment := None) else r
    case _ => r
  }

  function WakeHolder(s: Session, t: Token, encodes: bool): Session
    requires CanWake(s, t)
  {
    var r := Resume(s, t);
    match s.holders[t].phase
    case OnDetach(_) => ReconcileOrAttach(r, t, encodes)
    case OnReconcile(p) =>
      if s.requests[p].status.Fulfilled? then AttachOrLease(r, t, true, encodes) else GiveBack(r, t)
    case OnAttach(p) =>
      if s.requests[p].status.Fulfilled? then CreateLease(r, t) else GiveBack(r, t)
    case Releasing(g, p, relinquish) =>
      if s.requests[p].status.Fulfilled? then GiveBack(r, t) else SetPhase(r, t, Failing(g, p, relinquish))
  }

  function Step(s: Session, a: Action): Session
    requires Enabled(s, a)
  {
    match a
    case Acquire(mode, encodes) =>
      var t := |s.holders|;
      if s.detachment.Some? then SetPhase(Reserve(s, mode), t, OnDetach(s.detachment.value))
      else ReconcileOrAttach(Reserve(s, mode), t, encodes)
    case Create => CreateLease(Reserve(s, Exclusive), |s.holders|)
    case Wake(t, encodes) => WakeHolder(s, t, encodes)
    case Handle(t) =>
      var phase := s.holders[t].phase;
      if phase.generation != s.generation then SetPhase(s, t, Gone)
      else if phase.relinquish then GiveBack(s, t).(cleanup := true)
      else SetPhase(s, t, Held(phase.generation))
    case FinishReconcile =>
      s.(cleanup := s.cleanup && s.requests[s.reconciliation.value].status.Rejected?, reconciliation := None)
    case Release(t, relinquish, encodes) =>
      if s.count <= 1 then
        SetPhase(Issue(s, Detach, encodes).(detachment := Some(|s.requests|)), t,
                 Releasing(s.generation, |s.requests|, relinquish))
      else GiveBack(s, t)
    case Answer(p, ok, attached) =>
      s.(requests := s.requests[p := s.requests[p].(status := if ok then Fulfilled else Rejected)],
         attached := if !ok then s.attached else s.requests[p].command.Attach? && attached)
    case ServerSays(attached) => s.(attached := attached)
    case Removed => Invalidate(s).(attached := false)
    case Connect(attached) => s.(connected := true, attached := attached)
    case Disconnect =>
      var s1 := s.(connected := false, attached := false, requests := RejectPending(s.requests));
      if s1.count > 0 then Invalidate(s1) else s1.(cleanup := false)
  }

  // ---------- Runs ----------

  ghost predicate IsRun(s: Session, actions: seq<Action>)
    decreases |actions|
  {
    actions != [] ==> Enabled(s, actions[0]) && IsRun(Step(s, actions[0]), actions[1..])
  }

  ghost function After(s: Session, actions: seq<Action>): Session
    requires IsRun(s, actions)
    decreases |actions|
  {
    if actions == [] then s else After(Step(s, actions[0]), actions[1..])
  }

  predicate Suspended(phase: Phase) {
    !phase.Held? && !phase.Gone?
  }

  /** The reservations made and not given back since the last invalidation. */
  ghost function Outstanding(s: Session): set<Token> {
    set t: Token | t < |s.holders| && s.holders[t].phase != Gone && s.holders[t].born == s.generation
  }

  predicate IsRejected(s: Session, p: PromiseId) {
    p < |s.requests| && s.requests[p].status.Rejected?
  }

  /** A call suspended before the last invalidation that has not settled yet. */
  predicate Stale(s: Session, t: Token) {
    t < |s.holders| && Suspended(s.holders[t].phase) && s.holders[t].born != s.generation
  }

  /** A release that can only fail, or has failed: if it is stale its handler does nothing. */
  predicate Spent(s: Session, t: Token) {
    && t < |s.holders|
    && (s.holders[t].phase.Failing? || (s.holders[t].phase.Releasing? && IsRejected(s, s.holders[t].phase.p)))
  }

  /** A stale call that has yet to touch the count: a suspended acquire, or a release that may succeed. */
  predicate Spoils(s: Session, t: Token) {
    Stale(s, t) && !Spent(s, t)
  }

  ghost predicate Draining(s: Session) {
    exists t: Token :: Spoils(s, t)
  }

  /** A suspended acquire that has not been refused: it goes on to ask for, or to use, an attachment. */
  predicate Returning(s: Session, t: Token) {
    t < |s.holders| &&
    match s.holders[t].phase
    case OnDetach(_) => true
    case OnReconcile(p) => !IsRejected(s, p)
    case OnAttach(p) => !IsRejected(s, p)
    case _ => false
  }

  /** A failed `dispose` of the current generation whose `.catch` handler has not run yet. */
  predicate Relinquishes(s: Session, t: Token) {
    && t < |s.holders| && s.holders[t].phase.Failing? && s.holders[t].phase.relinquish
    && s.holders[t].born == s.generation
  }

  /** An acquire whose attach request has been answered, but that has not run since. */
  predicate AttachAnswered(s: Session, t: Token) {
    && t < |s.holders| && s.holders[t].phase.OnAttach?
    && s.holders[t].phase.p < |s.requests| && s.requests[s.holders[t].phase.p].status.Fulfilled?
  }

  /** The schedules under which the protocol keeps its promises. LeaseRaces proves that each of these
      conditions is exact. */
  ghost predicate Calm(s: Session, a: Action) {
    match a
    case Acquire(_, _) => !Draining(s) && forall t: Token :: !Relinquishes(s, t)
    case Create => !Draining(s)
    case Connect(_) => forall t: Token :: Stale(s, t) ==> !Returning(s, t)
    case Removed => forall t: Token :: !Returning(s, t)
    case Disconnect => forall t: Token :: !AttachAnswered(s, t)
    case _ => true
  }

  ghost predicate IsCalmRun(s: Session, actions: seq<Action>)
    decreases |actions|
  {
    actions != [] ==> Enabled(s, actions[0]) && Calm(s, actions[0]) && IsCalmRun(Step(s, actions[0]), actions[1..])
  }
}
