/** The session bookkeeping of `PiClient` (packages/client/src/client.ts): maps keyed by session id,
    updated in place. Each method is one atomic run; its contract says that it performs the
    corresponding action of Leases on that session and leaves every other session alone. */
module PiClient {
  import opened LeaseSafety
  import opened Leases
  import opened Options

  type SessionId(==, !new)

  class PiClient {
    var connected: bool
    var sessionLeaseCounts: map<SessionId, nat>
    var exclusiveSessionLeases: map<SessionId, Token>
    var sessionLeaseGenerations: map<SessionId, nat>
    var sessionAttachments: map<SessionId, PromiseId>
    var sessionDetachments: map<SessionId, PromiseId>
    var sessionReconciliations: map<SessionId, PromiseId>
    var sessionCleanupRequired: set<SessionId>
    var attachedSessionIds: set<SessionId>
    // The control requests sent and the acquire and lease closures created, per session.
    var requests: map<SessionId, seq<Request>>
    var holders: map<SessionId, seq<Holder>>

    predicate Valid()
      reads this
    {
      forall id <- sessionLeaseCounts :: sessionLeaseCounts[id] > 0
    }

    function Get<T>(m: map<SessionId, T>, id: SessionId, default: T): T {
      if id in m then m[id] else default
    }

    function Find<T>(m: map<SessionId, T>, id: SessionId): Option<T> {
      if id in m then Some(m[id]) else None
    }

    function View(id: SessionId): Session
      reads this
    {
      Session(Get(sessionLeaseCounts, id, 0), Find(exclusiveSessionLeases, id), Get(sessionLeaseGenerations, id, 0),
              id in attachedSessionIds, connected,
              Find(sessionAttachments, id), Find(sessionDetachments, id), Find(sessionReconciliations, id),
              id in sessionCleanupRequired, Get(requests, id, []), Get(holders, id, []))
    }

    constructor ()
      ensures Valid() && forall id :: View(id) == START
    {
      connected := false;
      sessionLeaseCounts, exclusiveSessionLeases, sessionLeaseGenerations := map[], map[], map[];
      sessionAttachments, sessionDetachments, sessionReconciliations := map[], map[], map[];
      sessionCleanupRequired, attachedSessionIds := {}, {};
      requests, holders := map[], map[];
    }

    // ---------- Private helpers ----------

    method SetHolder(id: SessionId, t: Token, phase: Phase)
      requires Valid() && t < |View(id).holders|
      modifies this`holders
      ensures View(id) == SetPhase(old(View(id)), t, phase)
      ensures forall o :: o != id ==> View(o) == old(View(o))
    {
      holders := holders[id := holders[id][t := holders[id][t].(phase := phase)]];
    }

    method SendRequest(id: SessionId, command: Command, encodes: bool) returns (p: PromiseId)
      requires Valid()
      modifies this`requests
      ensures p == |old(View(id)).requests| && View(id) == Issue(old(View(id)), command, encodes)
      ensures forall o :: o != id ==> View(o) == old(View(o))
    {
      var sent := Get(requests, id, []);
      p := |sent|;
      requests := requests[id := sent + [Request(command, if connected && encodes then Pending else Rejected)]];
    }

    method ReserveSessionLease(id: SessionId, mode: Mode) returns (token: Option<Token>)
      requires Valid()
      modifies this`sessionLeaseCounts, this`exclusiveSessionLeases, this`holders
      ensures Valid()
      ensures token.Some? <==> Admits(old(View(id)), mode)
      ensures View(id) == if token.Some? then Reserve(old(View(id)), mode) else old(View(id))
      ensures token.Some? ==> token.value == |old(View(id)).holders|
      ensures forall o :: o != id ==> View(o) == old(View(o))
    {
      var count := Get(sessionLeaseCounts, id, 0);
      if mode.Exclusive? && count > 0 { return None; }
      if mode.Shared? && id in exclusiveSessionLeases { return None; }
      var created := Get(holders, id, []);
      var t := |created|;
      sessionLeaseCounts := sessionLeaseCounts[id := count + 1];
      if mode.Exclusive? { exclusiveSessionLeases := exclusiveSessionLeases[id := t]; }
      holders := holders[id := created + [Holder(mode, Get(sessionLeaseGenerations, id, 0), Running)]];
      return Some(t);
    }

    method UncountLease(id: SessionId, t: Token)
      requires Valid()
      modifies this`sessionLeaseCounts, this`exclusiveSessionLeases
      ensures Valid()
      ensures var s := old(View(id));
        View(id) == s.(count := if s.count <= 1 then 0 else s.count - 1,
                       exclusive := if s.exclusive == Some(t) then None else s.exclusive)
      ensures forall o :: o != id ==> View(o) == old(View(o))
    {
      var count := Get(sessionLeaseCounts, id, 0);
      if count <= 1 { sessionLeaseCounts := sessionLeaseCounts - {id}; }
      else { sessionLeaseCounts := sessionLeaseCounts[id := count - 1]; }
      if Find(exclusiveSessionLeases, id) == Some(t) { exclusiveSessionLeases := exclusiveSessionLeases - {id}; }
    }

    method ReleaseSessionLease(id: SessionId, t: Token)
      requires Valid() && t < |View(id).holders|
      modifies this`sessionLeaseCounts, this`exclusiveSessionLeases, this`holders
      ensures Valid() && View(id) == GiveBack(old(View(id)), t)
      ensures forall o :: o != id ==> View(o) == old(View(o))
    {
      hide View;
      UncountLease(id, t);
      SetHolder(id, t, Gone);
    }

    method InvalidateSessionLeases(id: SessionId)
      requires Valid()
      modifies this`sessionLeaseCounts, this`exclusiveSessionLeases, this`sessionCleanupRequired,
        this`sessionLeaseGenerations
      ensures Valid() && View(id) == Invalidate(old(View(id)))
      ensures sessionLeaseCounts == old(sessionLeaseCounts) - {id}
      ensures forall o :: o != id ==> View(o) == old(View(o))
    {
      sessionLeaseCounts := sessionLeaseCounts - {id};
      exclusiveSessionLeases := exclusiveSessionLeases - {id};
      sessionCleanupRequired := sessionCleanupRequired - {id};
      sessionLeaseGenerations := sessionLeaseGenerations[id := Get(sessionLeaseGenerations, id, 0) + 1];
    }

    method InvalidateCountedLeases()
      requires Valid()
      modifies this`sessionLeaseCounts, this`exclusiveSessionLeases, this`sessionCleanupRequired,
        this`sessionLeaseGenerations
      ensures Valid() && sessionLeaseCounts == map[]
      ensures forall id ::
        View(id) == if id in old(sessionLeaseCounts) then Invalidate(old(View(id))) else old(View(id))
    {
      ghost var counted := sessionLeaseCounts.Keys;
      hide View, Invalidate;
      while |sessionLeaseCounts| > 0
        invariant Valid() && sessionLeaseCounts.Keys <= counted
        invariant forall id :: id in sessionLeaseCounts ==> View(id) == old(View(id))
        invariant forall id :: id in counted && id !in sessionLeaseCounts ==> View(id) == Invalidate(old(View(id)))
        invariant forall id :: id !in counted ==> View(id) == old(View(id))
        decreases sessionLeaseCounts.Keys
      {
        var id :| id in sessionLeaseCounts;
        InvalidateSessionLeases(id);
      }
    }

    /** Only sessions that have a count entry get a new generation. */
    method InvalidateAllSessionLeases()
      requires Valid()
      modifies this`sessionLeaseCounts, this`exclusiveSessionLeases, this`sessionCleanupRequired,
        this`sessionLeaseGenerations
      ensures Valid()
      ensures forall id :: View(id) == if old(View(id)).count > 0 then Invalidate(old(View(id)))
                                       else old(View(id)).(cleanup := false)
    {
      InvalidateCountedLeases();
      sessionCleanupRequired := {};
    }

    // ---------- Atomic runs of `acquireSession` ----------

    method AttachOrLeaseNow(id: SessionId, t: Token, reconciled: bool, encodes: bool)
      requires Valid() && t < |View(id).holders|
      modifies this`requests, this`holders, this`sessionAttachments
      ensures Valid() && View(id) == AttachOrLease(old(View(id)), t, reconciled, encodes)
      ensures forall o :: o != id ==> View(o) == old(View(o))
    {
      if reconciled || id !in attachedSessionIds {
        if id !in sessionAttachments {
          var p := SendRequest(id, Attach, encodes);
          sessionAttachments := sessionAttachments[id := p];
        }
        SetHolder(id, t, OnAttach(sessionAttachments[id]));
      } else {
        SetHolder(id, t, Held(Get(sessionLeaseGenerations, id, 0)));
      }
    }

    method ReconcileOrAttachNow(id: SessionId, t: Token, encodes: bool)
      requires Valid() && t < |View(id).holders|
      modifies this`requests, this`holders, this`sessionAttachments, this`sessionReconciliations
      ensures Valid() && View(id) == ReconcileOrAttach(old(View(id)), t, encodes)
      ensures forall o :: o != id ==> View(o) == old(View(o))
    {
      if id in sessionCleanupRequired {
        if id !in sessionReconciliations {
          var p := SendRequest(id, Detach, encodes);
          sessionReconciliations := sessionReconciliations[id := p];
        }
        SetHolder(id, t, OnReconcile(sessionReconciliations[id]));
      } else {
        AttachOrLeaseNow(id, t, false, encodes);
      }
    }

    /** `acquireSession` up to its first suspension; it throws when the mode is not admitted. */
    method AcquireSession(id: SessionId, mode: Mode, encodes: bool) returns (token: Option<Token>)
      requires Valid()
      modifies this
      ensures Valid() && (token.Some? <==> Enabled(old(View(id)), Acquire(mode, encodes)))
      ensures View(id) == if token.Some? then Step(old(View(id)), Acquire(mode, encodes)) else old(View(id))
      ensures forall o :: o != id ==> View(o) == old(View(o))
    {
      token := ReserveSessionLease(id, mode);
      if token.Some? {
        if id in sessionDetachments {
          SetHolder(id, token.value, OnDetach(sessionDetachments[id]));
        } else {
          ReconcileOrAttachNow(id, token.value, encodes);
        }
      }
    }

    /** `createSession` once the server has named the new session. */
    method CreateSession(id: SessionId) returns (token: Option<Token>)
      requires Valid()
      modifies this
      ensures Valid() && (token.Some? <==> Enabled(old(View(id)), Create))
      ensures View(id) == if token.Some? then Step(old(View(id)), Create) else old(View(id))
      ensures forall o :: o != id ==> View(o) == old(View(o))
    {
      token := ReserveSessionLease(id, Exclusive);
      if token.Some? { SetHolder(id, token.value, Held(Get(sessionLeaseGenerations, id, 0))); }
    }

    // ---------- Continuations ----------

    method DropAttachment(id: SessionId, p: PromiseId)
      requires Valid()
      modifies this`sessionAttachments
      ensures Valid()
      ensures var s := old(View(id));
        View(id) == s.(attachment := if s.attachment == Some(p) then None else s.attachment)
      ensures forall o :: o != id ==> View(o) == old(View(o))
    {
      if Find(sessionAttachments, id) == Some(p) { sessionAttachments := sessionAttachments - {id}; }
    }

    method DropDetachment(id: SessionId, p: PromiseId)
      requires Valid()
      modifies this`sessionDetachments
      ensures Valid()
      ensures var s := old(View(id));
        View(id) == s.(detachment := if s.detachment == Some(p) then None else s.detachment)
      ensures forall o :: o != id ==> View(o) == old(View(o))
    {
      if Find(sessionDetachments, id) == Some(p) { sessionDetachments := sessionDetachments - {id}; }
    }

    method Drop(id: SessionId, t: Token)
      requires Valid() && t < |View(id).holders|
      modifies this`holders, this`sessionAttachments, this`sessionDetachments
      ensures Valid() && View(id) == Resume(old(View(id)), t)
      ensures forall o :: o != id ==> View(o) == old(View(o))
    {
      var phase := holders[id][t].phase;
      assert phase == View(id).holders[t].phase;
      hide View, Valid;
      match phase {
        case OnAttach(p) => DropAttachment(id, p);
        case Releasing(_, p, _) => DropDetachment(id, p);
        case _ =>
      }
      SetHolder(id, t, Running);
    }

    method WakeUp(id: SessionId, t: Token, encodes: bool)
      requires Valid() && CanWake(View(id), t)
      modifies this
      ensures Valid() && View(id) == Step(old(View(id)), Wake(t, encodes))
      ensures forall o :: o != id ==> View(o) == old(View(o))
    {
      var phase := holders[id][t].phase;
      var settled := if phase.OnDetach? then Fulfilled else requests[id][phase.p].status;
      Drop(id, t);
      match phase {
        case OnDetach(_) => ReconcileOrAttachNow(id, t, encodes);
        case OnReconcile(p) =>
          if settled.Fulfilled? { AttachOrLeaseNow(id, t, true, encodes); } else { ReleaseSessionLease(id, t); }
        case OnAttach(p) =>
          if settled.Fulfilled? { SetHolder(id, t, Held(Get(sessionLeaseGenerations, id, 0))); }
          else { ReleaseSessionLease(id, t); }
        case Releasing(g, p, relinquish) =>
          if settled.Fulfilled? { ReleaseSessionLease(id, t); } else { SetHolder(id, t, Failing(g, p, relinquish)); }
      }
    }

    /** The `.catch` handler of a failed release. */
    method HandleReleaseFailure(id: SessionId, t: Token)
      requires Valid() && Enabled(View(id), Handle(t))
      modifies this
      ensures Valid() && View(id) == Step(old(View(id)), Handle(t))
      ensures forall o :: o != id ==> View(o) == old(View(o))
    {
      var phase := holders[id][t].phase;
      if phase.generation != Get(sessionLeaseGenerations, id, 0) {
        SetHolder(id, t, Gone);
      } else if phase.relinquish {
        ReleaseSessionLease(id, t);
        sessionCleanupRequired := sessionCleanupRequired + {id};
      } else {
        SetHolder(id, t, Held(phase.generation));
      }
    }

    /** The `.then` and `.finally` of `#reconcileSessionCleanup`. */
    method FinishReconciliation(id: SessionId)
      requires Valid() && Enabled(View(id), FinishReconcile)
      modifies this
      ensures Valid() && View(id) == Step(old(View(id)), FinishReconcile)
      ensures forall o :: o != id ==> View(o) == old(View(o))
    {
      if requests[id][sessionReconciliations[id]].status.Fulfilled? {
        sessionCleanupRequired := sessionCleanupRequired - {id};
      }
      sessionReconciliations := sessionReconciliations - {id};
    }

    /** `detach` and `dispose` of a lease; they do nothing unless the lease is active. */
    method ReleaseLease(id: SessionId, t: Token, relinquish: bool, encodes: bool)
      requires Valid()
      modifies this
      ensures Valid()
      ensures View(id) == if IsActive(old(View(id)), t) then Step(old(View(id)), Release(t, relinquish, encodes))
                          else old(View(id))
      ensures forall o :: o != id ==> View(o) == old(View(o))
    {
      if !IsActive(View(id), t) { return; }
      if Get(sessionLeaseCounts, id, 0) <= 1 {
        var p := SendRequest(id, Detach, encodes);
        sessionDetachments := sessionDetachments[id := p];
        SetHolder(id, t, Releasing(Get(sessionLeaseGenerations, id, 0), p, relinquish));
      } else {
        ReleaseSessionLease(id, t);
      }
    }

    // ---------- Messages and the connection ----------

    /** `#handleMessage` for the answer to a session-control request. */
    method HandleAnswer(id: SessionId, p: PromiseId, ok: bool, attached: bool)
      requires Valid() && Enabled(View(id), Answer(p, ok, attached))
      modifies this
      ensures Valid() && View(id) == Step(old(View(id)), Answer(p, ok, attached))
      ensures forall o :: o != id ==> View(o) == old(View(o))
    {
      var request := requests[id][p];
      requests := requests[id := requests[id][p := request.(status := if ok then Fulfilled else Rejected)]];
      if ok {
        if request.command.Attach? && attached { attachedSessionIds := attachedSessionIds + {id}; }
        else { attachedSessionIds := attachedSessionIds - {id}; }
      }
    }

    method HandleSessionRemoved(id: SessionId)
      requires Valid() && connected
      modifies this
      ensures Valid() && View(id) == Step(old(View(id)), Removed)
      ensures forall o :: o != id ==> View(o) == old(View(o))
    {
      InvalidateSessionLeases(id);
      attachedSessionIds := attachedSessionIds - {id};
    }

    /** No connection, and nothing attached. */
    method ClearConnection()
      requires Valid()
      modifies this`connected, this`attachedSessionIds
      ensures Valid() && forall id :: View(id) == old(View(id)).(connected := false, attached := false)
    {
      connected := false;
      attachedSessionIds := {};
    }

    method RejectPendingRequests()
      requires Valid()
      modifies this`requests
      ensures Valid() && forall id :: View(id) == old(View(id)).(requests := RejectPending(old(View(id)).requests))
    {
      requests := map id | id in requests :: RejectPending(requests[id]);
      assert RejectPending([]) == [];
    }

    /** `#handleConnectionStateChange` to `disconnected`: every session takes its own step. */
    method HandleDisconnected()
      requires Valid() && connected
      modifies this
      ensures Valid() && forall id :: View(id) == Step(old(View(id)), Disconnect)
    {
      assert forall id :: View(id).connected;
      hide View;
      ClearConnection();
      InvalidateAllSessionLeases();
      RejectPendingRequests();
      forall id ensures View(id) == Step(old(View(id)), Disconnect) { DisconnectsAsStep(old(View(id))); }
    }

    /** A server snapshot lists the sessions attached for this client; at the handshake it also marks
        the connection as established. */
    method HandleServerSnapshot(attachedIds: set<SessionId>, handshake: bool)
      requires Valid() && (handshake <==> !connected)
      modifies this`connected, this`attachedSessionIds
      ensures Valid() && connected
      ensures forall id :: View(id) == Step(old(View(id)), if handshake then Connect(id in attachedIds)
                                                           else ServerSays(id in attachedIds))
    {
      connected := true;
      attachedSessionIds := attachedIds;
    }

    // ---------- All sessions together ----------

    ghost predicate AllGood()
      reads this
    {
      Valid() && forall id :: Good(View(id))
    }

    /** The method that performs an action on one session. */
    method Act(id: SessionId, a: Action)
      requires Valid() && Enabled(View(id), a) && !a.Connect? && !a.Disconnect? && !a.ServerSays?
      modifies this
      ensures Valid() && View(id) == Step(old(View(id)), a)
      ensures forall o :: o != id ==> View(o) == old(View(o))
    {
      assert connected == View(id).connected;
      hide CanWake, Step, View, Valid;
      match a {
        case Acquire(mode, encodes) => var _ := AcquireSession(id, mode, encodes);
        case Create => var _ := CreateSession(id);
        case Wake(t, encodes) => WakeUp(id, t, encodes);
        case Handle(t) => HandleReleaseFailure(id, t);
        case FinishReconcile => FinishReconciliation(id);
        case Release(t, relinquish, encodes) => ReleaseLease(id, t, relinquish, encodes);
        case Answer(p, ok, attached) => HandleAnswer(id, p, ok, attached);
        case Removed => HandleSessionRemoved(id);
      }
    }

    /** A calm action on one session keeps every session safe. */
    method Perform(id: SessionId, a: Action)
      requires AllGood() && Enabled(View(id), a) && Calm(View(id), a)
      requires !a.Connect? && !a.Disconnect? && !a.ServerSays?
      modifies this
      ensures AllGood() && View(id) == Step(old(View(id)), a)
      ensures forall o :: Safe(View(o))
    {
      GoodStep(View(id), a);
      hide Good, Calm, Enabled, Step, View, Safe, Valid;
      Act(id, a);
      forall o ensures Good(View(o)) && Safe(View(o)) {
        assert o == id || View(o) == old(View(o));
        GoodIsSafe(View(o));
      }
    }

    /** So does a snapshot of the server, if the connection it may establish is calm for every session. */
    method ReceiveSnapshot(attachedIds: set<SessionId>)
      requires AllGood() && forall id :: !connected ==> Calm(View(id), Connect(id in attachedIds))
      modifies this
      ensures AllGood() && connected
      ensures forall id :: View(id) == Step(old(View(id)), if old(connected) then ServerSays(id in attachedIds)
                                                           else Connect(id in attachedIds))
      ensures forall o :: Safe(View(o))
    {
      var handshake := !connected;
      HandleServerSnapshot(attachedIds, handshake);
      hide Good, Calm, Safe, Step;
      forall o ensures Good(View(o)) && Safe(View(o)) {
        GoodStep(old(View(o)), if handshake then Connect(o in attachedIds) else ServerSays(o in attachedIds));
        GoodIsSafe(View(o));
      }
    }

    /** So does a calm loss of the connection. */
    method LoseConnection()
      requires AllGood() && connected && forall id :: Calm(View(id), Disconnect)
      modifies this
      ensures AllGood() && forall o :: Safe(View(o))
    {
      HandleDisconnected();
      forall o ensures Good(View(o)) && Safe(View(o)) {
        GoodStep(old(View(o)), Disconnect);
        GoodIsSafe(View(o));
      }
    }
  }

  /** Losing the connection, invalidating and rejecting, one after the other, is one step. */
  lemma DisconnectsAsStep(s: Session)
    requires s.connected
    ensures var a := s.(connected := false, attached := false);
      var b := if a.count > 0 then Invalidate(a) else a.(cleanup := false);
      Step(s, Disconnect) == b.(requests := RejectPending(b.requests))
  {}
}
