/** `ClientState` (packages/client/src/state.ts): session snapshots, progress sequences and attached
    ids, updated in place. `heard` records the progress notified to listeners since the sequence of
    its session was last set by anything else, so that each session is a Resume.Watermark. */
module ClientState {
  import opened Options
  import opened Resume

  type SessionId(==, !new)
  type ServerId(==, !new)
  type AttachmentId(==, !new)
  /** What a session snapshot or an attachment carries besides the fields below. */
  type Body(!new)

  datatype Attachment = Attachment(id: AttachmentId, sessionId: Option<SessionId>, content: Body)

  datatype SessionSnapshot = SessionSnapshot(id: SessionId, revision: nat, lastSequence: nat, attached: bool,
                                             attachments: seq<Attachment>, body: Body)

  datatype ServerSnapshot = ServerSnapshot(serverId: ServerId, revision: nat, attachedIds: set<SessionId>)

  datatype Event =
    | SessionProgress(id: SessionId, sequence: nat)
    | ServerSnapshotEvent(server: ServerSnapshot)
    | SessionSnapshotEvent(session: SessionSnapshot)
    | SessionRemoved(id: SessionId)
    | AttachmentSnapshot(attachment: Attachment)
    | AttachmentRemoved(id: SessionId, attachmentId: AttachmentId)
    // A source or citation event with the body it turns the stored one into.
    | Merge(id: SessionId, merged: Body)

  datatype Result = Listed | Detached(id: SessionId) | Speech | SessionResult(session: SessionSnapshot)

  /** The attachments that do not have this id, in order. */
  function Others(attachments: seq<Attachment>, id: AttachmentId): seq<Attachment> {
    if attachments == [] then []
    else
      var last := attachments[|attachments| - 1];
      Others(attachments[..|attachments| - 1], id) + if last.id == id then [] else [last]
  }

  predicate Has(attachments: seq<Attachment>, id: AttachmentId) {
    exists i :: 0 <= i < |attachments| && attachments[i].id == id
  }

  /** They are as many as before exactly if none had the id, and then they are the same. */
  lemma {:induction false} OthersOf(attachments: seq<Attachment>, id: AttachmentId)
    ensures |Others(attachments, id)| <= |attachments| && !Has(Others(attachments, id), id)
    ensures |Others(attachments, id)| == |attachments| <==> !Has(attachments, id)
    ensures !Has(attachments, id) ==> Others(attachments, id) == attachments
    ensures forall a :: a in attachments && a.id != id ==> a in Others(attachments, id)
  {
    if attachments != [] {
      var front := attachments[..|attachments| - 1];
      OthersOf(front, id);
      assert forall i :: 0 <= i < |front| ==> attachments[i] == front[i];
      assert attachments == front + [attachments[|attachments| - 1]];
    }
  }

  class ClientState {
    var sessionSnapshots: map<SessionId, SessionSnapshot>
    var sessionSequences: map<SessionId, nat>
    var attachedSessionIds: set<SessionId>
    var snapshot: Option<ServerSnapshot>
    ghost var bases: map<SessionId, nat>
    ghost var heard: map<SessionId, seq<nat>>

    constructor ()
      ensures Valid() && forall id :: Mark(id) == Watermark(0, 0, [])
    {
      sessionSnapshots, sessionSequences, attachedSessionIds, snapshot := map[], map[], {}, None;
      bases, heard := map[], map[];
    }

    ghost function Mark(id: SessionId): Watermark
      reads this
    {
      Watermark(if id in sessionSequences then sessionSequences[id] else 0,
                if id in bases then bases[id] else 0,
                if id in heard then heard[id] else [])
    }

    ghost predicate Valid()
      reads this
    {
      && (forall id :: Rising(Mark(id)))
      && (forall id :: id in sessionSnapshots ==> sessionSnapshots[id].id == id)
    }

    /** The input that the application of a session snapshot is for its own session, if it is applied. */
    predicate Applies(session: SessionSnapshot, force: bool)
      reads this
    {
      force || session.id !in sessionSnapshots || session.revision >= sessionSnapshots[session.id].revision
    }

    function GetLastSequence(id: SessionId): nat
      reads this
    {
      if id in sessionSequences then sessionSequences[id] else 0
    }

    /** `reset` keeps the sequences, so that the client can resume. */
    method Reset()
      requires Valid()
      modifies this
      ensures Valid() && snapshot == None && sessionSnapshots == map[] && attachedSessionIds == {}
      ensures forall id :: Mark(id) == old(Mark(id))
    {
      snapshot, sessionSnapshots, attachedSessionIds := None, map[], {};
      forall id ensures Rising(Mark(id)) { assert old(Rising(Mark(id))); }
    }

    method ForgetSessionSnapshot(id: SessionId) returns (previous: Option<SessionSnapshot>)
      requires Valid()
      modifies this`sessionSnapshots
      ensures Valid() && sessionSnapshots == old(sessionSnapshots) - {id}
      ensures previous == if id in old(sessionSnapshots) then Some(old(sessionSnapshots)[id]) else None
      ensures forall o :: Mark(o) == old(Mark(o))
    {
      previous := if id in sessionSnapshots then Some(sessionSnapshots[id]) else None;
      sessionSnapshots := sessionSnapshots - {id};
      forall id ensures Rising(Mark(id)) { assert old(Rising(Mark(id))); }
    }

    method RestoreSessionSnapshot(session: SessionSnapshot)
      requires Valid()
      modifies this`sessionSnapshots
      ensures Valid() && forall o :: Mark(o) == old(Mark(o))
      ensures session.id in sessionSnapshots
      ensures sessionSnapshots == if session.id in old(sessionSnapshots) then old(sessionSnapshots)
                                  else old(sessionSnapshots)[session.id := session]
    {
      if session.id !in sessionSnapshots { sessionSnapshots := sessionSnapshots[session.id := session]; }
      forall id ensures Rising(Mark(id)) { assert old(Rising(Mark(id))); }
    }

    method ApplySessionSnapshot(session: SessionSnapshot, force: bool)
      requires Valid()
      modifies this
      ensures Valid()
      ensures forall id :: Mark(id) == if id == session.id && old(Applies(session, force))
                                       then Take(old(Mark(id)), Snapshot(session.lastSequence)) else old(Mark(id))
      ensures old(Applies(session, force)) ==> Replaced(session)
      ensures !old(Applies(session, force)) ==> unchanged(this)
    {
      if !force && session.id in sessionSnapshots && session.revision < sessionSnapshots[session.id].revision {
        return;
      }
      hide Rising, Mark;
      StoreSession(session);
    }

    method StoreSession(session: SessionSnapshot)
      requires Valid()
      modifies this
      ensures Valid() && Replaced(session)
      ensures forall id :: Mark(id) ==
                if id == session.id then Take(old(Mark(id)), Snapshot(session.lastSequence)) else old(Mark(id))
    {
      sessionSequences := sessionSequences[session.id := session.lastSequence];
      sessionSnapshots := sessionSnapshots[session.id := session];
      if session.attached { attachedSessionIds := attachedSessionIds + {session.id}; }
      else { attachedSessionIds := attachedSessionIds - {session.id}; }
      bases, heard := bases[session.id := session.lastSequence], heard[session.id := []];
      assert Rising(Watermark(session.lastSequence, session.lastSequence, []));
      hide Rising;
      forall id ensures Rising(Mark(id)) { assert old(Rising(Mark(id))); }
    }

    /** A newer or equal server snapshot decides which sessions are attached; one from another server
        instance also forgets every sequence. */
    method ApplyServerSnapshot(server: ServerSnapshot)
      requires Valid()
      modifies this
      ensures Valid() && sessionSnapshots == old(sessionSnapshots)
      ensures var stale := old(snapshot).Some? && server.revision < old(snapshot).value.revision;
              var other := old(snapshot).Some? && server.serverId != old(snapshot).value.serverId;
              && (stale ==> unchanged(this))
              && (!stale ==> snapshot == Some(server) && attachedSessionIds == server.attachedIds)
              && (forall id :: Mark(id) == if !stale && other then Take(old(Mark(id)), Forget) else old(Mark(id)))
    {
      if snapshot.Some? && server.revision < snapshot.value.revision { return; }
      if snapshot.Some? && snapshot.value.serverId != server.serverId {
        sessionSequences, bases, heard := map[], map[], map[];
      }
      snapshot := Some(server);
      attachedSessionIds := server.attachedIds;
      forall id ensures Rising(Mark(id)) { assert old(Rising(Mark(id))); }
    }

    /** `PiClient.connect` and its handshake. The old snapshot is gone by the time the new one is applied, so
        every watermark stays, also when the server is another instance than before. */
    method Reconnect(server: ServerSnapshot)
      requires Valid()
      modifies this
      ensures Valid() && snapshot == Some(server) && attachedSessionIds == server.attachedIds
        && sessionSnapshots == map[]
      ensures forall id :: Mark(id) == old(Mark(id))
    {
      hide Rising, Mark;
      Reset();
      ApplyServerSnapshot(server);
    }

    /** A stored session is replaced, and is attached or not as its snapshot says. */
    twostate predicate Replaced(session: SessionSnapshot)
      reads this
    {
      && snapshot == old(snapshot) && sessionSnapshots == old(sessionSnapshots)[session.id := session]
      && attachedSessionIds == if session.attached then old(attachedSessionIds) + {session.id}
                               else old(attachedSessionIds) - {session.id}
    }

    /** No revision goes back. */
    twostate predicate NeverOlder()
      reads this
    {
      && (forall id :: id in old(sessionSnapshots) && id in sessionSnapshots ==>
            sessionSnapshots[id].revision >= old(sessionSnapshots)[id].revision)
      && (old(snapshot).Some? ==> snapshot.Some? && snapshot.value.revision >= old(snapshot).value.revision)
    }

    twostate predicate Same()
      reads this
    {
      && snapshot == old(snapshot) && sessionSnapshots == old(sessionSnapshots)
      && attachedSessionIds == old(attachedSessionIds)
    }

    /** What an event makes of the stored sessions, the attached ones and the server's snapshot. */
    twostate predicate Handled(event: Event)
      reads this
    {
      match event
      case SessionProgress(_, _) => Same()
      case ServerSnapshotEvent(server) =>
        if old(snapshot).Some? && server.revision < old(snapshot).value.revision then Same()
        else
          && snapshot == Some(server) && attachedSessionIds == server.attachedIds
          && sessionSnapshots == old(sessionSnapshots)
      case SessionSnapshotEvent(session) => if old(Applies(session, false)) then Replaced(session) else Same()
      case SessionRemoved(id) =>
        && snapshot == old(snapshot)
        && sessionSnapshots == old(sessionSnapshots) - {id} && attachedSessionIds == old(attachedSessionIds) - {id}
      case AttachmentSnapshot(attachment) =>
        if attachment.sessionId.Some? && attachment.sessionId.value in old(sessionSnapshots) then
          var stored := old(sessionSnapshots)[attachment.sessionId.value];
          Replaced(stored.(attachments := Others(stored.attachments, attachment.id) + [attachment]))
        else Same()
      case AttachmentRemoved(id, attachmentId) =>
        if id in old(sessionSnapshots) && Has(old(sessionSnapshots)[id].attachments, attachmentId) then
          var stored := old(sessionSnapshots)[id];
          Replaced(stored.(attachments := Others(stored.attachments, attachmentId)))
        else Same()
      case Merge(id, merged) =>
        if id in old(sessionSnapshots) then Replaced(old(sessionSnapshots)[id].(body := merged)) else Same()
    }

    method Detach(id: SessionId)
      requires Valid()
      modifies this`attachedSessionIds
      ensures Valid() && attachedSessionIds == old(attachedSessionIds) - {id}
      ensures forall o :: Mark(o) == old(Mark(o))
    {
      attachedSessionIds := attachedSessionIds - {id};
      forall o ensures Rising(Mark(o)) { assert old(Rising(Mark(o))); }
    }

    method ApplyResult(result: Result)
      requires Valid()
      modifies this
      ensures Valid()
      ensures forall id :: Mark(id) ==
                match result
                case Detached(d) =>
                  if id == d && d in old(sessionSnapshots)
                  then Take(old(Mark(id)), Snapshot(old(sessionSnapshots)[d].lastSequence)) else old(Mark(id))
                case SessionResult(session) =>
                  if id == session.id && old(Applies(session, false))
                  then Take(old(Mark(id)), Snapshot(session.lastSequence)) else old(Mark(id))
                case _ => old(Mark(id))
      ensures match result
              case Detached(id) =>
                && snapshot == old(snapshot) && attachedSessionIds == old(attachedSessionIds) - {id}
                && sessionSnapshots ==
                   if id in old(sessionSnapshots)
                   then old(sessionSnapshots)[id := old(sessionSnapshots)[id].(attached := false)]
                   else old(sessionSnapshots)
              case SessionResult(session) => if old(Applies(session, false)) then Replaced(session) else Same()
              case _ => unchanged(this)
    {
      match result {
        case Listed =>
        case Detached(id) =>
          Detach(id);
          if id in sessionSnapshots {
            ApplySessionSnapshot(sessionSnapshots[id].(attached := false), true);
          }
        case Speech =>
        case SessionResult(session) => ApplySessionSnapshot(session, false);
      }
    }

    /** What `event` is for session `id`: nothing, or one input of its watermark. */
    ghost function InputOf(event: Event, id: SessionId): Option<Input>
      reads this
    {
      match event
      case SessionProgress(o, k) => if o == id then Some(Progress(k)) else None
      case ServerSnapshotEvent(server) =>
        if snapshot.Some? && server.revision >= snapshot.value.revision && server.serverId != snapshot.value.serverId
        then Some(Forget) else None
      case SessionSnapshotEvent(session) =>
        if session.id == id && Applies(session, false) then Some(Snapshot(session.lastSequence)) else None
      case SessionRemoved(o) => if o == id then Some(Forget) else None
      case AttachmentSnapshot(attachment) => if attachment.sessionId == Some(id) then Reapplied(id) else None
      case AttachmentRemoved(o, attachmentId) =>
        if o == id && o in sessionSnapshots && Has(sessionSnapshots[o].attachments, attachmentId)
        then Reapplied(id) else None
      case Merge(o, _) => if o == id then Reapplied(id) else None
    }

    /** A merge applies the stored snapshot again. */
    ghost function Reapplied(id: SessionId): Option<Input>
      reads this
    {
      if id in sessionSnapshots then Some(Snapshot(sessionSnapshots[id].lastSequence)) else None
    }

    /** The `session_progress` branch: what is at or below the watermark is dropped. */
    method ApplyProgress(id: SessionId, sequence: nat) returns (accepted: bool)
      requires Valid()
      modifies this`sessionSequences, this`bases, this`heard
      ensures Valid() && (accepted <==> sequence > old(GetLastSequence(id)))
      ensures forall o :: Mark(o) == if o == id then Take(old(Mark(o)), Progress(sequence)) else old(Mark(o))
    {
      hide Rising;
      ghost var mark := Mark(id);
      TakeRises(mark, Progress(sequence));
      accepted := sequence > GetLastSequence(id);
      if accepted {
        sessionSequences := sessionSequences[id := sequence];
        bases, heard := bases[id := mark.base], heard[id := mark.heard + [sequence]];
        forall o ensures Rising(Mark(o)) { assert old(Rising(Mark(o))); }
      }
    }

    /** The `session_removed` branch. */
    method RemoveSession(id: SessionId)
      requires Valid()
      modifies this
      ensures Valid() && snapshot == old(snapshot)
      ensures sessionSnapshots == old(sessionSnapshots) - {id} && attachedSessionIds == old(attachedSessionIds) - {id}
      ensures forall o :: Mark(o) == if o == id then Take(old(Mark(o)), Forget) else old(Mark(o))
    {
      sessionSnapshots := sessionSnapshots - {id};
      sessionSequences, bases, heard := sessionSequences - {id}, bases - {id}, heard - {id};
      attachedSessionIds := attachedSessionIds - {id};
      forall o ensures Rising(Mark(o)) { assert old(Rising(Mark(o))); }
    }

    /** Applies the stored snapshot of a session again, changed. */
    method Reapply(id: SessionId, changed: SessionSnapshot)
      requires Valid() && id in sessionSnapshots && changed.id == id
      requires changed.revision == sessionSnapshots[id].revision
        && changed.lastSequence == sessionSnapshots[id].lastSequence
      modifies this
      ensures Valid() && Replaced(changed)
      ensures forall o :: Mark(o) == if o == id then Take(old(Mark(o)), old(Reapplied(o)).value) else old(Mark(o))
    {
      hide Rising, Take, Mark;
      ApplySessionSnapshot(changed, false);
    }

    /** `#applyAttachmentSnapshot`: the attachment goes to the end, in place of any with its id. */
    method ApplyAttachmentSnapshot(attachment: Attachment)
      requires Valid()
      modifies this
      ensures Valid() && Handled(AttachmentSnapshot(attachment))
      ensures forall o :: Mark(o) ==
                if attachment.sessionId == Some(o) && old(Reapplied(o)).Some?
                then Take(old(Mark(o)), old(Reapplied(o)).value)
                else old(Mark(o))
    {
      hide Rising, Take, Mark;
      if attachment.sessionId.None? { return; }
      var id := attachment.sessionId.value;
      if id !in sessionSnapshots { return; }
      var stored := sessionSnapshots[id];
      Reapply(id, stored.(attachments := Others(stored.attachments, attachment.id) + [attachment]));
    }

    /** `#applyAttachmentRemoved`: where there is nothing to remove, nothing is applied. */
    method ApplyAttachmentRemoved(id: SessionId, attachmentId: AttachmentId)
      requires Valid()
      modifies this
      ensures Valid() && Handled(AttachmentRemoved(id, attachmentId))
      ensures if id in old(sessionSnapshots) && Has(old(sessionSnapshots)[id].attachments, attachmentId)
        then forall o :: Mark(o) == if o == id then Take(old(Mark(o)), old(Reapplied(o)).value) else old(Mark(o))
        else unchanged(this)
    {
      hide Rising, Take, Mark;
      if id !in sessionSnapshots { return; }
      var stored := sessionSnapshots[id];
      var next := Others(stored.attachments, attachmentId);
      OthersOf(stored.attachments, attachmentId);
      if |next| == |stored.attachments| { return; }
      Reapply(id, stored.(attachments := next));
    }

    /** Every event acts on each session as at most one input of its watermark; the listeners of a
        session hear a progress event exactly when it is above the watermark. */
    method ApplyEvent(event: Event) returns (notified: bool)
      requires Valid()
      modifies this
      ensures Valid()
      ensures forall id ::
        Mark(id) == if old(InputOf(event, id)).Some? then Take(old(Mark(id)), old(InputOf(event, id)).value)
                                       else old(Mark(id))
      ensures notified <==> (event.SessionProgress? ==> event.sequence > old(GetLastSequence(event.id)))
      ensures Handled(event) && NeverOlder()
    {
      hide Rising, Take, Mark;
      match event {
        case SessionProgress(id, sequence) => notified := ApplyProgress(id, sequence); return;
        case ServerSnapshotEvent(server) => ApplyServerSnapshot(server);
        case SessionSnapshotEvent(session) => ApplySessionSnapshot(session, false);
        case SessionRemoved(id) => RemoveSession(id);
        case AttachmentSnapshot(attachment) => ApplyAttachmentSnapshot(attachment);
        case AttachmentRemoved(id, attachmentId) => ApplyAttachmentRemoved(id, attachmentId);
        case Merge(id, merged) =>
          if id in sessionSnapshots { Reapply(id, sessionSnapshots[id].(body := merged)); }
      }
      return true;
    }
  }
}
