/** What the client knows about the server and its sessions: snapshots by revision, and which sessions are attached. */
module ClientState {
  import opened Basics
  import opened Leases

  /** The answer to a command, and what the server tells unasked. */
  datatype CommandResult =
    | ListResult
    | DetachResult(sessionId: string)
    | SessionResult(sessionId: string, session: Snapshot)

  datatype ServerEvent =
    | ServerSnapshotEvent(revision: nat)
    | SessionSnapshotEvent(sessionId: string, snapshot: Snapshot)
    | SessionRemovedEvent(sessionId: string)
    | SessionProgress(sessionId: string)

  function Newer(current: Option<nat>, revision: nat): Option<nat> {
    if current.Some? && revision < current.value then current else Some(revision)
  }

  class ClientState {
    var sessionSnapshots: map<string, Snapshot>
    var attachedSessionIds: set<string>
    var serverRevision: Option<nat>

    function Of(id: string): View
      reads this
    {
      View(id in attachedSessionIds, if id in sessionSnapshots then Some(sessionSnapshots[id]) else None)
    }

    twostate predicate OthersKept(id: string)
      reads this
    {
      forall other | other != id :: Of(other) == old(Of(other))
    }

    constructor ()
      ensures serverRevision == None && forall id :: Of(id) == View(false, None)
    {
      sessionSnapshots, attachedSessionIds, serverRevision := map[], {}, None;
    }

    method Reset()
      modifies this
      ensures serverRevision == None && forall id :: Of(id) == View(false, None)
    {
      sessionSnapshots, attachedSessionIds, serverRevision := map[], {}, None;
    }

    method ClearAttachments()
      modifies this`attachedSessionIds
      ensures forall id :: Of(id) == old(Of(id)).(attached := false)
    {
      attachedSessionIds := {};
    }

    method ForgetSessionSnapshot(id: string) returns (previous: Option<Snapshot>)
      modifies this`sessionSnapshots
      ensures previous == old(Of(id)).snapshot && Of(id) == old(Of(id)).(snapshot := None) && OthersKept(id)
    {
      previous := if id in sessionSnapshots then Some(sessionSnapshots[id]) else None;
      sessionSnapshots := sessionSnapshots - {id};
    }

    /** A snapshot that arrived meanwhile is kept. */
    method RestoreSessionSnapshot(id: string, snapshot: Snapshot)
      modifies this`sessionSnapshots
      ensures OthersKept(id)
      ensures Of(id) == if old(Of(id)).snapshot.Some? then old(Of(id)) else old(Of(id)).(snapshot := Some(snapshot))
    {
      if id !in sessionSnapshots {
        sessionSnapshots := sessionSnapshots[id := snapshot];
      }
    }

    /** An older snapshot is ignored, unless it is forced. */
    method ApplySessionSnapshot(id: string, snapshot: Snapshot, force: bool)
      modifies this`sessionSnapshots, this`attachedSessionIds
      ensures OthersKept(id)
      ensures Of(id) == if force then View(snapshot.attached, Some(snapshot)) else ApplySnapshot(old(Of(id)), snapshot)
    {
      if !force && id in sessionSnapshots && snapshot.revision < sessionSnapshots[id].revision {
        return;
      }
      sessionSnapshots := sessionSnapshots[id := snapshot];
      if snapshot.attached {
        attachedSessionIds := attachedSessionIds + {id};
      } else {
        attachedSessionIds := attachedSessionIds - {id};
      }
    }

    /** A result changes only its own session, as the lease protocol assumes. */
    method ApplyResult(result: CommandResult)
      modifies this`sessionSnapshots, this`attachedSessionIds
      ensures result.ListResult? ==> forall id :: Of(id) == old(Of(id))
      ensures result.DetachResult? ==>
        Of(result.sessionId) == ApplyDetach(old(Of(result.sessionId))) && OthersKept(result.sessionId)
      ensures result.SessionResult? ==>
        Of(result.sessionId) == ApplySnapshot(old(Of(result.sessionId)), result.session) && OthersKept(result.sessionId)
    {
      match result
      case ListResult =>
      case DetachResult(id) =>
        attachedSessionIds := attachedSessionIds - {id};
        if id in sessionSnapshots {
          ApplySessionSnapshot(id, sessionSnapshots[id].(attached := false), true);
        }
      case SessionResult(id, session) => ApplySessionSnapshot(id, session, false);
    }

    /** The revision of the server never goes back, and a removed session is forgotten. */
    method ApplyEvent(event: ServerEvent)
      modifies this
      ensures event.ServerSnapshotEvent? ==> (forall id :: Of(id) == old(Of(id)))
      ensures event.ServerSnapshotEvent? ==> serverRevision == Newer(old(serverRevision), event.revision)
      ensures !event.ServerSnapshotEvent? ==> serverRevision == old(serverRevision) && OthersKept(event.sessionId)
      ensures event.SessionSnapshotEvent? ==>
        Of(event.sessionId) == ApplySnapshot(old(Of(event.sessionId)), event.snapshot)
      ensures event.SessionRemovedEvent? ==> Of(event.sessionId) == View(false, None)
      ensures event.SessionProgress? ==> Of(event.sessionId) == old(Of(event.sessionId))
    {
      match event
      case ServerSnapshotEvent(revision) =>
        if serverRevision.None? || revision >= serverRevision.value {
          serverRevision := Some(revision);
        }
      case SessionSnapshotEvent(id, snapshot) => ApplySessionSnapshot(id, snapshot, false);
      case SessionRemovedEvent(id) =>
        sessionSnapshots := sessionSnapshots - {id};
        attachedSessionIds := attachedSessionIds - {id};
      case SessionProgress(_) =>
    }
  }
}
