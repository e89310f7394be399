/**
 * The activity recorder: persist one log entry, then push it to the workspace's
 * room. Either step may fail; every failure is swallowed, so the caller never sees one.
 */
module Logger {
  import opened Entities
  import opened Protocol
  import opened Store
  import opened SocketRelay

  /** The entry the recorder persists, with 'Unknown' and null in place of falsy values. */
  function EntryFor(id: Id, workspaceId: Id, userId: Id, action: string, entityType: string,
                    entityTitle: Option<string>, boardId: Option<Id>, now: int): (e: LogEntry)
    ensures e.id == id && e.createdAt == now
    ensures e.workspaceId == workspaceId && e.userId == userId
    ensures e.action == action && e.entityType == entityType
    ensures Truthy(entityTitle) ==> e.entityTitle == entityTitle.value
    ensures !Truthy(entityTitle) ==> e.entityTitle == "Unknown"
    ensures Truthy(boardId) ==> e.boardId == boardId
    ensures !Truthy(boardId) ==> e.boardId == None
  {
    LogEntry(id, workspaceId, userId, action, entityType,
             if Truthy(entityTitle) then entityTitle.value else "Unknown",
             if Truthy(boardId) then boardId else None,
             now)
  }

  /** A stored entry never has an empty title, nor an empty board id in place of null. */
  lemma StoredFieldsAreClean(id: Id, workspaceId: Id, userId: Id, action: string, entityType: string,
                             entityTitle: Option<string>, boardId: Option<Id>, now: int)
    ensures var e := EntryFor(id, workspaceId, userId, action, entityType, entityTitle, boardId, now);
      e.entityTitle != "" && (e.boardId.Some? ==> e.boardId.value != "")
  {
  }

  /** Applying the defaults to an already stored entry changes nothing. */
  lemma DefaultsAreStable(e: LogEntry)
    requires e.entityTitle != "" && (e.boardId.Some? ==> e.boardId.value != "")
    ensures EntryFor(e.id, e.workspaceId, e.userId, e.action, e.entityType, Some(e.entityTitle), e.boardId, e.createdAt) == e
  {
  }

  /**
   * `logActivity`. `storeFails` and `socketFails` are the two outcomes the code cannot
   * control: the insert throwing, and the socket instance being unavailable. The
   * method has no error result: whatever happens, it returns normally.
   */
  method LogActivity(db: Db, io: SocketServer, workspaceId: Id, userId: Id, action: string, entityType: string,
                     entityTitle: Option<string>, boardId: Option<Id>, entryId: Id, now: int,
                     storeFails: bool, socketFails: bool)
    modifies db`activity, io`deliveries
    ensures io.rooms == old(io.rooms)
    ensures var e := EntryFor(entryId, workspaceId, userId, action, entityType, entityTitle, boardId, now);
      && db.activity == (if storeFails then old(db.activity) else old(db.activity) + [e])
      && io.deliveries == (if storeFails || socketFails then old(io.deliveries)
                           else old(io.deliveries) + [Delivery(workspaceId, Members(io.rooms, workspaceId), NewActivity(e))])
  {
    if storeFails {
      return;
    }
    var entry := EntryFor(entryId, workspaceId, userId, action, entityType, entityTitle, boardId, now);
    db.activity := db.activity + [entry];
    if !socketFails {
      io.ToRoom(workspaceId, NewActivity(entry));
    }
  }
}
