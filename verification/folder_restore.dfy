// internal/events/folder_restore.go
module FolderRestoreEvent {
  import opened Basics
  import opened Tables
  import opened Store

  // processChildrenInTransaction with the two effects that follow its commit; None when it fails.
  // The unique index refuses files that would come back to a live namesake or to each other.
  ghost function ProcessChildren(schema: bool, s: State, id: Id, user: Id, folderBatch: set<Id>,
                                 fileBatch: set<Id>): Option<State> {
    if id !in s.folders then
      None
    else if s.folders[id].status != Restoring then
      Some(s)
    else if NameTaken(s.folders, s.folders[id].name, s.folders[id].parent, id) then
      None
    else if !Fits(schema, ReviveRows(s.files, fileBatch, Uploaded)) then
      None
    else
      Some(Unmark(s.(folders := MarkRestoring(s.folders, folderBatch),
                     files := ReviveRows(s.files, fileBatch, Uploaded),
                     queue := s.queue + RestoreEvents(folderBatch, user)), FileMarkers(fileBatch)))
  }

  ghost predicate ChildrenLeft(s: State, id: Id) {
    || RecoverableChildren(s.folders, id) != {}
    || RecoverableChildren(s.files, id) != {}
    || RestoringChildren(s.folders, id) != {}
  }

  ghost function Finalize(s: State, id: Id): State
    requires id in s.folders
  {
    if s.folders[id].status != Restoring then s
    else Unmark(s.(folders := s.folders[id := s.folders[id].Revive(Unset)]), {FolderMarker(id)})
  }

  // The callback on the batches the database picked; the flag says whether it returned no error.
  ghost function Restore(schema: bool, s: State, id: Id, user: Id, folderBatch: set<Id>,
                         fileBatch: set<Id>): (State, bool) {
    match ProcessChildren(schema, s, id, user, folderBatch, fileBatch)
    case None => (s, false)
    case Some(s') =>
      if ChildrenLeft(s', id) then (s', false)
      else (Finalize(s', id), true)
  }

  ghost predicate RestorePicks(limit: nat, s: State, id: Id, folderBatch: set<Id>, fileBatch: set<Id>) {
    && IsBatch(limit, RecoverableChildren(s.folders, id), folderBatch)
    && IsBatch(limit, RecoverableChildren(s.files, id), fileBatch)
  }
}
