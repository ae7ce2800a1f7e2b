// internal/events/folder_trash.go
module FolderTrashEvent {
  import opened Basics
  import opened Tables
  import opened Store

  // The callback on the batches the database picked; the flag says whether it returned no error.
  ghost function Trash(s: State, id: Id, user: Id, now: nat, folderBatch: set<Id>, fileBatch: set<Id>): (State, bool) {
    if id !in s.folders || s.folders[id].Live() then
      (s, false)
    else
      var s' := s.(folders := TrashRows(s.folders, folderBatch, user, now),
                   files := TrashRows(s.files, fileBatch, user, now),
                   markers := s.markers + FolderMarkers(folderBatch) + FileMarkers(fileBatch * s.objects),
                   queue := s.queue + TrashEvents(folderBatch, user));
      (s', LiveChildren(s'.folders, id) == {} && LiveChildren(s'.files, id) == {})
  }

  ghost predicate TrashPicks(limit: nat, s: State, id: Id, folderBatch: set<Id>, fileBatch: set<Id>) {
    && IsBatch(limit, LiveChildren(s.folders, id), folderBatch)
    && IsBatch(limit, LiveChildren(s.files, id), fileBatch)
  }
}
