// internal/services/bucket_folder.go
module BucketFolder {
  import opened Basics
  import opened Tables
  import opened Store
  import opened ParentFolders

  ghost function CreateFolder(s: State, id: Id, name: string, parent: Option<Id>): (State, Reply) {
    if parent.Some? && (parent.value !in s.folders || !s.folders[parent.value].Live()) then
      (s, NotFound)
    else if NameTaken(s.folders, name, parent, id) then
      (s, Conflict)
    else
      (s.(folders := s.folders[id := Row(name, parent, Unset, None, None)]), Accepted)
  }

  ghost function UpdateFolder(s: State, id: Id, name: string): (State, Reply) {
    if id !in s.folders || !s.folders[id].Live() then
      (s, NotFound)
    else if NameTaken(s.folders, name, s.folders[id].parent, id) then
      (s, Conflict)
    else
      (s.(folders := s.folders[id := s.folders[id].(name := name)]), Accepted)
  }

  ghost function TrashFolder(s: State, id: Id, user: Id, now: nat): (State, Reply) {
    if id !in s.folders then
      (s, NotFound)
    else if !s.folders[id].Live() || s.folders[id].status == Restoring then
      (s, Conflict)
    else
      (s.(folders := s.folders[id := s.folders[id].Trash(user, now)],
          markers := s.markers + {FolderMarker(id)},
          queue := s.queue + multiset{FolderTrash(id, user)}), Accepted)
  }

  ghost function RestoreFolder(s: State, id: Id, user: Id, now: nat, retention: nat): (State, Reply) {
    if id !in s.folders then
      (s, NotFound)
    else
      var row := s.folders[id];
      var folders := WithParents(s.folders, row.parent);
      if row.Live() || row.status == Restoring then
        (s, Conflict)
      else if now - row.deletedAt.value > retention then
        (s, Expired)
      else if ParentConflict(s.folders, row.parent) || NameTaken(folders, row.name, row.parent, id) then
        (s, Conflict)
      else
        var unmarked := Unmark(s, FolderMarkers(TrashedAncestors(s.folders, row.parent)) + {FolderMarker(id)});
        (unmarked.(folders := folders[id := row.(status := Restoring)],
                   queue := s.queue + multiset{FolderRestore(id, user)}), Accepted)
  }

  ghost function PurgeFolder(s: State, id: Id, user: Id): (State, Reply) {
    if id !in s.folders then
      (s, NotFound)
    else if s.folders[id].Live() then
      (s, Conflict)
    else
      (s.(queue := s.queue + multiset{FolderPurge(id, user)}), Accepted)
  }
}
