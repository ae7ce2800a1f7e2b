// internal/services/bucket_file.go, and the upload branch of internal/events/handler.go.
// `logOk` says whether the activity log accepted the entry; when it did not, the database
// transaction is rolled back but what was done to the object storage stays.
module BucketFile {
  import opened Basics
  import opened Tables
  import opened Store
  import opened ParentFolders

  ghost function UploadFile(s: State, id: Id, name: string, parent: Option<Id>): (State, Reply) {
    if parent.Some? && (parent.value !in s.folders || !s.folders[parent.value].Live()) then
      (s, NotFound)
    else if NameTaken(s.files, name, parent, id) then
      (s, Conflict)
    else
      (s.(files := s.files[id := Row(name, parent, Uploading, None, None)]), Accepted)
  }

  // The client stores the object under the presigned URL.
  ghost function PutObject(s: State, id: Id): State {
    s.(objects := s.objects + {id})
  }

  // The storage reports the upload; the subscriber skips it when it cannot stat the object.
  ghost function ObjectCreated(s: State, id: Id): State {
    if id in s.objects && id in s.files && s.files[id].Live() then
      s.(files := s.files[id := s.files[id].(status := Uploaded)])
    else
      s
  }

  ghost function TrashFile(s: State, id: Id, user: Id, now: nat, logOk: bool): (State, Reply) {
    if id !in s.files || !s.files[id].Live() then
      (s, NotFound)
    else if s.files[id].status != Uploaded then
      (s, Conflict)
    else if id !in s.objects then
      (s, Failed)
    else
      var marked := s.(markers := s.markers + {FileMarker(id)});
      if logOk then
        (marked.(files := s.files[id := s.files[id].Trash(user, now)]), Accepted)
      else
        (marked, Failed)
  }

  ghost function RestoreFile(s: State, id: Id, logOk: bool): (State, Reply) {
    if id !in s.files || s.files[id].Live() then
      (s, NotFound)
    else
      var row := s.files[id];
      if row.status == Restoring then
        (s, Conflict)
      else if ParentConflict(s.folders, row.parent) || NameTaken(s.files, row.name, row.parent, id) then
        (s, Conflict)
      else if !logOk then
        (s, Failed)
      else
        var unmarked := Unmark(s, FolderMarkers(TrashedAncestors(s.folders, row.parent)) + {FileMarker(id)});
        (unmarked.(folders := WithParents(s.folders, row.parent), files := s.files[id := row.Revive(Uploaded)]),
         Accepted)
  }

  ghost function PurgeFile(s: State, id: Id, logOk: bool): (State, Reply) {
    if id !in s.files then
      (s, NotFound)
    else if s.files[id].Live() then
      (s, Conflict)
    else
      var removed := RemoveObjects(Unmark(s, {FileMarker(id)}), {id});
      if logOk then
        (removed.(files := s.files - {id}), Accepted)
      else
        (removed, Failed)
  }
}
