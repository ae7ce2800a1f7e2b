// internal/events/folder_purge.go
module FolderPurgeEvent {
  import opened Basics
  import opened Tables
  import opened Store

  // Hard-deletes folder rows; see Unlink for the rows below them.
  ghost function DropFolders(s: State, gone: set<Id>, schema: bool): State {
    s.(folders := Unlink(s.folders - gone, gone, schema), files := Unlink(s.files, gone, schema))
  }

  // The unique indexes refuse a deletion that moves a live row next to a namesake.
  ghost predicate MayDrop(s: State, gone: set<Id>, schema: bool) {
    Fits(schema, DropFolders(s, gone, schema).folders) && Fits(schema, DropFolders(s, gone, schema).files)
  }

  // The transaction: the picked child folders and files; None when it fails.
  ghost function PurgeChildren(schema: bool, s: State, folderBatch: set<Id>, fileBatch: set<Id>): Option<State> {
    if !MayDrop(s, folderBatch, schema) then
      None
    else
      var s' := DropFolders(s, folderBatch, schema);
      Some(RemoveObjects(s'.(files := s'.files - fileBatch), fileBatch))
  }

  // The callback on the batches the database picked; the flag says whether it returned no error.
  ghost function Purge(schema: bool, s: State, id: Id, folderBatch: set<Id>, fileBatch: set<Id>): (State, bool) {
    if id !in s.folders || s.folders[id].Live() then
      (s, false)
    else
      match PurgeChildren(schema, s, folderBatch, fileBatch)
      case None => (s, false)
      case Some(s') =>
        if TrashedChildren(s'.folders, id) != {} || TrashedChildren(s'.files, id) != {} then
          (s', false)
        else
          var unmarked := Unmark(s', {FolderMarker(id)});
          if MayDrop(unmarked, {id}, schema) then (DropFolders(unmarked, {id}, schema), true)
          else (unmarked, false)
  }

  // How far it gets.
  lemma PurgeIsOneOf(schema: bool, s: State, id: Id, fs: set<Id>, gs: set<Id>)
    ensures var s1 := DropFolders(s, fs, schema);
            var s3 := RemoveObjects(s1.(files := s1.files - gs), gs);
            var s4 := Unmark(s3, {FolderMarker(id)});
            var s' := Purge(schema, s, id, fs, gs).0;
            s' == s || s' == s3 || s' == s4 || s' == DropFolders(s4, {id}, schema)
  {
    hide MayDrop, Unlink, MarkerNotices, ObjectNotices, TrashedChildren;
  }

  ghost predicate PurgePicks(limit: nat, s: State, id: Id, folderBatch: set<Id>, fileBatch: set<Id>) {
    && IsBatch(limit, TrashedChildren(s.folders, id), folderBatch)
    && IsBatch(limit, TrashedChildren(s.files, id), fileBatch)
  }
}
