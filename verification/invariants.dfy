// What every step of the system keeps: the status columns and the parent links.
module Invariants {
  import opened Basics
  import opened Tables
  import opened Store
  import opened ParentFolders
  import opened BucketFolder
  import opened BucketFile
  import opened FolderTrashEvent
  import opened FolderRestoreEvent
  import opened FolderPurgeEvent
  import opened Protocol

  // ----- status and deletion columns

  ghost predicate GoodFolder(r: Row) {
    && (r.Live() ==> r.status == Unset)
    && (!r.Live() ==> r.status == Deleted || r.status == Restoring)
    && (r.deletedAt.Some? <==> r.deletedBy.Some?)
  }

  ghost predicate GoodFile(r: Row) {
    && (r.Live() ==> r.status == Uploading || r.status == Uploaded)
    && (!r.Live() ==> r.status == Deleted)
    && (r.deletedAt.Some? <==> r.deletedBy.Some?)
  }

  ghost predicate GoodFolders(t: Table) {
    forall i :: i in t ==> GoodFolder(t[i])
  }

  ghost predicate GoodFiles(t: Table) {
    forall i :: i in t ==> GoodFile(t[i])
  }

  ghost predicate RestorePending(q: multiset<Event>, id: Id) {
    exists user :: FolderRestore(id, user) in q
  }

  ghost predicate RestoresPending(t: Table, q: multiset<Event>) {
    forall i :: i in t && t[i].status == Restoring ==> RestorePending(q, i)
  }

  // A folder being restored is still in the trash and has its FolderRestore pending; a live folder
  // has no status and a live file is uploading or uploaded; a trashed row says who deleted it and
  // no file is ever left `restoring`.
  ghost predicate WellFormed(s: State) {
    GoodFolders(s.folders) && GoodFiles(s.files) && RestoresPending(s.folders, s.queue)
  }

  // A step that starts no restore and drops no FolderRestore message.
  lemma StillPending(t: Table, t': Table, q: multiset<Event>, q': multiset<Event>)
    requires RestoresPending(t, q)
    requires forall i :: i in t' && t'[i].status == Restoring ==> i in t && t[i].status == Restoring
    requires forall i, u :: FolderRestore(i, u) in q ==> FolderRestore(i, u) in q'
    ensures RestoresPending(t', q')
  {
  }

  lemma TrashRowsKeepStatus(folders: Table, files: Table, fs: set<Id>, gs: set<Id>, user: Id, now: nat)
    requires GoodFolders(folders) && GoodFiles(files)
    ensures GoodFolders(TrashRows(folders, fs, user, now)) && GoodFiles(TrashRows(files, gs, user, now))
    ensures var t := TrashRows(folders, fs, user, now);
            forall i :: i in t && t[i].status == Restoring ==> i in folders && folders[i].status == Restoring
  {
  }

  lemma TrashKeepsStatus(s: State, id: Id, user: Id, now: nat, fs: set<Id>, gs: set<Id>)
    requires WellFormed(s)
    ensures WellFormed(Handle(FolderTrash(id, user), Trash(s, id, user, now, fs, gs)))
  {
    if id in s.folders && !s.folders[id].Live() {
      TrashRowsKeepStatus(s.folders, s.files, fs, gs, user, now);
      var s' := Handle(FolderTrash(id, user), Trash(s, id, user, now, fs, gs));
      StillPending(s.folders, s'.folders, s.queue, s'.queue);
    }
  }

  lemma RestoreKeepsStatus(c: Config, s: State, id: Id, user: Id, fs: set<Id>, gs: set<Id>)
    requires WellFormed(s) && RestorePicks(c.limit, s, id, fs, gs)
    ensures WellFormed(Handle(FolderRestore(id, user), Restore(c.schema, s, id, user, fs, gs)))
  {
    var p := ProcessChildren(c.schema, s, id, user, fs, gs);
    if p.Some? {
      var s1 := p.value;
      assert GoodFolders(MarkRestoring(s.folders, fs));
      assert GoodFiles(ReviveRows(s.files, gs, Uploaded));
      forall i | i in s1.folders && s1.folders[i].status == Restoring
        ensures RestorePending(s1.queue, i)
      {
        if s.folders[i].status == Restoring {
          var u :| FolderRestore(i, u) in s.queue;
          assert FolderRestore(i, u) in s1.queue;
        } else {
          assert FolderRestore(i, user) in RestoreEvents(fs, user);
        }
      }
      if !ChildrenLeft(s1, id) {
        FinalizeKeepsStatus(s1, id, user);
      }
    }
  }

  lemma FinalizeKeepsStatus(s: State, id: Id, user: Id)
    requires WellFormed(s) && id in s.folders
    ensures WellFormed(Handle(FolderRestore(id, user), (Finalize(s, id), true)))
  {
    var s' := Handle(FolderRestore(id, user), (Finalize(s, id), true));
    forall i | i in s'.folders && s'.folders[i].status == Restoring
      ensures RestorePending(s'.queue, i)
    {
      var u :| FolderRestore(i, u) in s.queue;
      assert FolderRestore(i, u) in s'.queue;
    }
  }

  lemma DropKeepsStatus(s: State, gone: set<Id>, files: set<Id>, schema: bool)
    requires WellFormed(s)
    ensures var s' := DropFolders(s, gone, schema);
            WellFormed(s') && WellFormed(s'.(files := s'.files - files))
  {
  }

  lemma PurgeKeepsStatus(schema: bool, s: State, id: Id, user: Id, fs: set<Id>, gs: set<Id>)
    requires WellFormed(s)
    ensures WellFormed(Handle(FolderPurge(id, user), Purge(schema, s, id, fs, gs)))
  {
    hide WellFormed, Purge, DropFolders, Unmark, RemoveObjects;
    var s1 := DropFolders(s, fs, schema);
    var s2 := s1.(files := s1.files - gs);
    var s3 := RemoveObjects(s2, gs);
    var s4 := Unmark(s3, {FolderMarker(id)});
    DropKeepsStatus(s, fs, gs, schema);
    StorageKeepsStatus(s2, gs, {});
    StorageKeepsStatus(s3, {}, {FolderMarker(id)});
    DropKeepsStatus(s4, {id}, {}, schema);
    PurgeIsOneOf(schema, s, id, fs, gs);
    AckKeepsStatus(Purge(schema, s, id, fs, gs), FolderPurge(id, user));
  }

  lemma StorageKeepsStatus(s: State, ids: set<Id>, markers: set<Marker>)
    requires WellFormed(s)
    ensures WellFormed(RemoveObjects(s, ids)) && WellFormed(Unmark(s, markers))
  {
  }

  lemma AckKeepsStatus(result: (State, bool), e: Event)
    requires WellFormed(result.0) && !e.FolderRestore?
    ensures WellFormed(Handle(e, result))
  {
    var s, s' := result.0, Handle(e, result);
    StillPending(s.folders, s'.folders, s.queue, s'.queue);
  }

  lemma RestoreFolderKeepsStatus(s: State, id: Id, user: Id, now: nat, retention: nat)
    requires WellFormed(s)
    ensures WellFormed(RestoreFolder(s, id, user, now, retention).0)
  {
    var s' := RestoreFolder(s, id, user, now, retention).0;
    if s' != s {
      assert GoodFolders(WithParents(s.folders, s.folders[id].parent));
      forall i | i in s'.folders && s'.folders[i].status == Restoring
        ensures RestorePending(s'.queue, i)
      {
        if i == id {
          assert FolderRestore(id, user) in s'.queue;
        } else {
          var u :| FolderRestore(i, u) in s.queue;
          assert FolderRestore(i, u) in s'.queue;
        }
      }
    }
  }

  lemma TrashFolderKeepsStatus(s: State, id: Id, user: Id, now: nat)
    requires WellFormed(s)
    ensures WellFormed(TrashFolder(s, id, user, now).0)
  {
    var s' := TrashFolder(s, id, user, now).0;
    assert GoodFolders(s'.folders);
    StillPending(s.folders, s'.folders, s.queue, s'.queue);
  }

  lemma FolderCallsKeepStatus(s: State, id: Id, user: Id, name: string, parent: Option<Id>)
    requires WellFormed(s)
    ensures WellFormed(CreateFolder(s, id, name, parent).0)
    ensures WellFormed(UpdateFolder(s, id, name).0)
    ensures WellFormed(PurgeFolder(s, id, user).0)
  {
    hide NameTaken, RestoresPending;
    var s1, s2, s3 := CreateFolder(s, id, name, parent).0, UpdateFolder(s, id, name).0, PurgeFolder(s, id, user).0;
    OneFolderKeepsStatus(s, id, Row(name, parent, Unset, None, None));
    if id in s.folders {
      OneFolderKeepsStatus(s, id, s.folders[id].(name := name));
    }
    StillPending(s.folders, s3.folders, s.queue, s3.queue);
  }

  lemma OneFolderKeepsStatus(s: State, id: Id, row: Row)
    requires WellFormed(s) && GoodFolder(row)
             && (row.status == Restoring ==> id in s.folders && s.folders[id].status == Restoring)
    ensures WellFormed(s.(folders := s.folders[id := row]))
  {
    hide GoodFolder;
    StillPending(s.folders, s.folders[id := row], s.queue, s.queue);
  }

  lemma FileCallsKeepStatus(s: State, id: Id, user: Id, now: nat, name: string, parent: Option<Id>, logOk: bool)
    requires WellFormed(s)
    ensures WellFormed(UploadFile(s, id, name, parent).0)
    ensures WellFormed(ObjectCreated(s, id))
    ensures WellFormed(TrashFile(s, id, user, now, logOk).0)
    ensures WellFormed(PurgeFile(s, id, logOk).0)
  {
  }

  lemma NoticesKeepStatus(s: State, notice: Notice, again: bool)
    requires WellFormed(s)
    ensures WellFormed(Notified(s, notice, again))
  {
  }

  lemma RestoreFileKeepsStatus(s: State, id: Id, logOk: bool)
    requires WellFormed(s)
    ensures WellFormed(RestoreFile(s, id, logOk).0)
  {
    if id in s.files {
      assert GoodFolders(WithParents(s.folders, s.files[id].parent));
    }
  }

  lemma StatusKept(c: Config, s: State, step: Step)
    requires WellFormed(s) && Enabled(c, s, step)
    ensures WellFormed(Apply(c, s, step))
  {
    match step
    case DoCreateFolder(id, name, parent) => FolderCallsKeepStatus(s, id, 0, name, parent);
    case DoUpdateFolder(id, name) => FolderCallsKeepStatus(s, id, 0, name, None);
    case DoTrashFolder(id, user, now) => TrashFolderKeepsStatus(s, id, user, now);
    case DoRestoreFolder(id, user, now) => RestoreFolderKeepsStatus(s, id, user, now, c.retention);
    case DoPurgeFolder(id, user) => FolderCallsKeepStatus(s, id, user, "", None);
    case DoUploadFile(id, name, parent) => FileCallsKeepStatus(s, id, 0, 0, name, parent, true);
    case DoTrashFile(id, user, now, logOk) => FileCallsKeepStatus(s, id, user, now, "", None, logOk);
    case DoRestoreFile(id, logOk) => RestoreFileKeepsStatus(s, id, logOk);
    case DoPurgeFile(id, logOk) => FileCallsKeepStatus(s, id, 0, 0, "", None, logOk);
    case DeliverTrash(id, user, now, fs, gs) => TrashKeepsStatus(s, id, user, now, fs, gs);
    case DeliverRestore(id, user, fs, gs) => RestoreKeepsStatus(c, s, id, user, fs, gs);
    case DeliverPurge(id, user, fs, gs) => PurgeKeepsStatus(c.schema, s, id, user, fs, gs);
    case StoreObject(_) =>
    case NotifyCreated(id) => FileCallsKeepStatus(s, id, 0, 0, "", None, true);
    case MarkerExpires(_) =>
    case NotifyRemoved(notice, again) => NoticesKeepStatus(s, notice, again);
  }
}
