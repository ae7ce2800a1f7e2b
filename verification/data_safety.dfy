// No live data is lost.
module DataSafety {
  import opened Basics
  import opened Tables
  import opened Store
  import opened ParentFolders
  import opened BucketFolder
  import opened BucketFile
  import opened FolderTrashEvent
  import opened FolderRestoreEvent
  import opened FolderPurgeEvent
  import opened Protocol

  // No live row is hard-deleted and no live file loses its object.
  ghost predicate LiveDataKept(s: State, s': State) {
    && (forall i :: i in s.folders && s.folders[i].Live() ==> i in s'.folders)
    && (forall i :: i in s.files && s.files[i].Live() ==> i in s'.files && (i in s.objects ==> i in s'.objects))
  }

  // Every uploaded file, live or in the trash, has its object.
  ghost predicate Stored(s: State) {
    forall i :: i in s.files && s.files[i].status != Uploading ==> i in s.objects
  }

  // The two steps that can leave a file without its object: FolderTrash takes a file whose upload
  // has not arrived (a later restore calls it uploaded), and a purge whose database transaction is
  // rolled back after the object has been removed.
  ghost predicate StorageGuard(s: State, step: Step) {
    match step
    case DeliverTrash(id, _, _, _, gs) =>
      id in s.folders && !s.folders[id].Live() ==> forall i :: i in gs && i in s.files ==> i in s.objects
    case DoPurgeFile(id, logOk) =>
      id in s.files && !s.files[id].Live() && s.files[id].status != Uploading ==> logOk
    case _ => true
  }

  // Both at once, for a part of a step that leaves the remaining rows as live as they were.
  ghost predicate Safe(s: State, s': State) {
    && LiveDataKept(s, s') && (Stored(s) ==> Stored(s'))
    && (forall i :: i in s.folders && i in s'.folders ==> (s'.folders[i].Live() <==> s.folders[i].Live()))
    && (forall i :: i in s.files && i in s'.files ==> (s'.files[i].Live() <==> s.files[i].Live()))
    && s'.folders.Keys <= s.folders.Keys && s'.files.Keys <= s.files.Keys
  }

  lemma SafeTogether(s: State, s1: State, s2: State)
    requires Safe(s, s1) && Safe(s1, s2)
    ensures Safe(s, s2)
  {
  }

  lemma NothingIsSafe(s: State)
    ensures Safe(s, s)
  {
  }

  lemma DropIsSafe(s: State, gone: set<Id>, schema: bool)
    requires forall i :: i in gone && i in s.folders ==> !s.folders[i].Live()
    ensures Safe(s, DropFolders(s, gone, schema))
  {
  }

  lemma RemovalIsSafe(s: State, files: set<Id>, markers: set<Marker>)
    requires forall i :: i in files && i in s.files ==> !s.files[i].Live()
    ensures Safe(s, RemoveObjects(s.(files := s.files - files), files)) && Safe(s, Unmark(s, markers))
  {
    hide ObjectNotices, MarkerNotices;
  }

  lemma PurgeKeepsLiveData(c: Config, s: State, id: Id, fs: set<Id>, gs: set<Id>)
    requires PurgePicks(c.limit, s, id, fs, gs)
    ensures Safe(s, Purge(c.schema, s, id, fs, gs).0)
  {
    hide LiveDataKept, Stored, Purge, RemoveObjects, Unmark;
    if !(id in s.folders && !s.folders[id].Live()) {
      RefusedPurge(c.schema, s, id, fs, gs);
    } else {
      var s1 := DropFolders(s, fs, c.schema);
      var s2 := RemoveObjects(s1.(files := s1.files - gs), gs);
      var s3 := Unmark(s2, {FolderMarker(id)});
      DropIsSafe(s, fs, c.schema);
      RemovalIsSafe(s1, gs, {});
      SafeTogether(s, s1, s2);
      RemovalIsSafe(s2, {}, {FolderMarker(id)});
      SafeTogether(s, s2, s3);
      DropIsSafe(s3, {id}, c.schema);
      SafeTogether(s, s3, DropFolders(s3, {id}, c.schema));
      NothingIsSafe(s);
      hide Safe, DropFolders, PurgePicks;
      PurgeIsOneOf(c.schema, s, id, fs, gs);
    }
  }

  lemma RefusedPurge(schema: bool, s: State, id: Id, fs: set<Id>, gs: set<Id>)
    requires !(id in s.folders && !s.folders[id].Live())
    ensures Safe(s, Purge(schema, s, id, fs, gs).0)
  {
  }

  lemma RestoreKeepsLiveData(schema: bool, s: State, id: Id, user: Id, fs: set<Id>, gs: set<Id>)
    ensures LiveDataKept(s, Restore(schema, s, id, user, fs, gs).0)
    ensures Stored(s) && (forall i :: i in gs && i in s.files ==> s.files[i].status != Uploading)
            ==> Stored(Restore(schema, s, id, user, fs, gs).0)
  {
    hide Fits, NameTaken, ChildrenLeft, MarkerNotices, RestoreEvents;
  }

  lemma FileCallsKeepLiveData(s: State, id: Id, user: Id, now: nat, name: string, parent: Option<Id>, flag: bool)
    ensures LiveDataKept(s, UploadFile(s, id, name, parent).0)
    ensures LiveDataKept(s, TrashFile(s, id, user, now, flag).0)
    ensures LiveDataKept(s, RestoreFile(s, id, flag).0)
    ensures LiveDataKept(s, PurgeFile(s, id, flag).0)
    ensures LiveDataKept(s, ObjectCreated(s, id))
  {
    hide WithParents, ParentConflict, TrashedAncestors, NameTaken, MarkerNotices, ObjectNotices;
    assert WithParents(s.folders, if id in s.files then s.files[id].parent else None).Keys == s.folders.Keys by {
      SameKeys(s.folders, if id in s.files then s.files[id].parent else None);
    }
  }

  lemma SameKeys(t: Table, start: Option<Id>)
    ensures WithParents(t, start).Keys == t.Keys
  {
  }

  lemma NoticesKeepLiveData(s: State, notice: Notice, again: bool)
    ensures Safe(s, Notified(s, notice, again))
  {
  }

  lemma FileCallsKeepStored(s: State, id: Id, user: Id, now: nat, name: string, parent: Option<Id>, flag: bool)
    requires Stored(s)
    ensures Stored(UploadFile(s, id, name, parent).0)
    ensures Stored(TrashFile(s, id, user, now, flag).0)
    ensures TrashedIsUploaded(s.files) ==> Stored(RestoreFile(s, id, flag).0)
    ensures Stored(ObjectCreated(s, id))
  {
    hide WithParents, ParentConflict, TrashedAncestors, NameTaken, MarkerNotices;
  }

  // Rows in the trash are never `uploading`; the status columns say so, see Invariants.WellFormed.
  ghost predicate TrashedIsUploaded(t: Table) {
    forall i :: i in t && !t[i].Live() ==> t[i].status != Uploading
  }

  lemma FolderCallsKeepLiveData(s: State, id: Id, user: Id, now: nat, name: string, parent: Option<Id>, retention: nat)
    ensures LiveDataKept(s, CreateFolder(s, id, name, parent).0)
    ensures LiveDataKept(s, UpdateFolder(s, id, name).0)
    ensures LiveDataKept(s, TrashFolder(s, id, user, now).0)
    ensures LiveDataKept(s, RestoreFolder(s, id, user, now, retention).0)
    ensures LiveDataKept(s, PurgeFolder(s, id, user).0)
  {
  }

  lemma TrashKeepsLiveData(s: State, id: Id, user: Id, now: nat, fs: set<Id>, gs: set<Id>)
    ensures LiveDataKept(s, Trash(s, id, user, now, fs, gs).0)
  {
  }

  lemma StorageKeepsLiveData(s: State, id: Id, marker: Marker)
    ensures LiveDataKept(s, PutObject(s, id)) && LiveDataKept(s, Unmark(s, {marker}))
  {
  }

  lemma AckKeepsLiveData(s: State, e: Event, result: (State, bool))
    requires LiveDataKept(s, result.0)
    ensures LiveDataKept(s, Handle(e, result))
  {
  }

  // No step hard-deletes a live row or takes the object of a live file.
  lemma LiveDataSurvives(c: Config, s: State, step: Step)
    requires Enabled(c, s, step)
    ensures LiveDataKept(s, Apply(c, s, step))
  {
    hide LiveDataKept, Handle, CreateFolder, UpdateFolder, TrashFolder, RestoreFolder, PurgeFolder,
      UploadFile, TrashFile, RestoreFile, PurgeFile, Trash, Restore, Purge, PutObject, ObjectCreated, Notified,
      Unmark, PurgePicks;
    match step
    case DoCreateFolder(id, name, parent) => FolderCallsKeepLiveData(s, id, 0, 0, name, parent, 0);
    case DoUpdateFolder(id, name) => FolderCallsKeepLiveData(s, id, 0, 0, name, None, 0);
    case DoTrashFolder(id, user, now) => FolderCallsKeepLiveData(s, id, user, now, "", None, 0);
    case DoRestoreFolder(id, user, now) => FolderCallsKeepLiveData(s, id, user, now, "", None, c.retention);
    case DoPurgeFolder(id, user) => FolderCallsKeepLiveData(s, id, user, 0, "", None, 0);
    case DoUploadFile(id, name, parent) => FileCallsKeepLiveData(s, id, 0, 0, name, parent, true);
    case DoTrashFile(id, user, now, logOk) => FileCallsKeepLiveData(s, id, user, now, "", None, logOk);
    case DoRestoreFile(id, logOk) => FileCallsKeepLiveData(s, id, 0, 0, "", None, logOk);
    case DoPurgeFile(id, logOk) => FileCallsKeepLiveData(s, id, 0, 0, "", None, logOk);
    case DeliverTrash(id, user, now, fs, gs) =>
      TrashKeepsLiveData(s, id, user, now, fs, gs);
      AckKeepsLiveData(s, FolderTrash(id, user), Trash(s, id, user, now, fs, gs));
    case DeliverRestore(id, user, fs, gs) =>
      RestoreKeepsLiveData(c.schema, s, id, user, fs, gs);
      AckKeepsLiveData(s, FolderRestore(id, user), Restore(c.schema, s, id, user, fs, gs));
    case DeliverPurge(id, user, fs, gs) =>
      PurgeKeepsLiveData(c, s, id, fs, gs);
      AckKeepsLiveData(s, FolderPurge(id, user), Purge(c.schema, s, id, fs, gs));
    case StoreObject(id) => StorageKeepsLiveData(s, id, FileMarker(id));
    case NotifyCreated(id) => FileCallsKeepLiveData(s, id, 0, 0, "", None, true);
    case MarkerExpires(marker) => StorageKeepsLiveData(s, 0, marker);
    case NotifyRemoved(notice, again) => NoticesKeepLiveData(s, notice, again);
  }

  lemma FolderCallsKeepFiles(s: State, id: Id, user: Id, now: nat, name: string, parent: Option<Id>, retention: nat)
    ensures FilesKept(s, CreateFolder(s, id, name, parent).0) && FilesKept(s, UpdateFolder(s, id, name).0)
    ensures FilesKept(s, TrashFolder(s, id, user, now).0) && FilesKept(s, PurgeFolder(s, id, user).0)
    ensures FilesKept(s, RestoreFolder(s, id, user, now, retention).0)
  {
    hide NameTaken, ParentConflict, WithParents, TrashedAncestors, MarkerNotices;
  }

  ghost predicate FilesKept(s: State, s': State) {
    s'.files == s.files && s'.objects == s.objects
  }

  lemma KeptFilesAreStored(s: State, s': State)
    requires FilesKept(s, s')
    ensures Stored(s') <==> Stored(s)
  {
  }

  lemma AckKeepsFiles(e: Event, result: (State, bool))
    ensures FilesKept(result.0, Handle(e, result))
  {
  }

  // Every uploaded file has its object: kept by every step exactly under the storage guard.
  lemma StoredKept(c: Config, s: State, step: Step)
    requires Stored(s) && TrashedIsUploaded(s.files) && Enabled(c, s, step)
    ensures Stored(Apply(c, s, step)) <==> StorageGuard(s, step)
  {
    hide CreateFolder, UpdateFolder, TrashFolder, RestoreFolder, PurgeFolder, UploadFile, TrashFile, RestoreFile,
      PurgeFile, ObjectCreated, Trash, Restore, Purge, Notified, PurgePicks, Handle, FilesKept, TrashedIsUploaded;
    var s' := Apply(c, s, step);
    match step
    case DoCreateFolder(id, name, parent) =>
      FolderCallsKeepFiles(s, id, 0, 0, name, parent, 0);
      KeptFilesAreStored(s, s');
    case DoUpdateFolder(id, name) =>
      FolderCallsKeepFiles(s, id, 0, 0, name, None, 0);
      KeptFilesAreStored(s, s');
    case DoTrashFolder(id, user, now) =>
      FolderCallsKeepFiles(s, id, user, now, "", None, 0);
      KeptFilesAreStored(s, s');
    case DoRestoreFolder(id, user, now) =>
      FolderCallsKeepFiles(s, id, user, now, "", None, c.retention);
      KeptFilesAreStored(s, s');
    case DoPurgeFolder(id, user) =>
      FolderCallsKeepFiles(s, id, user, 0, "", None, 0);
      KeptFilesAreStored(s, s');
    case DoUploadFile(id, name, parent) => FileCallsKeepStored(s, id, 0, 0, name, parent, true);
    case DoTrashFile(id, user, now, logOk) => FileCallsKeepStored(s, id, user, now, "", None, logOk);
    case DoRestoreFile(id, logOk) => FileCallsKeepStored(s, id, 0, 0, "", None, logOk);
    case DoPurgeFile(id, logOk) => PurgeFileStored(s, id, logOk);
    case DeliverTrash(id, user, now, fs, gs) =>
      TrashStored(s, id, user, now, fs, gs);
      AckKeepsFiles(FolderTrash(id, user), Trash(s, id, user, now, fs, gs));
      KeptFilesAreStored(Trash(s, id, user, now, fs, gs).0, s');
    case DeliverRestore(id, user, fs, gs) =>
      RestoreKeepsStored(c, s, id, user, fs, gs);
      AckKeepsFiles(FolderRestore(id, user), Restore(c.schema, s, id, user, fs, gs));
      KeptFilesAreStored(Restore(c.schema, s, id, user, fs, gs).0, s');
    case DeliverPurge(id, user, fs, gs) =>
      PurgeKeepsLiveData(c, s, id, fs, gs);
      AckKeepsFiles(FolderPurge(id, user), Purge(c.schema, s, id, fs, gs));
      KeptFilesAreStored(Purge(c.schema, s, id, fs, gs).0, s');
    case NotifyCreated(id) => FileCallsKeepStored(s, id, 0, 0, "", None, true);
    case NotifyRemoved(notice, again) => NoticesKeepLiveData(s, notice, again);
    case _ =>
  }

  lemma RestoreKeepsStored(c: Config, s: State, id: Id, user: Id, fs: set<Id>, gs: set<Id>)
    requires Stored(s) && TrashedIsUploaded(s.files) && RestorePicks(c.limit, s, id, fs, gs)
    ensures Stored(Restore(c.schema, s, id, user, fs, gs).0)
  {
    RestoreKeepsLiveData(c.schema, s, id, user, fs, gs);
  }

  lemma PurgeFileStored(s: State, id: Id, logOk: bool)
    requires Stored(s)
    ensures Stored(PurgeFile(s, id, logOk).0) <==>
            (id in s.files && !s.files[id].Live() && s.files[id].status != Uploading ==> logOk)
  {
  }

  lemma TrashStored(s: State, id: Id, user: Id, now: nat, fs: set<Id>, gs: set<Id>)
    requires Stored(s)
    ensures Stored(Trash(s, id, user, now, fs, gs).0) <==>
            (id in s.folders && !s.folders[id].Live() ==> forall i :: i in gs && i in s.files ==> i in s.objects)
  {
    if id in s.folders && !s.folders[id].Live() {
      var t := TrashRows(s.files, gs, user, now);
      assert forall i :: i in s.files ==> t[i].status == if i in gs then Deleted else s.files[i].status;
    }
  }
}
