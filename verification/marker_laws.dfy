// What every step keeps about trash markers and about the reports of the storage.
module MarkerLaws {
  import opened Basics
  import opened Tables
  import opened Store
  import opened ParentFolders
  import opened BucketFolder
  import opened BucketFile
  import opened FolderTrashEvent
  import opened FolderRestoreEvent
  import opened FolderPurgeEvent
  import opened TrashExpirationEvent
  import opened Protocol

  // ----- reports

  // The storage removed the key that the notice is about.
  predicate Gone(s: State, s': State, n: Notice) {
    match n
    case MarkerRemoved(m) => m in s.markers && m !in s'.markers
    case ObjectRemoved(i) => i in s.objects && i !in s'.objects
  }

  // Each removed key is reported once, and nothing else is.
  ghost predicate Reported(s: State, s': State) {
    forall n :: s'.notices[n] == s.notices[n] + if Gone(s, s', n) then 1 else 0
  }

  // No key is added.
  predicate NoKeyAdded(s: State, s': State) {
    s'.markers <= s.markers && s'.objects <= s.objects
  }

  lemma ReportedTogether(s: State, s1: State, s2: State)
    requires Reported(s, s1) && Reported(s1, s2) && NoKeyAdded(s, s1) && NoKeyAdded(s1, s2)
    ensures Reported(s, s2) && NoKeyAdded(s, s2)
  {
  }

  lemma UnmarkReports(s: State, markers: set<Marker>)
    ensures Reported(s, Unmark(s, markers)) && NoKeyAdded(s, Unmark(s, markers))
  {
    var s' := Unmark(s, markers);
    var ns := set m | m in markers * s.markers :: MarkerRemoved(m);
    forall n
      ensures s'.notices[n] == s.notices[n] + if Gone(s, s', n) then 1 else 0
    {
      assert multiset(ns)[n] == if n in ns then 1 else 0;
    }
  }

  lemma RemovalReports(s: State, ids: set<Id>)
    ensures Reported(s, RemoveObjects(s, ids)) && NoKeyAdded(s, RemoveObjects(s, ids))
  {
    var s' := RemoveObjects(s, ids);
    var ns := set i | i in ids * s.objects :: ObjectRemoved(i);
    forall n
      ensures s'.notices[n] == s.notices[n] + if Gone(s, s', n) then 1 else 0
    {
      assert multiset(ns)[n] == if n in ns then 1 else 0;
    }
  }

  // The tables and the queue may be what they like.
  predicate SameStorage(s: State, s': State) {
    s'.markers == s.markers && s'.objects == s.objects && s'.notices == s.notices
  }

  lemma SameStorageReports(s: State, s': State, s'': State)
    requires Reported(s, s') && NoKeyAdded(s, s') && SameStorage(s', s'')
    ensures Reported(s, s'') && NoKeyAdded(s, s'')
  {
  }

  lemma SameStorageFirst(s: State, s': State, s'': State)
    requires SameStorage(s, s') && Reported(s', s'') && NoKeyAdded(s', s'')
    ensures Reported(s, s'') && NoKeyAdded(s, s'')
  {
  }

  lemma NothingGone(s: State, s': State)
    requires s.markers <= s'.markers && s.objects <= s'.objects && s'.notices == s.notices
    ensures Reported(s, s')
  {
  }

  lemma FolderCallsReport(s: State, id: Id, user: Id, now: nat, name: string, parent: Option<Id>)
    ensures Reported(s, CreateFolder(s, id, name, parent).0) && Reported(s, UpdateFolder(s, id, name).0)
    ensures Reported(s, TrashFolder(s, id, user, now).0) && Reported(s, PurgeFolder(s, id, user).0)
  {
    hide Reported, NameTaken;
    NothingGone(s, CreateFolder(s, id, name, parent).0);
    NothingGone(s, UpdateFolder(s, id, name).0);
    NothingGone(s, TrashFolder(s, id, user, now).0);
    NothingGone(s, PurgeFolder(s, id, user).0);
  }

  lemma FileCallsReport(s: State, id: Id, user: Id, now: nat, name: string, parent: Option<Id>, logOk: bool)
    ensures Reported(s, UploadFile(s, id, name, parent).0) && Reported(s, TrashFile(s, id, user, now, logOk).0)
    ensures Reported(s, PutObject(s, id)) && Reported(s, ObjectCreated(s, id))
  {
    hide Reported, NameTaken;
    NothingGone(s, UploadFile(s, id, name, parent).0);
    NothingGone(s, TrashFile(s, id, user, now, logOk).0);
    NothingGone(s, PutObject(s, id));
    NothingGone(s, ObjectCreated(s, id));
  }

  lemma RestoreFolderReports(s: State, id: Id, user: Id, now: nat, retention: nat)
    ensures Reported(s, RestoreFolder(s, id, user, now, retention).0)
  {
    var s' := RestoreFolder(s, id, user, now, retention).0;
    hide Reported, Unmark, WithParents, ParentConflict, TrashedAncestors, NameTaken;
    if s' == s {
      NothingGone(s, s);
    } else {
      var ms := FolderMarkers(TrashedAncestors(s.folders, s.folders[id].parent)) + {FolderMarker(id)};
      UnmarkReports(s, ms);
      SameStorageReports(s, Unmark(s, ms), s');
    }
  }

  lemma RestoreFileReports(s: State, id: Id, logOk: bool)
    ensures Reported(s, RestoreFile(s, id, logOk).0)
  {
    var s' := RestoreFile(s, id, logOk).0;
    hide Reported, Unmark, WithParents, ParentConflict, TrashedAncestors, NameTaken;
    if s' == s {
      NothingGone(s, s);
    } else {
      var ms := FolderMarkers(TrashedAncestors(s.folders, s.files[id].parent)) + {FileMarker(id)};
      UnmarkReports(s, ms);
      SameStorageReports(s, Unmark(s, ms), s');
    }
  }

  lemma PurgeFileReports(s: State, id: Id, logOk: bool)
    ensures Reported(s, PurgeFile(s, id, logOk).0)
  {
    hide Reported, Unmark, RemoveObjects;
    NothingGone(s, s);
    var s1 := Unmark(s, {FileMarker(id)});
    var s2 := RemoveObjects(s1, {id});
    UnmarkReports(s, {FileMarker(id)});
    RemovalReports(s1, {id});
    ReportedTogether(s, s1, s2);
    SameStorageReports(s, s2, s2.(files := s.files - {id}));
  }

  lemma TrashReports(s: State, id: Id, user: Id, now: nat, fs: set<Id>, gs: set<Id>)
    ensures Reported(s, Trash(s, id, user, now, fs, gs).0)
  {
    hide Reported;
    NothingGone(s, Trash(s, id, user, now, fs, gs).0);
  }

  lemma RestoreReports(schema: bool, s: State, id: Id, user: Id, fs: set<Id>, gs: set<Id>)
    ensures Reported(s, Restore(schema, s, id, user, fs, gs).0)
  {
    hide Reported, MarkerNotices, NameTaken, Fits, ChildrenLeft, ReviveRows, RestoreEvents;
    NothingGone(s, s);
    var p := ProcessChildren(schema, s, id, user, fs, gs);
    if p.Some? && s.folders[id].status == Restoring {
      var mid := s.(folders := MarkRestoring(s.folders, fs), files := ReviveRows(s.files, gs, Uploaded),
                    queue := s.queue + RestoreEvents(fs, user));
      var s1 := Unmark(mid, FileMarkers(gs));
      UnmarkReports(mid, FileMarkers(gs));
      SameStorageFirst(s, mid, s1);
      if id in s1.folders {
        var last := s1.(folders := s1.folders[id := s1.folders[id].Revive(Unset)]);
        SameStorageReports(s, s1, last);
        UnmarkReports(last, {FolderMarker(id)});
        ReportedTogether(s, last, Unmark(last, {FolderMarker(id)}));
      }
    }
  }

  lemma PurgeReports(schema: bool, s: State, id: Id, fs: set<Id>, gs: set<Id>)
    ensures Reported(s, Purge(schema, s, id, fs, gs).0)
  {
    NothingGone(s, s);
    var s1 := DropFolders(s, fs, schema);
    var s2 := s1.(files := s1.files - gs);
    var s3 := RemoveObjects(s2, gs);
    var s4 := Unmark(s3, {FolderMarker(id)});
    hide Reported, Unmark, RemoveObjects, Purge, Unlink;
    RemovalReports(s2, gs);
    SameStorageFirst(s, s2, s3);
    UnmarkReports(s3, {FolderMarker(id)});
    ReportedTogether(s, s3, s4);
    SameStorageReports(s, s4, DropFolders(s4, {id}, schema));
    PurgeIsOneOf(schema, s, id, fs, gs);
  }

  lemma ExpireReports(s: State, notice: Notice)
    ensures Reported(s, Expire(s, notice))
  {
    hide Reported, RemoveObjects;
    NothingGone(s, s);
    var id := IdOf(notice);
    RemovalReports(s, {id});
    NothingGone(s, s.(files := s.files - {id}));
    SameStorageReports(s, RemoveObjects(s, {id}),
                       RemoveObjects(s, {id}).(files := RemoveObjects(s, {id}).files - {id}));
  }

  lemma AckReports(s: State, e: Event, result: (State, bool))
    requires Reported(s, result.0)
    ensures Reported(s, Handle(e, result))
  {
    assert SameStorage(result.0, Handle(e, result));
  }

  // The report that a step takes off the storage's hands.
  predicate Takes(step: Step, n: Notice) {
    step.NotifyRemoved? && step.notice == n && !step.again
  }

  // Over every step each key that goes is reported exactly once, and no report is lost but the one
  // that is handled.
  lemma EveryRemovalIsReported(c: Config, s: State, step: Step)
    requires Enabled(c, s, step)
    ensures var s' := Apply(c, s, step);
            forall n :: s'.notices[n] + (if Takes(step, n) then 1 else 0)
                        == s.notices[n] + (if Gone(s, s', n) then 1 else 0)
  {
    var s' := Apply(c, s, step);
    if step.NotifyRemoved? {
      ExpireReports(s, step.notice);
      hide Expire;
    } else {
      assert Reported(s, s') by {
        OtherSteps(c, s, step);
      }
      hide Apply;
    }
  }

  lemma OtherSteps(c: Config, s: State, step: Step)
    requires Enabled(c, s, step) && !step.NotifyRemoved?
    ensures Reported(s, Apply(c, s, step))
  {
    hide Reported, Handle, CreateFolder, UpdateFolder, TrashFolder, RestoreFolder, PurgeFolder, UploadFile, TrashFile,
      RestoreFile, PurgeFile, PutObject, ObjectCreated, Trash, Restore, Purge, Unmark, Fresh, TrashPicks, RestorePicks,
      PurgePicks;
    match step
    case DoCreateFolder(id, name, parent) => FolderCallsReport(s, id, 0, 0, name, parent);
    case DoUpdateFolder(id, name) => FolderCallsReport(s, id, 0, 0, name, None);
    case DoTrashFolder(id, user, now) => FolderCallsReport(s, id, user, now, "", None);
    case DoRestoreFolder(id, user, now) => RestoreFolderReports(s, id, user, now, c.retention);
    case DoPurgeFolder(id, user) => FolderCallsReport(s, id, user, 0, "", None);
    case DoUploadFile(id, name, parent) => FileCallsReport(s, id, 0, 0, name, parent, true);
    case DoTrashFile(id, user, now, logOk) => FileCallsReport(s, id, user, now, "", None, logOk);
    case DoRestoreFile(id, logOk) => RestoreFileReports(s, id, logOk);
    case DoPurgeFile(id, logOk) => PurgeFileReports(s, id, logOk);
    case DeliverTrash(id, user, now, fs, gs) =>
      TrashReports(s, id, user, now, fs, gs);
      AckReports(s, FolderTrash(id, user), Trash(s, id, user, now, fs, gs));
    case DeliverRestore(id, user, fs, gs) =>
      RestoreReports(c.schema, s, id, user, fs, gs);
      AckReports(s, FolderRestore(id, user), Restore(c.schema, s, id, user, fs, gs));
    case DeliverPurge(id, user, fs, gs) =>
      PurgeReports(c.schema, s, id, fs, gs);
      AckReports(s, FolderPurge(id, user), Purge(c.schema, s, id, fs, gs));
    case StoreObject(id) => FileCallsReport(s, id, 0, 0, "", None, true);
    case NotifyCreated(id) => FileCallsReport(s, id, 0, 0, "", None, true);
    case MarkerExpires(marker) => UnmarkReports(s, {marker});
  }

  // ----- what is live has no marker

  ghost predicate LiveFoldersUnmarked(s: State) {
    forall i :: i in s.folders && s.folders[i].Live() ==> FolderMarker(i) !in s.markers
  }

  ghost predicate LiveFilesUnmarked(s: State) {
    forall i :: i in s.files && s.files[i].Live() ==> FileMarker(i) !in s.markers
  }

  // The only step that leaves a marker on something live: a TrashFile that the log refuses.
  ghost predicate MarkerGuard(s: State, step: Step) {
    step.DoTrashFile? ==>
      (step.id in s.files && s.files[step.id].Live() && s.files[step.id].status == Uploaded && step.id in s.objects ==>
         step.logOk)
  }

  ghost predicate Keeps(s: State, s': State) {
    && (LiveFoldersUnmarked(s) ==> LiveFoldersUnmarked(s'))
    && (LiveFilesUnmarked(s) ==> LiveFilesUnmarked(s'))
  }

  // Nothing comes to life and no marker is put.
  ghost predicate NothingRevived(s: State, s': State) {
    && s'.markers <= s.markers
    && (forall i :: i in s'.folders && s'.folders[i].Live() ==> i in s.folders && s.folders[i].Live())
    && (forall i :: i in s'.files && s'.files[i].Live() ==> i in s.files && s.files[i].Live())
  }

  lemma NothingRevivedKeeps(s: State, s': State)
    requires NothingRevived(s, s')
    ensures Keeps(s, s')
  {
  }

  lemma CreationUnmarked(s: State, id: Id, name: string, parent: Option<Id>)
    requires Fresh(s, id)
    ensures Keeps(s, CreateFolder(s, id, name, parent).0) && Keeps(s, UploadFile(s, id, name, parent).0)
  {
    hide NameTaken;
  }

  lemma OtherCallsUnmarked(s: State, id: Id, user: Id, now: nat, name: string)
    ensures Keeps(s, UpdateFolder(s, id, name).0) && Keeps(s, PurgeFolder(s, id, user).0)
    ensures Keeps(s, TrashFolder(s, id, user, now).0) && Keeps(s, ObjectCreated(s, id))
  {
    hide NameTaken;
  }

  lemma TrashFileUnmarked(s: State, id: Id, user: Id, now: nat, logOk: bool)
    requires LiveFilesUnmarked(s)
    ensures LiveFoldersUnmarked(s) ==> LiveFoldersUnmarked(TrashFile(s, id, user, now, logOk).0)
    ensures LiveFilesUnmarked(TrashFile(s, id, user, now, logOk).0) <==>
            MarkerGuard(s, DoTrashFile(id, user, now, logOk))
  {
    var s' := TrashFile(s, id, user, now, logOk).0;
    if s' != s && !logOk {
      assert FileMarker(id) in s'.markers && s'.files[id].Live();
    }
  }

  lemma RestoreFolderUnmarked(s: State, id: Id, user: Id, now: nat, retention: nat)
    ensures Keeps(s, RestoreFolder(s, id, user, now, retention).0)
  {
    hide NameTaken, ParentConflict, MarkerNotices, OnChain;
  }

  lemma RestoreFileUnmarked(s: State, id: Id, logOk: bool)
    ensures Keeps(s, RestoreFile(s, id, logOk).0)
  {
    hide NameTaken, ParentConflict, MarkerNotices, OnChain;
  }

  lemma PurgeFileUnmarked(s: State, id: Id, logOk: bool)
    ensures Keeps(s, PurgeFile(s, id, logOk).0)
  {
    hide MarkerNotices, ObjectNotices;
    NothingRevivedKeeps(s, PurgeFile(s, id, logOk).0);
  }

  lemma TrashUnmarked(limit: nat, s: State, id: Id, user: Id, now: nat, fs: set<Id>, gs: set<Id>)
    ensures Keeps(s, Trash(s, id, user, now, fs, gs).0)
  {
  }

  lemma RestoreUnmarked(schema: bool, s: State, id: Id, user: Id, fs: set<Id>, gs: set<Id>)
    ensures Keeps(s, Restore(schema, s, id, user, fs, gs).0)
  {
    hide NameTaken, Fits, ChildrenLeft, MarkerNotices, RestoreEvents;
  }

  lemma PurgeUnmarked(schema: bool, s: State, id: Id, fs: set<Id>, gs: set<Id>)
    ensures Keeps(s, Purge(schema, s, id, fs, gs).0)
  {
    var s1 := DropFolders(s, fs, schema);
    var s3 := RemoveObjects(s1.(files := s1.files - gs), gs);
    var s4 := Unmark(s3, {FolderMarker(id)});
    var s5 := DropFolders(s4, {id}, schema);
    hide Purge, MarkerNotices, ObjectNotices;
    assert NothingRevived(s, s3) && NothingRevived(s, s4) && NothingRevived(s, s5);
    NothingRevivedKeeps(s, s3);
    NothingRevivedKeeps(s, s4);
    NothingRevivedKeeps(s, s5);
    PurgeIsOneOf(schema, s, id, fs, gs);
  }

  lemma StorageUnmarked(s: State, marker: Marker, notice: Notice, again: bool, id: Id)
    ensures Keeps(s, Unmark(s, {marker})) && Keeps(s, Notified(s, notice, again)) && Keeps(s, PutObject(s, id))
  {
    hide MarkerNotices, ObjectNotices;
  }

  lemma AckUnmarked(s: State, e: Event, result: (State, bool))
    requires Keeps(s, result.0)
    ensures Keeps(s, Handle(e, result))
  {
  }

  lemma FailedTrashKeepsFolders(s: State, id: Id, user: Id, now: nat, logOk: bool)
    ensures LiveFoldersUnmarked(s) ==> LiveFoldersUnmarked(TrashFile(s, id, user, now, logOk).0)
  {
  }

  lemma StepKeeps(c: Config, s: State, step: Step)
    requires Enabled(c, s, step)
    ensures LiveFoldersUnmarked(s) ==> LiveFoldersUnmarked(Apply(c, s, step))
    ensures !step.DoTrashFile? ==> Keeps(s, Apply(c, s, step))
  {
    assert !step.DoTrashFile? && Keeps(s, Apply(c, s, step)) && LiveFoldersUnmarked(s) ==>
        LiveFoldersUnmarked(Apply(c, s, step)) by {
      hide Apply;
    }
    hide Keeps, Handle, CreateFolder, UpdateFolder, TrashFolder, RestoreFolder, PurgeFolder, UploadFile, TrashFile,
      RestoreFile, PurgeFile, PutObject, ObjectCreated, Trash, Restore, Purge, Notified, Unmark, Fresh, TrashPicks,
      RestorePicks, PurgePicks, LiveFoldersUnmarked, LiveFilesUnmarked;
    match step
    case DoCreateFolder(id, name, parent) => CreationUnmarked(s, id, name, parent);
    case DoUpdateFolder(id, name) => OtherCallsUnmarked(s, id, 0, 0, name);
    case DoTrashFolder(id, user, now) => OtherCallsUnmarked(s, id, user, now, "");
    case DoRestoreFolder(id, user, now) => RestoreFolderUnmarked(s, id, user, now, c.retention);
    case DoPurgeFolder(id, user) => OtherCallsUnmarked(s, id, user, 0, "");
    case DoUploadFile(id, name, parent) => CreationUnmarked(s, id, name, parent);
    case DoTrashFile(id, user, now, logOk) => FailedTrashKeepsFolders(s, id, user, now, logOk);
    case DoRestoreFile(id, logOk) => RestoreFileUnmarked(s, id, logOk);
    case DoPurgeFile(id, logOk) => PurgeFileUnmarked(s, id, logOk);
    case DeliverTrash(id, user, now, fs, gs) =>
      TrashUnmarked(c.limit, s, id, user, now, fs, gs);
      AckUnmarked(s, FolderTrash(id, user), Trash(s, id, user, now, fs, gs));
    case DeliverRestore(id, user, fs, gs) =>
      RestoreUnmarked(c.schema, s, id, user, fs, gs);
      AckUnmarked(s, FolderRestore(id, user), Restore(c.schema, s, id, user, fs, gs));
    case DeliverPurge(id, user, fs, gs) =>
      PurgeUnmarked(c.schema, s, id, fs, gs);
      AckUnmarked(s, FolderPurge(id, user), Purge(c.schema, s, id, fs, gs));
    case StoreObject(id) => StorageUnmarked(s, FileMarker(id), ObjectRemoved(id), true, id);
    case NotifyCreated(id) => OtherCallsUnmarked(s, id, 0, 0, "");
    case MarkerExpires(marker) => StorageUnmarked(s, marker, ObjectRemoved(0), true, 0);
    case NotifyRemoved(notice, again) => StorageUnmarked(s, FileMarker(0), notice, again, 0);
  }

  // No live folder has a trash marker: every step keeps it, whatever it brings back.
  lemma LiveFoldersUnmarkedKept(c: Config, s: State, step: Step)
    requires LiveFoldersUnmarked(s) && Enabled(c, s, step)
    ensures LiveFoldersUnmarked(Apply(c, s, step))
  {
    StepKeeps(c, s, step);
  }

  // No live file has one: every step keeps it but a TrashFile that the log refuses after the marker
  // has been written.
  lemma LiveFilesUnmarkedKept(c: Config, s: State, step: Step)
    requires LiveFilesUnmarked(s) && Enabled(c, s, step)
    ensures LiveFilesUnmarked(Apply(c, s, step)) <==> MarkerGuard(s, step)
  {
    StepKeeps(c, s, step);
    if step.DoTrashFile? {
      TrashFileUnmarked(s, step.id, step.user, step.now, step.logOk);
      hide LiveFilesUnmarked, LiveFoldersUnmarked, MarkerGuard, TrashFile;
    } else {
      hide Apply;
    }
  }
}
