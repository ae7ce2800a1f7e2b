// Parent links stay acyclic, and live siblings keep distinct names: by the checks of the code, and by
// the unique indexes of the database where those do not reach.
module Names {
  import opened Basics
  import opened Tables
  import opened Store
  import opened ParentFolders
  import opened BucketFolder
  import opened BucketFile
  import opened FolderTrashEvent
  import opened FolderRestoreEvent
  import opened FolderPurgeEvent
  import opened Protocol

  // ----- parent links

  // A table with fewer rows and fewer links.
  ghost predicate FewerLinks(t: Table, u: Table) {
    && u.Keys <= t.Keys
    && forall i :: i in u ==> u[i].parent == t[i].parent || u[i].parent == None
  }

  lemma AcyclicFewerLinks(t: Table, u: Table)
    requires FewerLinks(t, u) && Acyclic(t)
    ensures Acyclic(u)
  {
    var rank :| Ranks(t, rank);
    assert Ranks(u, rank);
  }

  lemma AcyclicNewFolder(s: State, id: Id, row: Row)
    requires Acyclic(s.folders) && Fresh(s, id) && row.parent != Some(id)
    ensures Acyclic(s.folders[id := row])
  {
    var rank :| Ranks(s.folders, rank);
    var above := if row.parent.Some? && row.parent.value in s.folders then rank[row.parent.value] + 1 else 0;
    assert Ranks(s.folders[id := row], rank[id := above]);
  }

  // What a purge takes out of the folder table: nothing, the batch, or the batch and the folder.
  lemma PurgedFolders(schema: bool, s: State, id: Id, fs: set<Id>, gs: set<Id>) returns (gone: set<Id>)
    ensures gone == {} || gone == fs || gone == fs + {id}
    ensures Purge(schema, s, id, fs, gs).0.folders == Unlink(s.folders - gone, gone, schema)
  {
    var r := Purge(schema, s, id, fs, gs).0;
    PurgeIsOneOf(schema, s, id, fs, gs);
    UnlinkTwice(s.folders, fs, {id}, schema);
    NothingUnlinked(s.folders, schema);
    hide Purge, Unlink;
    gone := if r.folders == s.folders then {}
            else if r.folders == DropFolders(s, fs, schema).folders then fs
            else fs + {id};
  }

  lemma NothingUnlinked(t: Table, schema: bool)
    ensures Unlink(t - {}, {}, schema) == t
  {
  }

  lemma UnlinkTwice(t: Table, a: set<Id>, b: set<Id>, schema: bool)
    ensures Unlink(Unlink(t - a, a, schema) - b, b, schema) == Unlink(t - (a + b), a + b, schema)
  {
  }

  // The steps that do not write the folder table.
  predicate LeavesFolders(step: Step) {
    || step.DoPurgeFolder? || step.DoUploadFile? || step.DoTrashFile? || step.DoPurgeFile?
    || step.StoreObject? || step.NotifyCreated? || step.MarkerExpires? || step.NotifyRemoved?
  }

  lemma FoldersUntouched(c: Config, s: State, step: Step)
    requires LeavesFolders(step)
    ensures Apply(c, s, step).folders == s.folders
  {
    hide PurgeFolder, UploadFile, TrashFile, PurgeFile, PutObject, ObjectCreated, Unmark, Notified;
    match step
    case DoPurgeFolder(id, user) => CallsLeaveFolders(s, id, user, 0, "", None, true);
    case DoUploadFile(id, name, parent) => CallsLeaveFolders(s, id, 0, 0, name, parent, true);
    case DoTrashFile(id, user, now, logOk) => CallsLeaveFolders(s, id, user, now, "", None, logOk);
    case DoPurgeFile(id, logOk) => CallsLeaveFolders(s, id, 0, 0, "", None, logOk);
    case StoreObject(id) => CallsLeaveFolders(s, id, 0, 0, "", None, true);
    case NotifyCreated(id) => CallsLeaveFolders(s, id, 0, 0, "", None, true);
    case MarkerExpires(marker) => StorageLeavesFolders(s, marker, ObjectRemoved(0), true);
    case NotifyRemoved(notice, again) => StorageLeavesFolders(s, FileMarker(0), notice, again);
  }

  lemma CallsLeaveFolders(s: State, id: Id, user: Id, now: nat, name: string, parent: Option<Id>, logOk: bool)
    ensures PurgeFolder(s, id, user).0.folders == s.folders
    ensures UploadFile(s, id, name, parent).0.folders == s.folders
    ensures TrashFile(s, id, user, now, logOk).0.folders == s.folders
    ensures PurgeFile(s, id, logOk).0.folders == s.folders
    ensures PutObject(s, id).folders == s.folders && ObjectCreated(s, id).folders == s.folders
  {
    hide NameTaken, MarkerNotices, ObjectNotices;
  }

  lemma StorageLeavesFolders(s: State, marker: Marker, notice: Notice, again: bool)
    ensures Unmark(s, {marker}).folders == s.folders && Notified(s, notice, again).folders == s.folders
  {
  }

  // The parent link of a folder is set when it is created, under a folder that exists already,
  // and is never set again: every step keeps the links acyclic.
  lemma LinksKept(c: Config, s: State, step: Step)
    requires Acyclic(s.folders) && Enabled(c, s, step)
    ensures Acyclic(Apply(c, s, step).folders)
  {
    hide Acyclic, CreateFolder, UpdateFolder, TrashFolder, RestoreFolder, RestoreFile, Trash, Restore, Purge, Fresh,
      TrashPicks, RestorePicks, PurgePicks;
    match step
    case DoCreateFolder(id, name, parent) => CreateFolderLinks(s, id, name, parent);
    case DoUpdateFolder(id, name) => SameFolderLinks(s, id, 0, 0, name);
    case DoTrashFolder(id, user, now) => SameFolderLinks(s, id, user, now, "");
    case DoRestoreFolder(id, user, now) => RestoreFolderLinks(s, id, user, now, c.retention);
    case DoRestoreFile(id, logOk) => RestoreFileLinks(s, id, logOk);
    case DeliverTrash(id, user, now, fs, gs) => TrashLinks(s, id, user, now, fs, gs);
    case DeliverRestore(id, user, fs, gs) => RestoreLinks(c.schema, s, id, user, fs, gs);
    case DeliverPurge(id, user, fs, gs) => PurgeLinks(c.schema, s, id, fs, gs);
    case _ => FoldersUntouched(c, s, step);
  }

  lemma CreateFolderLinks(s: State, id: Id, name: string, parent: Option<Id>)
    requires Acyclic(s.folders) && Fresh(s, id)
    ensures Acyclic(CreateFolder(s, id, name, parent).0.folders)
  {
    if CreateFolder(s, id, name, parent).1.Accepted? {
      AcyclicNewFolder(s, id, Row(name, parent, Unset, None, None));
    }
  }

  lemma SameFolderLinks(s: State, id: Id, user: Id, now: nat, name: string)
    requires Acyclic(s.folders)
    ensures Acyclic(UpdateFolder(s, id, name).0.folders) && Acyclic(TrashFolder(s, id, user, now).0.folders)
  {
    AcyclicSameLinks(s.folders, UpdateFolder(s, id, name).0.folders);
    AcyclicSameLinks(s.folders, TrashFolder(s, id, user, now).0.folders);
  }

  lemma TrashLinks(s: State, id: Id, user: Id, now: nat, fs: set<Id>, gs: set<Id>)
    requires Acyclic(s.folders)
    ensures Acyclic(Trash(s, id, user, now, fs, gs).0.folders)
  {
    AcyclicSameLinks(s.folders, Trash(s, id, user, now, fs, gs).0.folders);
  }

  lemma PurgeLinks(schema: bool, s: State, id: Id, fs: set<Id>, gs: set<Id>)
    requires Acyclic(s.folders)
    ensures Acyclic(Purge(schema, s, id, fs, gs).0.folders)
  {
    var gone := PurgedFolders(schema, s, id, fs, gs);
    AcyclicFewerLinks(s.folders, Unlink(s.folders - gone, gone, schema));
  }

  lemma RestoreFileLinks(s: State, id: Id, logOk: bool)
    requires Acyclic(s.folders)
    ensures Acyclic(RestoreFile(s, id, logOk).0.folders)
  {
    AcyclicSameLinks(s.folders, RestoreFile(s, id, logOk).0.folders);
  }

  lemma RestoreFolderLinks(s: State, id: Id, user: Id, now: nat, retention: nat)
    requires Acyclic(s.folders)
    ensures Acyclic(RestoreFolder(s, id, user, now, retention).0.folders)
  {
    AcyclicSameLinks(s.folders, RestoreFolder(s, id, user, now, retention).0.folders);
  }

  lemma RestoreLinks(schema: bool, s: State, id: Id, user: Id, fs: set<Id>, gs: set<Id>)
    requires Acyclic(s.folders)
    ensures Acyclic(Restore(schema, s, id, user, fs, gs).0.folders)
  {
    hide Fits, NameTaken, ChildrenLeft, MarkerNotices, FileMarkers, RestoreEvents, ReviveRows, Acyclic;
    AcyclicSameLinks(s.folders, Restore(schema, s, id, user, fs, gs).0.folders);
  }

  // ----- names

  // Nothing came to life, moved or was renamed.
  lemma FewerLive(t: Table, u: Table)
    requires Distinct(t) && u.Keys <= t.Keys
    requires forall i :: i in u && u[i].Live() ==> t[i].Live() && u[i].parent == t[i].parent && u[i].name == t[i].name
    ensures Distinct(u)
  {
  }

  lemma NewLiveRow(t: Table, id: Id, row: Row)
    requires Distinct(t) && !NameTaken(t, row.name, row.parent, id)
    ensures Distinct(t[id := row])
  {
  }

  // Two folders on one chain of parents are never siblings.
  lemma ChainHasNoSiblings(t: Table, start: Option<Id>, a: Id, b: Id)
    requires Acyclic(t) && OnChain(t, start, a) && OnChain(t, start, b) && a != b
    ensures a in t && b in t && t[a].parent != t[b].parent
  {
    var m: nat :| Climb(t, start, m) == Some(a);
    var n: nat :| Climb(t, start, n) == Some(b);
    if m < n {
      ClimbBeyond(t, start, m, n);
      AncestorIsNoSibling(t, b, a);
    } else {
      ClimbBeyond(t, start, n, m);
      AncestorIsNoSibling(t, a, b);
    }
  }

  lemma {:induction false} ClimbBeyond(t: Table, start: Option<Id>, m: nat, n: nat)
    requires m < n && Climb(t, start, n).Some?
    ensures Climb(t, start, m).Some?
    ensures ProperAncestor(t, Climb(t, start, n).value, Climb(t, start, m).value)
    decreases n
  {
    ClimbStep(t, start, n - 1);
    var below := Climb(t, start, n - 1).value;
    var above := Climb(t, start, n).value;
    if m == n - 1 {
      assert Climb(t, t[below].parent, 0) == Some(above);
    } else {
      ClimbBeyond(t, start, m, n - 1);
      var a := Climb(t, start, m).value;
      var k: nat :| Climb(t, t[a].parent, k) == Some(below);
      ClimbStep(t, t[a].parent, k);
      assert Climb(t, t[a].parent, k + 1) == Some(above);
    }
  }

  // Bringing all trashed ancestors back at once, each checked against the table as it was, is safe.
  lemma ParentsKeepNames(t: Table, start: Option<Id>)
    requires Acyclic(t) && Distinct(t) && !ParentConflict(t, start)
    ensures Distinct(WithParents(t, start))
  {
    var ids := TrashedAncestors(t, start);
    var u := WithParents(t, start);
    forall i, j | i in u && j in u && i != j && u[i].Live() && u[j].Live() && u[i].parent == u[j].parent
      ensures u[i].name != u[j].name
    {
      if i in ids && j in ids {
        ChainHasNoSiblings(t, start, i, j);
      } else if i in ids {
        assert !NameTaken(t, t[i].name, t[i].parent, i);
      } else if j in ids {
        assert !NameTaken(t, t[j].name, t[j].parent, j);
      }
    }
  }

  lemma RestoreFolderKeepsNames(s: State, id: Id, user: Id, now: nat, retention: nat)
    requires Acyclic(s.folders) && Distinct(s.folders)
    ensures Distinct(RestoreFolder(s, id, user, now, retention).0.folders)
  {
    var s' := RestoreFolder(s, id, user, now, retention).0;
    if s' != s {
      var t := WithParents(s.folders, s.folders[id].parent);
      ParentsKeepNames(s.folders, s.folders[id].parent);
      FewerLive(t, s'.folders);
    }
  }

  lemma RestoreFileKeepsNames(s: State, id: Id, logOk: bool)
    requires Acyclic(s.folders) && Distinct(s.folders)
    ensures Distinct(RestoreFile(s, id, logOk).0.folders)
    ensures Distinct(s.files) ==> Distinct(RestoreFile(s, id, logOk).0.files)
  {
    var s' := RestoreFile(s, id, logOk).0;
    if s' != s {
      ParentsKeepNames(s.folders, s.files[id].parent);
    }
  }

  // The check at the start of the callback covers the folder that it brings to life at the end.
  lemma RestoreKeepsNames(schema: bool, s: State, id: Id, user: Id, fs: set<Id>, gs: set<Id>)
    requires Distinct(s.folders)
    requires forall i :: i in fs && i in s.folders ==> !s.folders[i].Live()
    ensures Distinct(Restore(schema, s, id, user, fs, gs).0.folders)
  {
    var p := ProcessChildren(schema, s, id, user, fs, gs);
    hide Fits;
    if p.Some? {
      var t := p.value.folders;
      FewerLive(s.folders, t);
      if s.folders[id].status == Restoring {
        assert !NameTaken(t, t[id].name, t[id].parent, id);
        NewLiveRow(t, id, t[id].Revive(Unset));
      }
    }
  }

  // With the schema the index has agreed; without it no live row moves.
  lemma DropKeepsNames(s: State, gone: set<Id>, schema: bool)
    requires MayDrop(s, gone, schema)
    ensures Distinct(s.folders) ==> Distinct(DropFolders(s, gone, schema).folders)
    ensures Distinct(s.files) ==> Distinct(DropFolders(s, gone, schema).files)
  {
    if !schema {
      if Distinct(s.folders) {
        FewerLive(s.folders, DropFolders(s, gone, schema).folders);
      }
      if Distinct(s.files) {
        FewerLive(s.files, DropFolders(s, gone, schema).files);
      }
    }
  }

  lemma PurgeKeepsNames(schema: bool, s: State, id: Id, fs: set<Id>, gs: set<Id>)
    ensures Distinct(s.folders) ==> Distinct(Purge(schema, s, id, fs, gs).0.folders)
    ensures Distinct(s.files) ==> Distinct(Purge(schema, s, id, fs, gs).0.files)
  {
    hide Unlink;
    if id in s.folders && !s.folders[id].Live() && MayDrop(s, fs, schema) {
      DropKeepsNames(s, fs, schema);
      var s1 := PurgeChildren(schema, s, fs, gs).value;
      if Distinct(s.files) {
        FewerLive(DropFolders(s, fs, schema).files, s1.files);
      }
      hide Distinct;
      var s2 := Unmark(s1, {FolderMarker(id)});
      if MayDrop(s2, {id}, schema) {
        DropKeepsNames(s2, {id}, schema);
      }
    }
  }

  // Live sibling folders have distinct names: every step keeps it. Without the schema the checks of
  // the code are enough; with it, detaching rows could break it and is refused.
  lemma NamesKept(c: Config, s: State, step: Step)
    requires Acyclic(s.folders) && Distinct(s.folders) && Enabled(c, s, step)
    ensures Distinct(Apply(c, s, step).folders)
  {
    hide Distinct, Acyclic, CreateFolder, UpdateFolder, TrashFolder, RestoreFolder, RestoreFile, Trash, Restore, Purge,
      Fresh, TrashPicks, PurgePicks;
    match step
    case DoCreateFolder(id, name, parent) => NewFolderNames(s, id, name, parent);
    case DoUpdateFolder(id, name) => NewFolderNames(s, id, name, None);
    case DoTrashFolder(id, user, now) => TrashFolderNames(s, id, user, now);
    case DoRestoreFolder(id, user, now) => RestoreFolderKeepsNames(s, id, user, now, c.retention);
    case DoRestoreFile(id, logOk) => RestoreFileKeepsNames(s, id, logOk);
    case DeliverTrash(id, user, now, fs, gs) => TrashNames(s, id, user, now, fs, gs);
    case DeliverRestore(id, user, fs, gs) => RestoreKeepsNames(c.schema, s, id, user, fs, gs);
    case DeliverPurge(id, user, fs, gs) => PurgeKeepsNames(c.schema, s, id, fs, gs);
    case _ => FoldersUntouched(c, s, step);
  }

  lemma TrashFolderNames(s: State, id: Id, user: Id, now: nat)
    requires Distinct(s.folders)
    ensures Distinct(TrashFolder(s, id, user, now).0.folders)
  {
    FewerLive(s.folders, TrashFolder(s, id, user, now).0.folders);
  }

  lemma TrashNames(s: State, id: Id, user: Id, now: nat, fs: set<Id>, gs: set<Id>)
    requires Distinct(s.folders)
    ensures Distinct(Trash(s, id, user, now, fs, gs).0.folders)
  {
    FewerLive(s.folders, TrashRows(s.folders, fs, user, now));
  }

  lemma NewFolderNames(s: State, id: Id, name: string, parent: Option<Id>)
    requires Distinct(s.folders)
    ensures Distinct(CreateFolder(s, id, name, parent).0.folders)
    ensures Distinct(UpdateFolder(s, id, name).0.folders)
  {
  }

  // ----- names of files

  // FolderRestore has no name check for files: the files it brings back are distinct from their
  // live siblings and from each other exactly when this holds beforehand.
  ghost predicate FilesFit(t: Table, gs: set<Id>) {
    forall i :: i in gs && i in t ==>
      && !NameTaken(t, t[i].name, t[i].parent, i)
      && forall j :: j in gs && j in t && j != i && t[j].parent == t[i].parent ==> t[j].name != t[i].name
  }

  lemma RestoredFileNames(t: Table, gs: set<Id>)
    requires Distinct(t)
    ensures Distinct(ReviveRows(t, gs, Uploaded)) <==> FilesFit(t, gs)
  {
    var u := ReviveRows(t, gs, Uploaded);
    if Distinct(u) {
      forall i | i in gs && i in t
        ensures !NameTaken(t, t[i].name, t[i].parent, i)
      {
        if NameTaken(t, t[i].name, t[i].parent, i) {
          var j :| j in t && j != i && t[j].Live() && t[j].name == t[i].name && t[j].parent == t[i].parent;
          assert u[j].Live() && u[i].Live();
        }
      }
      forall i, j | i in gs && i in t && j in gs && j in t && j != i && t[j].parent == t[i].parent
        ensures t[j].name != t[i].name
      {
        assert u[j].Live() && u[i].Live();
      }
    }
    if FilesFit(t, gs) {
      forall i, j | i in u && j in u && i != j && u[i].Live() && u[j].Live() && u[i].parent == u[j].parent
        ensures u[i].name != u[j].name
      {
        if i !in gs && j in gs {
          assert !NameTaken(t, t[j].name, t[j].parent, j);
        }
      }
    }
  }

  // The delivery gets to the files of its folder.
  ghost predicate ReachesFiles(s: State, id: Id) {
    && id in s.folders && s.folders[id].status == Restoring
    && !NameTaken(s.folders, s.folders[id].name, s.folders[id].parent, id)
  }

  ghost predicate FileNamesGuard(s: State, step: Step) {
    step.DeliverRestore? && ReachesFiles(s, step.id) ==> FilesFit(s.files, step.fileBatch)
  }

  predicate LeavesFiles(step: Step) {
    || step.DoCreateFolder? || step.DoUpdateFolder? || step.DoTrashFolder? || step.DoRestoreFolder?
    || step.DoPurgeFolder?
    || step.StoreObject? || step.MarkerExpires?
  }

  lemma FilesUntouched(c: Config, s: State, step: Step)
    requires LeavesFiles(step)
    ensures Apply(c, s, step).files == s.files
  {
  }

  // Live files of one folder have distinct names: with the schema every step keeps it, by the
  // checks of the code and, in FolderRestore and FolderPurge, by the index; without the schema every
  // step does but a FolderRestore whose files do not fit.
  lemma FileNamesKept(c: Config, s: State, step: Step)
    requires Distinct(s.files) && Enabled(c, s, step)
    ensures Distinct(Apply(c, s, step).files) <==> c.schema || FileNamesGuard(s, step)
  {
    hide Distinct, UploadFile, TrashFile, RestoreFile, PurgeFile, Trash, Restore, Purge, ObjectCreated, Notified,
      TrashPicks, RestorePicks, PurgePicks, Fresh, ReachesFiles, FilesFit;
    match step
    case DoUploadFile(id, name, parent) => FileCallNames(s, id, 0, 0, name, parent, true);
    case DoTrashFile(id, user, now, logOk) => FileCallNames(s, id, user, now, "", None, logOk);
    case DoRestoreFile(id, logOk) => RestoredFileName(s, id, logOk);
    case DoPurgeFile(id, logOk) => FileCallNames(s, id, 0, 0, "", None, logOk);
    case DeliverTrash(id, user, now, fs, gs) => TrashedFileNames(s, id, user, now, fs, gs);
    case DeliverRestore(id, user, fs, gs) => RestoreFileNames(c.schema, s, id, user, fs, gs);
    case DeliverPurge(id, user, fs, gs) => PurgeKeepsNames(c.schema, s, id, fs, gs);
    case NotifyCreated(id) => FileCallNames(s, id, 0, 0, "", None, true);
    case NotifyRemoved(notice, again) => NoticeFileNames(s, notice, again);
    case _ => FilesUntouched(c, s, step);
  }

  lemma FileCallNames(s: State, id: Id, user: Id, now: nat, name: string, parent: Option<Id>, logOk: bool)
    requires Distinct(s.files)
    ensures Distinct(UploadFile(s, id, name, parent).0.files)
    ensures Distinct(TrashFile(s, id, user, now, logOk).0.files)
    ensures Distinct(PurgeFile(s, id, logOk).0.files)
    ensures Distinct(ObjectCreated(s, id).files)
  {
    hide MarkerNotices, ObjectNotices;
  }

  lemma RestoredFileName(s: State, id: Id, logOk: bool)
    requires Distinct(s.files)
    ensures Distinct(RestoreFile(s, id, logOk).0.files)
  {
    hide WithParents, ParentConflict, TrashedAncestors, MarkerNotices;
  }

  lemma NoticeFileNames(s: State, notice: Notice, again: bool)
    requires Distinct(s.files)
    ensures Distinct(Notified(s, notice, again).files)
  {
  }

  lemma TrashedFileNames(s: State, id: Id, user: Id, now: nat, fs: set<Id>, gs: set<Id>)
    requires Distinct(s.files)
    ensures Distinct(Trash(s, id, user, now, fs, gs).0.files)
  {
    FewerLive(s.files, TrashRows(s.files, gs, user, now));
  }

  lemma RestoreFileNames(schema: bool, s: State, id: Id, user: Id, fs: set<Id>, gs: set<Id>)
    requires Distinct(s.files)
    ensures Distinct(Restore(schema, s, id, user, fs, gs).0.files)
            <==> schema || (ReachesFiles(s, id) ==> FilesFit(s.files, gs))
  {
    RestoredFileNames(s.files, gs);
    hide Distinct, FilesFit, ReviveRows, MarkRestoring, NameTaken, ChildrenLeft;
  }
}
