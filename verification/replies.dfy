// What the replies of the service calls mean.
module Replies {
  import opened Basics
  import opened Tables
  import opened Store
  import opened ParentFolders
  import opened BucketFolder
  import opened BucketFile
  import opened FolderTrashEvent
  import opened FolderRestoreEvent
  import opened FolderPurgeEvent
  import opened Protocol
  import opened Names

  // A folder call that is not accepted changes nothing.
  lemma RefusedFolderCalls(s: State, id: Id, user: Id, now: nat, retention: nat, name: string, parent: Option<Id>)
    ensures var r := CreateFolder(s, id, name, parent); r.1 == Accepted || r.0 == s
    ensures var r := UpdateFolder(s, id, name); r.1 == Accepted || r.0 == s
    ensures var r := TrashFolder(s, id, user, now); r.1 == Accepted || r.0 == s
    ensures var r := RestoreFolder(s, id, user, now, retention); r.1 == Accepted || r.0 == s
    ensures var r := PurgeFolder(s, id, user); r.1 == Accepted || r.0 == s
  {
  }

  // A file call that fails after it started leaves every row alone; one that is refused changes
  // nothing at all.
  lemma RefusedFileCalls(s: State, id: Id, user: Id, now: nat, name: string, parent: Option<Id>, logOk: bool)
    ensures RowsKept(s, UploadFile(s, id, name, parent)) && RowsKept(s, TrashFile(s, id, user, now, logOk))
    ensures RowsKept(s, RestoreFile(s, id, logOk)) && RowsKept(s, PurgeFile(s, id, logOk))
  {
    hide NameTaken, ParentConflict, WithParents, TrashedAncestors, MarkerNotices, ObjectNotices;
  }

  ghost predicate RowsKept(s: State, r: (State, Reply)) {
    && (r.1 != Accepted ==> r.0.folders == s.folders && r.0.files == s.files && r.0.queue == s.queue)
    && (r.1 != Accepted && r.1 != Failed ==> r.0 == s)
  }

  // ----- a folder on its way back

  ghost predicate ComingBack(t: Table, id: Id) {
    id in t && !t[id].Live() && t[id].status == Restoring
  }

  // While a folder is on its way back, no other trash or restore of it is accepted.
  lemma RefusedMeanwhile(s: State, id: Id, user: Id, now: nat, retention: nat)
    requires ComingBack(s.folders, id)
    ensures TrashFolder(s, id, user, now) == (s, Conflict)
            && RestoreFolder(s, id, user, now, retention) == (s, Conflict)
  {
  }

  // And it stays on its way over every step, until a delivery of its own message brings it to life or
  // a purge removes it: an accepted restore cannot be lost, overtaken or turned back.
  lemma OneAtATime(c: Config, s: State, step: Step, id: Id)
    requires ComingBack(s.folders, id) && Enabled(c, s, step)
    ensures var t := Apply(c, s, step).folders;
            || ComingBack(t, id)
            || (step.DeliverRestore? && step.id == id && id in t && t[id].Live() && t[id].status == Unset)
            || (step.DeliverPurge? && id !in t)
  {
    hide CreateFolder, UpdateFolder, TrashFolder, RestoreFolder, RestoreFile, Trash, Restore, Purge, Fresh,
      RestorePicks, PurgePicks, ComingBack;
    match step
    case DoCreateFolder(x, name, parent) => CreationLeaves(s, x, name, parent, id);
    case DoUpdateFolder(x, name) => CallsLeave(s, x, 0, 0, name, id);
    case DoTrashFolder(x, user, now) => CallsLeave(s, x, user, now, "", id);
    case DoRestoreFolder(x, user, now) => RestoresLeave(s, x, user, now, c.retention, true, id);
    case DoRestoreFile(x, logOk) => RestoresLeave(s, x, 0, 0, 0, logOk, id);
    case DeliverTrash(x, user, now, fs, gs) => TrashLeaves(c.limit, s, x, user, now, fs, gs, id);
    case DeliverRestore(x, user, fs, gs) => DeliveryLeaves(c.schema, s, x, user, fs, gs, id);
    case DeliverPurge(x, user, fs, gs) => PurgeLeaves(c.schema, s, x, fs, gs, id);
    case _ => FoldersUntouched(c, s, step);
  }

  lemma CreationLeaves(s: State, x: Id, name: string, parent: Option<Id>, id: Id)
    requires ComingBack(s.folders, id) && Fresh(s, x)
    ensures ComingBack(CreateFolder(s, x, name, parent).0.folders, id)
  {
  }

  lemma CallsLeave(s: State, x: Id, user: Id, now: nat, name: string, id: Id)
    requires ComingBack(s.folders, id)
    ensures ComingBack(UpdateFolder(s, x, name).0.folders, id) && ComingBack(TrashFolder(s, x, user, now).0.folders, id)
  {
    hide NameTaken;
  }

  lemma RestoresLeave(s: State, x: Id, user: Id, now: nat, retention: nat, logOk: bool, id: Id)
    requires ComingBack(s.folders, id)
    ensures ComingBack(RestoreFolder(s, x, user, now, retention).0.folders, id)
    ensures ComingBack(RestoreFile(s, x, logOk).0.folders, id)
  {
    hide NameTaken, ParentConflict, MarkerNotices, OnChain;
  }

  lemma TrashLeaves(limit: nat, s: State, x: Id, user: Id, now: nat, fs: set<Id>, gs: set<Id>, id: Id)
    requires ComingBack(s.folders, id) && TrashPicks(limit, s, x, fs, gs)
    ensures ComingBack(Trash(s, x, user, now, fs, gs).0.folders, id)
  {
  }

  lemma DeliveryLeaves(schema: bool, s: State, x: Id, user: Id, fs: set<Id>, gs: set<Id>, id: Id)
    requires ComingBack(s.folders, id)
    ensures var t := Restore(schema, s, x, user, fs, gs).0.folders;
            ComingBack(t, id) || (x == id && id in t && t[id].Live() && t[id].status == Unset)
  {
    hide NameTaken, Fits, MarkerNotices, ChildrenLeft;
  }

  lemma PurgeLeaves(schema: bool, s: State, x: Id, fs: set<Id>, gs: set<Id>, id: Id)
    requires ComingBack(s.folders, id)
    ensures var t := Purge(schema, s, x, fs, gs).0.folders; ComingBack(t, id) || id !in t
  {
    var gone := PurgedFolders(schema, s, x, fs, gs);
    hide Purge;
  }

  // A trashed folder comes back only within the retention period, and then only next to no live
  // namesake; an accepted call leaves no ancestor in the trash except those that are being restored.
  lemma RestoredInTime(s: State, id: Id, user: Id, now: nat, retention: nat)
    requires RestoreFolder(s, id, user, now, retention).1 == Accepted
    ensures var s' := RestoreFolder(s, id, user, now, retention).0;
            && id in s.folders && s.folders[id].deletedAt.Some? && now <= s.folders[id].deletedAt.value + retention
            && !NameTaken(s'.folders, s.folders[id].name, s.folders[id].parent, id)
            && forall a :: a in s.folders && OnChain(s.folders, s.folders[id].parent, a) ==>
                 s'.folders[a].Live() || s'.folders[a].status == Restoring
  {
    ParentsAreBack(s.folders, s.folders[id].parent);
    var s' := RestoreFolder(s, id, user, now, retention).0;
    var t := WithParents(s.folders, s.folders[id].parent);
    assert s'.folders == t[id := s.folders[id].(status := Restoring)];
  }

  // ----- names

  // The folder one is created or uploaded into.
  predicate LiveParent(s: State, parent: Option<Id>) {
    parent.Some? ==> parent.value in s.folders && s.folders[parent.value].Live()
  }

  // One live row more, or one changed.
  lemma FitsExactly(t: Table, id: Id, row: Row)
    requires Distinct(t) && row.Live()
    ensures Distinct(t[id := row]) <==> !NameTaken(t, row.name, row.parent, id)
  {
    var u := t[id := row];
    if NameTaken(t, row.name, row.parent, id) {
      var i :| i in t && i != id && t[i].Live() && t[i].name == row.name && t[i].parent == row.parent;
      assert i in u && u[i] == t[i] && u[id] == row;
    }
  }

  // CreateFolder below a live folder is accepted if and only if the new live row leaves sibling names
  // distinct, which is what the unique index demands; then that row is all that is new.
  lemma CreatedFolder(s: State, id: Id, name: string, parent: Option<Id>)
    requires Distinct(s.folders)
    ensures var t, r := s.folders[id := Row(name, parent, Unset, None, None)], CreateFolder(s, id, name, parent);
            && (r.1 == Accepted <==> LiveParent(s, parent) && Distinct(t))
            && (r.1 == NotFound <==> !LiveParent(s, parent))
            && r.0 == if r.1 == Accepted then s.(folders := t) else s
  {
    FitsExactly(s.folders, id, Row(name, parent, Unset, None, None));
  }

  // A rename of a live folder likewise.
  lemma RenamedFolder(s: State, id: Id, name: string)
    requires Distinct(s.folders)
    ensures var r := UpdateFolder(s, id, name);
            && (r.1 == NotFound <==> !(id in s.folders && s.folders[id].Live()))
            && (id in s.folders && s.folders[id].Live() ==>
                  var t := s.folders[id := s.folders[id].(name := name)];
                  (r.1 == Accepted <==> Distinct(t)) && r.0 == if r.1 == Accepted then s.(folders := t) else s)
  {
    if id in s.folders && s.folders[id].Live() {
      FitsExactly(s.folders, id, s.folders[id].(name := name));
    }
  }

  // UploadFile likewise, among the files of its folder.
  lemma UploadedFile(s: State, id: Id, name: string, parent: Option<Id>)
    requires Distinct(s.files)
    ensures var t, r := s.files[id := Row(name, parent, Uploading, None, None)], UploadFile(s, id, name, parent);
            && (r.1 == Accepted <==> LiveParent(s, parent) && Distinct(t))
            && (r.1 == NotFound <==> !LiveParent(s, parent))
            && r.0 == if r.1 == Accepted then s.(files := t) else s
  {
    FitsExactly(s.files, id, Row(name, parent, Uploading, None, None));
  }

  // ----- purging a file

  // Where a file has left a trace.
  ghost predicate Traces(s: State, id: Id) {
    id in s.files || id in s.objects || FileMarker(id) in s.markers
  }

  // An accepted purge leaves no trace of the file. One that the log refused leaves the row alone; if
  // there was an object, the report about it is pending then and removes the row when it is handled.
  lemma PurgedFile(s: State, id: Id, logOk: bool, again: bool)
    requires id in s.files && !s.files[id].Live()
    ensures var r := PurgeFile(s, id, logOk);
            && (logOk ==> r.1 == Accepted && !Traces(r.0, id))
            && (!logOk ==>
                  && r.1 == Failed && r.0.files == s.files
                  && (id in s.objects ==> ObjectRemoved(id) in r.0.notices)
                  && !Traces(Notified(r.0, ObjectRemoved(id), again), id))
            && forall other :: other != id ==> (Traces(r.0, other) <==> Traces(s, other))
  {
    hide MarkerNotices, ObjectNotices;
    var s1 := RemoveObjects(Unmark(s, {FileMarker(id)}), {id});
    if id in s.objects {
      RemovalReported(Unmark(s, {FileMarker(id)}), id);
    }
    assert s1.files == s.files && s1.objects == s.objects - {id} && s1.markers == s.markers - {FileMarker(id)};
    hide Unmark, RemoveObjects;
    assert PurgeFile(s, id, logOk).0 == if logOk then s1.(files := s1.files - {id}) else s1;
    assert Notified(s1, ObjectRemoved(id), again).files == s1.files - {id};
  }

  lemma RemovalReported(s: State, id: Id)
    requires id in s.objects
    ensures ObjectRemoved(id) in RemoveObjects(s, {id}).notices
  {
    assert {id} * s.objects == {id};
    var ns := set i | i in {id} :: ObjectRemoved(i);
    assert ObjectRemoved(id) in ns && ObjectRemoved(id) in multiset(ns);
  }
}
