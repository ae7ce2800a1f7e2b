// When a report about a trash marker destroys a file whose marker is still in place.
module StaleNotices {
  import opened Basics
  import opened Tables
  import opened Store
  import opened ParentFolders
  import opened BucketFolder
  import opened BucketFile
  import opened FolderTrashEvent
  import opened FolderRestoreEvent
  import opened FolderPurgeEvent
  import opened TrashExpirationEvent
  import opened Protocol

  // ----- no report about a marker of a folder is taken for one about a file

  ghost predicate KnowsFolder(s: State, id: Id) {
    FolderMarker(id) in s.markers || MarkerRemoved(FolderMarker(id)) in s.notices
  }

  // Files and folders have different ids, and no file has the id of a folder's marker.
  ghost predicate Apart(s: State) {
    forall i :: i in s.files ==> i !in s.folders && !KnowsFolder(s, i)
  }

  // No new file, and nothing new about folders but what concerns folders.
  ghost predicate NothingNew(s: State, s': State) {
    && s'.files.Keys <= s.files.Keys && s'.folders.Keys <= s.folders.Keys
    && forall i :: KnowsFolder(s', i) ==> KnowsFolder(s, i) || i in s.folders
  }

  lemma ApartKept(s: State, s': State)
    requires Apart(s) && NothingNew(s, s')
    ensures Apart(s')
  {
  }

  lemma NoticeIn(markers: set<Marker>, m: Marker)
    ensures MarkerRemoved(m) in MarkerNotices(markers) <==> m in markers
  {
    var ns := set x | x in markers :: MarkerRemoved(x);
    assert MarkerRemoved(m) in multiset(ns) <==> MarkerRemoved(m) in ns;
  }

  lemma NoObjectNotice(ids: set<Id>, m: Marker)
    ensures MarkerRemoved(m) !in ObjectNotices(ids)
  {
    var ns := set i | i in ids :: ObjectRemoved(i);
    assert MarkerRemoved(m) in multiset(ns) <==> MarkerRemoved(m) in ns;
  }

  // ----- a marker in place has no report about it pending

  ghost predicate NoStale(s: State) {
    forall i :: FileMarker(i) in s.markers ==> MarkerRemoved(FileMarker(i)) !in s.notices
  }

  // What happens to the markers of files between two states: these are put, the others stay or go
  // with a report, and at most this report is taken.
  ghost predicate OnlyPuts(s: State, s': State, put: set<Id>) {
    && (forall i :: FileMarker(i) in s'.markers ==> FileMarker(i) in s.markers || i in put)
    && (forall i :: i in put ==> FileMarker(i) in s'.markers)
    && (forall i :: MarkerRemoved(FileMarker(i)) in s'.notices && FileMarker(i) in s'.markers
                    ==> MarkerRemoved(FileMarker(i)) in s.notices)
    && (forall i :: i in put && MarkerRemoved(FileMarker(i)) in s.notices ==>
          MarkerRemoved(FileMarker(i)) in s'.notices)
  }

  lemma StaleExactly(s: State, s': State, put: set<Id>)
    requires NoStale(s) && OnlyPuts(s, s', put)
    ensures NoStale(s') <==> forall i :: i in put ==> MarkerRemoved(FileMarker(i)) !in s.notices
  {
  }

  ghost predicate PutsNothing(s: State, s': State) {
    OnlyPuts(s, s', {}) && NothingNew(s, s')
  }

  lemma UnmarkPutsNothing(s: State, markers: set<Marker>)
    ensures PutsNothing(s, Unmark(s, markers))
  {
    forall m
      ensures MarkerRemoved(m) in Unmark(s, markers).notices <==>
                MarkerRemoved(m) in s.notices || m in markers * s.markers
    {
      NoticeIn(markers * s.markers, m);
    }
  }

  lemma RemovalPutsNothing(s: State, ids: set<Id>)
    ensures PutsNothing(s, RemoveObjects(s, ids))
  {
    forall m
      ensures MarkerRemoved(m) in RemoveObjects(s, ids).notices <==> MarkerRemoved(m) in s.notices
    {
      NoObjectNotice(ids * s.objects, m);
    }
  }

  lemma TablesPutNothing(s: State, s': State)
    requires s'.markers == s.markers && s'.notices == s.notices
    requires s'.files.Keys <= s.files.Keys && s'.folders.Keys <= s.folders.Keys
    ensures PutsNothing(s, s')
  {
  }

  lemma NothingTogether(s: State, s1: State, s2: State)
    requires PutsNothing(s, s1) && PutsNothing(s1, s2)
    ensures PutsNothing(s, s2)
  {
  }

  // ----- steps

  // The files that get a marker in this step.
  ghost function MarksPut(s: State, step: Step): set<Id> {
    match step
    case DoTrashFile(id, _, _, _) =>
      if id in s.files && s.files[id].Live() && s.files[id].status == Uploaded && id in s.objects then {id} else {}
    case DeliverTrash(id, _, _, _, gs) =>
      if id in s.folders && !s.folders[id].Live() then gs * s.objects else {}
    case _ => {}
  }

  // A file is marked only while no report about an earlier marker of it is pending.
  ghost predicate StaleGuard(s: State, step: Step) {
    forall i :: i in MarksPut(s, step) ==> MarkerRemoved(FileMarker(i)) !in s.notices
  }

  lemma FolderCallsPut(s: State, id: Id, user: Id, now: nat, name: string)
    ensures PutsNothing(s, UpdateFolder(s, id, name).0) && PutsNothing(s, PurgeFolder(s, id, user).0)
    ensures PutsNothing(s, TrashFolder(s, id, user, now).0)
  {
    hide PutsNothing, NameTaken;
    TablesPutNothing(s, s);
    var s1 := UpdateFolder(s, id, name).0;
    assert s1.folders.Keys == s.folders.Keys;
    TablesPutNothing(s, s1);
    TablesPutNothing(s, PurgeFolder(s, id, user).0);
    if id in s.folders && s.folders[id].Live() {
      var s2 := s.(markers := s.markers + {FolderMarker(id)});
      FolderMarked(s, id);
      var s3 := TrashFolder(s, id, user, now).0;
      assert s3.folders.Keys == s.folders.Keys;
      if s3 != s {
        TablesPutNothing(s2, s3);
        NothingTogether(s, s2, s3);
      }
    }
  }

  lemma FolderMarked(s: State, id: Id)
    requires id in s.folders
    ensures PutsNothing(s, s.(markers := s.markers + {FolderMarker(id)}))
  {
  }

  lemma RestoreFolderPuts(s: State, id: Id, user: Id, now: nat, retention: nat)
    ensures PutsNothing(s, RestoreFolder(s, id, user, now, retention).0)
  {
    var s' := RestoreFolder(s, id, user, now, retention).0;
    if s' == s {
      TablesPutNothing(s, s);
    } else {
      var ms := FolderMarkers(TrashedAncestors(s.folders, s.folders[id].parent)) + {FolderMarker(id)};
      UnmarkPutsNothing(s, ms);
      SameKeys(s.folders, s.folders[id].parent);
      hide WithParents, ParentConflict, TrashedAncestors, NameTaken, MarkerNotices, PutsNothing;
      TablesPutNothing(Unmark(s, ms), s');
      NothingTogether(s, Unmark(s, ms), s');
    }
  }

  lemma RestoreFilePuts(s: State, id: Id, logOk: bool)
    ensures PutsNothing(s, RestoreFile(s, id, logOk).0)
  {
    var s' := RestoreFile(s, id, logOk).0;
    if s' == s {
      TablesPutNothing(s, s);
    } else {
      var ms := FolderMarkers(TrashedAncestors(s.folders, s.files[id].parent)) + {FileMarker(id)};
      UnmarkPutsNothing(s, ms);
      SameKeys(s.folders, s.files[id].parent);
      hide WithParents, ParentConflict, TrashedAncestors, NameTaken, MarkerNotices, PutsNothing;
      TablesPutNothing(Unmark(s, ms), s');
      NothingTogether(s, Unmark(s, ms), s');
    }
  }

  lemma SameKeys(t: Table, start: Option<Id>)
    ensures WithParents(t, start).Keys == t.Keys
  {
  }

  lemma TrashFilePuts(s: State, id: Id, user: Id, now: nat, logOk: bool)
    ensures var s' := TrashFile(s, id, user, now, logOk).0;
            OnlyPuts(s, s', MarksPut(s, DoTrashFile(id, user, now, logOk))) && NothingNew(s, s')
  {
  }

  lemma PurgeFilePuts(s: State, id: Id, logOk: bool)
    ensures PutsNothing(s, PurgeFile(s, id, logOk).0) && PutsNothing(s, ObjectCreated(s, id))
  {
    TablesPutNothing(s, s);
    TablesPutNothing(s, ObjectCreated(s, id));
    var s1 := Unmark(s, {FileMarker(id)});
    var s2 := RemoveObjects(s1, {id});
    UnmarkPutsNothing(s, {FileMarker(id)});
    RemovalPutsNothing(s1, {id});
    NothingTogether(s, s1, s2);
    assert s2.files == s.files && s2.folders == s.folders;
    hide PutsNothing, MarkerNotices, ObjectNotices;
    TablesPutNothing(s2, s2.(files := s2.files - {id}));
    NothingTogether(s, s2, s2.(files := s2.files - {id}));
  }

  lemma TrashPuts(limit: nat, s: State, id: Id, user: Id, now: nat, fs: set<Id>, gs: set<Id>)
    requires TrashPicks(limit, s, id, fs, gs)
    ensures var s' := Trash(s, id, user, now, fs, gs).0;
            OnlyPuts(s, s', MarksPut(s, DeliverTrash(id, user, now, fs, gs))) && NothingNew(s, s')
  {
  }

  lemma RestorePuts(schema: bool, s: State, id: Id, user: Id, fs: set<Id>, gs: set<Id>)
    ensures PutsNothing(s, Restore(schema, s, id, user, fs, gs).0)
  {
    hide PutsNothing, Fits, NameTaken, ChildrenLeft, MarkerNotices, MarkRestoring, ReviveRows;
    var p := ProcessChildren(schema, s, id, user, fs, gs);
    TablesPutNothing(s, s);
    SameRows(s.folders, s.files, fs, gs);
    if p.Some? && s.folders[id].status == Restoring {
      var mid := s.(folders := MarkRestoring(s.folders, fs), files := ReviveRows(s.files, gs, Uploaded),
                    queue := s.queue + RestoreEvents(fs, user));
      TablesPutNothing(s, mid);
      UnmarkPutsNothing(mid, FileMarkers(gs));
      NothingTogether(s, mid, p.value);
      var last := p.value.(folders := p.value.folders[id := p.value.folders[id].Revive(Unset)]);
      assert last.folders.Keys == p.value.folders.Keys;
      TablesPutNothing(p.value, last);
      NothingTogether(s, p.value, last);
      UnmarkPutsNothing(last, {FolderMarker(id)});
      NothingTogether(s, last, Unmark(last, {FolderMarker(id)}));
    }
  }

  lemma SameRows(t: Table, g: Table, fs: set<Id>, gs: set<Id>)
    ensures MarkRestoring(t, fs).Keys == t.Keys && ReviveRows(g, gs, Uploaded).Keys == g.Keys
  {
  }

  lemma FewerRows(s: State, gone: set<Id>, schema: bool)
    ensures var s' := DropFolders(s, gone, schema);
            s'.folders.Keys <= s.folders.Keys && s'.files.Keys == s.files.Keys
  {
  }

  lemma PurgePuts(schema: bool, s: State, id: Id, fs: set<Id>, gs: set<Id>)
    ensures PutsNothing(s, Purge(schema, s, id, fs, gs).0)
  {
    hide PutsNothing, MayDrop, Unlink, MarkerNotices, ObjectNotices, TrashedChildren;
    TablesPutNothing(s, s);
    FewerRows(s, fs, schema);
    var s1 := DropFolders(s, fs, schema);
    var s2 := s1.(files := s1.files - gs);
    TablesPutNothing(s, s2);
    var s3 := RemoveObjects(s2, gs);
    RemovalPutsNothing(s2, gs);
    NothingTogether(s, s2, s3);
    var s4 := Unmark(s3, {FolderMarker(id)});
    UnmarkPutsNothing(s3, {FolderMarker(id)});
    NothingTogether(s, s3, s4);
    FewerRows(s4, {id}, schema);
    var s5 := DropFolders(s4, {id}, schema);
    TablesPutNothing(s4, s5);
    NothingTogether(s, s4, s5);
    PurgeIsOneOf(schema, s, id, fs, gs);
  }

  lemma NoticePuts(s: State, notice: Notice, again: bool)
    ensures PutsNothing(s, Notified(s, notice, again))
  {
    hide PutsNothing, ObjectNotices;
    var id := IdOf(notice);
    TablesPutNothing(s, s);
    RemovalPutsNothing(s, {id});
    var s1 := Expire(s, notice);
    if id in s.files && !s.files[id].Live() {
      var s' := if notice.MarkerRemoved? then RemoveObjects(s, {id}) else s;
      TablesPutNothing(s', s1);
      NothingTogether(s, s', s1);
    }
    ReportTaken(s1, notice);
    NothingTogether(s, s1, s1.(notices := s1.notices - multiset{notice}));
  }

  lemma ReportTaken(s: State, notice: Notice)
    ensures PutsNothing(s, s.(notices := s.notices - multiset{notice}))
  {
  }

  lemma AckPuts(s: State, e: Event, result: (State, bool), put: set<Id>)
    requires OnlyPuts(s, result.0, put) && NothingNew(s, result.0)
    ensures OnlyPuts(s, Handle(e, result), put) && NothingNew(s, Handle(e, result))
  {
  }

  predicate Creates(step: Step) {
    step.DoCreateFolder? || step.DoUploadFile?
  }

  lemma StepPuts(c: Config, s: State, step: Step)
    requires Enabled(c, s, step)
    ensures OnlyPuts(s, Apply(c, s, step), MarksPut(s, step))
    ensures !Creates(step) ==> NothingNew(s, Apply(c, s, step))
  {
    hide OnlyPuts, NothingNew, Handle, UpdateFolder, TrashFolder, RestoreFolder, PurgeFolder, TrashFile, RestoreFile,
      PurgeFile, ObjectCreated, Trash, Restore, Purge, Notified, Unmark, RestorePicks, PurgePicks, Fresh;
    match step
    case DoCreateFolder(id, name, parent) => CreationPuts(s, id, name, parent);
    case DoUpdateFolder(id, name) => FolderCallsPut(s, id, 0, 0, name);
    case DoTrashFolder(id, user, now) => FolderCallsPut(s, id, user, now, "");
    case DoRestoreFolder(id, user, now) => RestoreFolderPuts(s, id, user, now, c.retention);
    case DoPurgeFolder(id, user) => FolderCallsPut(s, id, user, 0, "");
    case DoUploadFile(id, name, parent) => CreationPuts(s, id, name, parent);
    case DoTrashFile(id, user, now, logOk) => TrashFilePuts(s, id, user, now, logOk);
    case DoRestoreFile(id, logOk) => RestoreFilePuts(s, id, logOk);
    case DoPurgeFile(id, logOk) => PurgeFilePuts(s, id, logOk);
    case DeliverTrash(id, user, now, fs, gs) =>
      TrashPuts(c.limit, s, id, user, now, fs, gs);
      AckPuts(s, FolderTrash(id, user), Trash(s, id, user, now, fs, gs), MarksPut(s, step));
    case DeliverRestore(id, user, fs, gs) =>
      RestorePuts(c.schema, s, id, user, fs, gs);
      AckPuts(s, FolderRestore(id, user), Restore(c.schema, s, id, user, fs, gs), {});
    case DeliverPurge(id, user, fs, gs) =>
      PurgePuts(c.schema, s, id, fs, gs);
      AckPuts(s, FolderPurge(id, user), Purge(c.schema, s, id, fs, gs), {});
    case StoreObject(id) => TablesPutNothing(s, PutObject(s, id));
    case NotifyCreated(id) => PurgeFilePuts(s, id, true);
    case MarkerExpires(marker) => UnmarkPutsNothing(s, {marker});
    case NotifyRemoved(notice, again) => NoticePuts(s, notice, again);
  }

  lemma CreationPuts(s: State, id: Id, name: string, parent: Option<Id>)
    ensures OnlyPuts(s, CreateFolder(s, id, name, parent).0, {}) && OnlyPuts(s, UploadFile(s, id, name, parent).0, {})
  {
  }

  // Reports about folders never concern a file.
  lemma ApartStep(c: Config, s: State, step: Step)
    requires Apart(s) && Enabled(c, s, step)
    ensures Apart(Apply(c, s, step))
  {
    if Creates(step) {
      NewIsApart(c, s, step);
    } else {
      StepPuts(c, s, step);
      hide Apply, Enabled, NothingNew, Apart;
      ApartKept(s, Apply(c, s, step));
    }
  }

  lemma NewIsApart(c: Config, s: State, step: Step)
    requires Apart(s) && Creates(step) && Enabled(c, s, step)
    ensures Apart(Apply(c, s, step))
  {
    assert forall i :: KnowsFolder(Apply(c, s, step), i) <==> KnowsFolder(s, i);
  }

  // Every marker of a file is in place before any report about it: a step keeps that if and only if
  // it marks no file about which one is pending.
  lemma NoStaleKept(c: Config, s: State, step: Step)
    requires NoStale(s) && Enabled(c, s, step)
    ensures NoStale(Apply(c, s, step)) <==> StaleGuard(s, step)
  {
    StepPuts(c, s, step);
    hide Apply, Enabled, OnlyPuts, NoStale, MarksPut;
    StaleExactly(s, Apply(c, s, step), MarksPut(s, step));
  }

  // ----- early loss

  // The file is gone although its marker is still in place.
  ghost predicate LostEarly(s: State, s': State, i: Id) {
    i in s.files && i !in s'.files && FileMarker(i) in s'.markers
  }

  // A report about a marker destroys a file whose marker is in place if and only if the file is in
  // the trash and a newer marker of it has been put.
  lemma EarlyLossExactly(c: Config, s: State, m: Marker, again: bool, i: Id)
    requires Apart(s) && Enabled(c, s, NotifyRemoved(MarkerRemoved(m), again))
    ensures LostEarly(s, Apply(c, s, NotifyRemoved(MarkerRemoved(m), again)), i)
            <==> m == FileMarker(i) && i in s.files && !s.files[i].Live() && FileMarker(i) in s.markers
    ensures LostEarly(s, Apply(c, s, NotifyRemoved(MarkerRemoved(m), again)), i) ==>
              i !in Apply(c, s, NotifyRemoved(MarkerRemoved(m), again)).objects
  {
    assert forall j :: j in s.files ==> MarkerRemoved(FolderMarker(j)) !in s.notices by {
      assert forall j :: MarkerRemoved(FolderMarker(j)) in s.notices ==> KnowsFolder(s, j);
    }
    assert Notified(s, MarkerRemoved(m), again).markers == s.markers;
  }

  // No report about a marker does that in this step.
  ghost predicate NoEarlyLoss(s: State, step: Step) {
    step.NotifyRemoved? && step.notice.MarkerRemoved? ==>
      forall i :: !LostEarly(s, Notified(s, step.notice, step.again), i)
  }

  lemma NoStaleNoLoss(c: Config, s: State, step: Step)
    requires Apart(s) && NoStale(s) && Enabled(c, s, step)
    ensures NoEarlyLoss(s, step)
  {
    if step.NotifyRemoved? && step.notice.MarkerRemoved? {
      assert Apply(c, s, step) == Notified(s, step.notice, step.again);
      forall i
        ensures !LostEarly(s, Notified(s, step.notice, step.again), i)
      {
        EarlyLossExactly(c, s, step.notice.marker, step.again, i);
      }
    }
  }

  // A pending report about a marker that has been put again can destroy the file at any moment that
  // the file is in the trash.
  lemma StaleIsFatal(c: Config, s: State, i: Id) returns (step: Step)
    requires Apart(s) && i in s.files && !s.files[i].Live()
    requires FileMarker(i) in s.markers && MarkerRemoved(FileMarker(i)) in s.notices
    ensures Enabled(c, s, step) && !NoEarlyLoss(s, step)
  {
    step := NotifyRemoved(MarkerRemoved(FileMarker(i)), false);
    EarlyLossExactly(c, s, FileMarker(i), false, i);
    assert Apply(c, s, step) == Notified(s, step.notice, step.again);
  }
}
