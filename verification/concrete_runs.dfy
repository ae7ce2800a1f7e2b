// Concrete runs of a new bucket. Most end where a reader of the code might think they cannot, and
// show that the guards and premises of the theorems are needed; the last one meets those of the round
// trip.
module ConcreteRuns {
  import opened Basics
  import opened Tables
  import opened Store
  import opened ParentFolders
  import opened BucketFolder
  import opened BucketFile
  import opened Protocol
  import opened DataSafety
  import opened TrashCover
  import opened TrashRun
  import opened RestoreRun
  import opened PurgeRun
  import opened StaleNotices
  import opened BottomUp
  import opened RoundTrip
  import opened Invariants

  // `s` is reached by a run of a new bucket.
  ghost predicate Reachable(c: Config, s: State) {
    exists steps :: Run(c, EMPTY, steps) && After(c, EMPTY, steps) == s
  }

  lemma StartsEmpty(c: Config)
    ensures Reachable(c, EMPTY)
  {
    assert Run(c, EMPTY, []) && After(c, EMPTY, []) == EMPTY;
  }

  lemma Extend(c: Config, s: State, step: Step)
    requires Reachable(c, s) && Enabled(c, s, step)
    ensures Reachable(c, Apply(c, s, step))
  {
    hide Enabled, Apply;
    var steps :| Run(c, EMPTY, steps) && After(c, EMPTY, steps) == s;
    RunOneMore(c, EMPTY, steps, step);
  }

  function LiveFolder(name: string, parent: Option<Id>): Row {
    Row(name, parent, Unset, None, None)
  }

  function TrashedRow(name: string, parent: Option<Id>): Row {
    Row(name, parent, Deleted, Some(9), Some(0))
  }

  lemma CreateStep(c: Config, s: State, id: Id, name: string, parent: Option<Id>)
    requires Reachable(c, s) && Fresh(s, id)
    requires parent.Some? ==> parent.value in s.folders && s.folders[parent.value].Live()
    requires !NameTaken(s.folders, name, parent, id)
    ensures Reachable(c, s.(folders := s.folders[id := LiveFolder(name, parent)]))
  {
    Extend(c, s, DoCreateFolder(id, name, parent));
  }

  lemma TrashStep(c: Config, s: State, id: Id)
    requires Reachable(c, s) && id in s.folders && s.folders[id] == LiveFolder(s.folders[id].name, s.folders[id].parent)
    ensures Reachable(c, s.(folders := s.folders[id := TrashedRow(s.folders[id].name, s.folders[id].parent)],
                            markers := s.markers + {FolderMarker(id)},
                            queue := s.queue + multiset{FolderTrash(id, 9)}))
  {
    Extend(c, s, DoTrashFolder(id, 9, 0));
  }

  // A FolderTrash that takes all that is live in its folder.
  lemma TrashAllStep(c: Config, s: State, id: Id, fs: set<Id>, gs: set<Id>)
    requires Reachable(c, s) && FolderTrash(id, 9) in s.queue && id in s.folders && !s.folders[id].Live()
    requires LiveChildren(s.folders, id) == fs && LiveChildren(s.files, id) == gs && |fs| <= c.limit && |gs| <= c.limit
    ensures Reachable(c, s.(folders := TrashRows(s.folders, fs, 9, 0), files := TrashRows(s.files, gs, 9, 0),
                            markers := s.markers + FolderMarkers(fs) + FileMarkers(gs * s.objects),
                            queue := s.queue + TrashEvents(fs, 9) - multiset{FolderTrash(id, 9)}))
  {
    var step := DeliverTrash(id, 9, 0, fs, gs);
    DeliveryMoves(c, s, step);
    hide Reachable, Run, After, Apply, Moved;
    Extend(c, s, step);
    TrashAcked(s, Apply(c, s, step), step);
  }

  lemma TrashAcked(s: State, s': State, e: Step)
    requires e.DeliverTrash? && Moved(s, s', e)
    requires LiveChildren(s.folders, e.id) == e.folderBatch && LiveChildren(s.files, e.id) == e.fileBatch
    ensures s' == s.(folders := TrashRows(s.folders, e.folderBatch, e.user, e.now),
                     files := TrashRows(s.files, e.fileBatch, e.user, e.now),
                     markers := s.markers + FolderMarkers(e.folderBatch) + FileMarkers(e.fileBatch * s.objects),
                     queue := s.queue + TrashEvents(e.folderBatch, e.user) - multiset{FolderTrash(e.id, e.user)})
  {
    hide TrashRows, LiveChildren, ChildrenGone, FileMarkers, FolderMarkers, TrashEvents;
    ChildrenAfter(s.folders, e.folderBatch, e.user, e.now, e.id);
    ChildrenAfter(s.files, e.fileBatch, e.user, e.now, e.id);
    assert ChildrenGone(s', e.id) by {
      NoChildren(s', e.id);
    }
  }

  // One in a folder without live folders.
  lemma TrashAckStep(c: Config, s: State, id: Id, gs: set<Id>)
    requires Reachable(c, s) && FolderTrash(id, 9) in s.queue && id in s.folders && !s.folders[id].Live()
    requires LiveChildren(s.folders, id) == {} && LiveChildren(s.files, id) == gs && |gs| <= c.limit
    ensures Reachable(c, s.(files := TrashRows(s.files, gs, 9, 0), markers := s.markers + FileMarkers(gs * s.objects),
                            queue := s.queue - multiset{FolderTrash(id, 9)}))
  {
    hide Reachable, TrashRows, LiveChildren, FileMarkers, FolderMarkers, TrashEvents;
    TrashAllStep(c, s, id, {}, gs);
    TrashNothing(s.folders, 9, 0);
    assert s.markers + {} == s.markers && s.queue + multiset{} == s.queue;
  }

  lemma TrashNothing(t: Table, user: Id, now: nat)
    ensures TrashRows(t, {}, user, now) == t
    ensures TrashEvents({}, user) == multiset{} && FolderMarkers({}) == {}
  {
  }

  lemma NoChildren(s: State, x: Id)
    requires LiveChildren(s.folders, x) == {} && LiveChildren(s.files, x) == {}
    ensures ChildrenGone(s, x)
  {
  }

  lemma TopLevelChain(t: Table, start: Option<Id>, a: Id)
    requires OnChain(t, start, a)
    requires start.Some? && start.value in t ==> t[start.value].parent == None
    ensures start == Some(a)
  {
    var n: nat :| Climb(t, start, n) == Some(a);
    ChainBelowTop(t, start, n);
  }

  lemma ChainBelowTop(t: Table, start: Option<Id>, n: nat)
    requires start.Some? && start.value in t ==> t[start.value].parent == None
    ensures Climb(t, start, n) == if n == 0 then Climb(t, start, 0) else None
  {
  }

  // RestoreFolder below live folders.
  lemma RestoreStep(c: Config, s: State, id: Id)
    requires Reachable(c, s) && id in s.folders && s.folders[id] == TrashedRow(s.folders[id].name, s.folders[id].parent)
    requires s.folders[id].parent.Some? ==>
               var p := s.folders[id].parent.value;
               p in s.folders && s.folders[p] == LiveFolder(s.folders[p].name, None)
    requires !NameTaken(s.folders, s.folders[id].name, s.folders[id].parent, id)
    ensures Reachable(c, Unmark(s, {FolderMarker(id)}).(folders := s.folders[id := s.folders[id].(status := Restoring)],
                                                        queue := s.queue + multiset{FolderRestore(id, 9)}))
    ensures Enabled(c, s, DoRestoreFolder(id, 9, 0)) && RestoreFolder(s, id, 9, 0, c.retention).1 == Accepted
    ensures Apply(c, s, DoRestoreFolder(id, 9, 0))
            == Unmark(s, {FolderMarker(id)}).(folders := s.folders[id := s.folders[id].(status := Restoring)],
                                              queue := s.queue + multiset{FolderRestore(id, 9)})
  {
    var parent := s.folders[id].parent;
    forall a: Id | OnChain(s.folders, parent, a)
      ensures parent == Some(a)
    {
      TopLevelChain(s.folders, parent, a);
    }
    assert TrashedAncestors(s.folders, parent) == {};
    assert WithParents(s.folders, parent) == s.folders;
    assert FolderMarkers({}) + {FolderMarker(id)} == {FolderMarker(id)};
    hide MarkerNotices;
    Extend(c, s, DoRestoreFolder(id, 9, 0));
  }

  // A FolderRestore that takes all that is left in its folder: these files and no folder.
  lemma RestoreAckStep(c: Config, s: State, id: Id, gs: set<Id>)
    requires Reachable(c, s) && FolderRestore(id, 9) in s.queue && id in s.folders && s.folders[id].status == Restoring
    requires !NameTaken(s.folders, s.folders[id].name, s.folders[id].parent, id)
    requires RecoverableChildren(s.folders, id) == {} && RecoverableChildren(s.files, id) == gs && |gs| <= c.limit
    requires RestoringChildren(s.folders, id) == {} && Fits(c.schema, ReviveRows(s.files, gs, Uploaded))
    requires s.markers !! FileMarkers(gs) && FolderMarker(id) !in s.markers
    ensures Enabled(c, s, DeliverRestore(id, 9, {}, gs)) && Reachable(c, Apply(c, s, DeliverRestore(id, 9, {}, gs)))
    ensures Apply(c, s, DeliverRestore(id, 9, {}, gs))
            == s.(folders := s.folders[id := s.folders[id].Revive(Unset)], files := ReviveRows(s.files, gs, Uploaded),
                  queue := s.queue - multiset{FolderRestore(id, 9)})
  {
    var step := DeliverRestore(id, 9, {}, gs);
    TwoOutcomes(c, s, step);
    hide Reachable, Run, After, Apply, Unmark;
    Extend(c, s, step);
    NothingLeft(c, s, id, gs);
    hide StillLeft, Advanced, Settled, ReviveRows, RecoverableChildren, RestoringChildren, NameTaken, Fits, FileMarkers;
    var s2 := s.(folders := s.folders[id := s.folders[id].Revive(Unset)], files := ReviveRows(s.files, gs, Uploaded),
                 queue := s.queue - multiset{FolderRestore(id, 9)});
    UnmarkedBefore(s2, FileMarkers(gs));
    UnmarkedBefore(s2, {FolderMarker(id)});
  }

  lemma NothingLeft(c: Config, s: State, id: Id, gs: set<Id>)
    requires id in s.folders && s.folders[id].status == Restoring
    requires !NameTaken(s.folders, s.folders[id].name, s.folders[id].parent, id)
    requires RecoverableChildren(s.folders, id) == {} && RecoverableChildren(s.files, id) == gs
    requires RestoringChildren(s.folders, id) == {} && Fits(c.schema, ReviveRows(s.files, gs, Uploaded))
    ensures !StillLeft(c, s, DeliverRestore(id, 9, {}, gs))
  {
    hide NameTaken, Fits, Unmark;
    MarkNone(s.folders);
    var s1 := s.(folders := MarkRestoring(s.folders, {}), files := ReviveRows(s.files, gs, Uploaded),
                 queue := s.queue + RestoreEvents({}, 9));
    UnmarkRows(s1, FileMarkers(gs));
    assert RecoverableChildren(s1.files, id) == {};
  }

  lemma UnmarkedBefore(s: State, markers: set<Marker>)
    requires s.markers !! markers
    ensures Unmark(s, markers) == s
  {
    assert markers * s.markers == {} && MarkerNotices({}) == multiset{};
  }

  lemma UnmarkOne(s: State, m: Marker)
    requires m in s.markers
    ensures Unmark(s, {m}) == s.(markers := s.markers - {m}, notices := s.notices + multiset{MarkerRemoved(m)})
  {
    assert {m} * s.markers == {m};
    assert (set x | x in {m} :: MarkerRemoved(x)) == {MarkerRemoved(m)};
  }

  function OnItsWayBack(name: string, parent: Option<Id>): Row {
    TrashedRow(name, parent).(status := Restoring)
  }

  const SUBFOLDER_TRASHED := State(map[1 := LiveFolder("a", None), 2 := TrashedRow("b", Some(1))], map[], {},
                                   {FolderMarker(2)}, multiset{FolderTrash(2, 9)}, multiset{})

  lemma SubfolderTrashed(c: Config)
    ensures Reachable(c, SUBFOLDER_TRASHED)
  {
    hide Reachable, Run, After, Apply, Enabled;
    StartsEmpty(c);
    CreateStep(c, EMPTY, 1, "a", None);
    var s := EMPTY.(folders := map[1 := LiveFolder("a", None)]);
    CreateStep(c, s, 2, "b", Some(1));
    s := s.(folders := map[1 := LiveFolder("a", None), 2 := LiveFolder("b", Some(1))]);
    TrashStep(c, s, 2);
    assert SUBFOLDER_TRASHED == s.(folders := s.folders[2 := TrashedRow("b", Some(1))],
                                   markers := s.markers + {FolderMarker(2)},
                                   queue := s.queue + multiset{FolderTrash(2, 9)});
  }

  const SUBFOLDER_ON_ITS_WAY := State(map[1 := LiveFolder("a", None), 2 := OnItsWayBack("b", Some(1))], map[], {}, {},
                                      multiset{FolderRestore(2, 9)}, multiset{MarkerRemoved(FolderMarker(2))})

  lemma SubfolderOnItsWay(c: Config)
    ensures Reachable(c, SUBFOLDER_ON_ITS_WAY)
  {
    hide Reachable, Run, After, Apply, Enabled;
    SubfolderTrashed(c);
    TrashAckStep(c, SUBFOLDER_TRASHED, 2, {});
    NoFilesTouched(SUBFOLDER_TRASHED);
    var s := SUBFOLDER_TRASHED.(queue := multiset{});
    assert s == SUBFOLDER_TRASHED.(files := TrashRows(SUBFOLDER_TRASHED.files, {}, 9, 0),
                                   markers := SUBFOLDER_TRASHED.markers + FileMarkers({} * SUBFOLDER_TRASHED.objects),
                                   queue := SUBFOLDER_TRASHED.queue - multiset{FolderTrash(2, 9)});
    RestoreStep(c, s, 2);
    UnmarkOne(s, FolderMarker(2));
    hide Unmark;
    assert SUBFOLDER_ON_ITS_WAY == Unmark(s, {FolderMarker(2)}).(folders := s.folders[2 := OnItsWayBack("b", Some(1))],
                                                                queue := s.queue + multiset{FolderRestore(2, 9)});
  }

  lemma NoFilesTouched(s: State)
    ensures TrashRows(s.files, {}, 9, 0) == s.files && ReviveRows(s.files, {}, Uploaded) == s.files
    ensures s.markers + FileMarkers({} * s.objects) == s.markers && s.markers - FileMarkers({}) == s.markers
  {
  }

  const LIVE_IN_TRASH := State(map[1 := TrashedRow("a", None), 2 := LiveFolder("b", Some(1))], map[], {},
                               {FolderMarker(1)}, multiset{}, multiset{MarkerRemoved(FolderMarker(2))})

  lemma LiveInTrash(c: Config)
    ensures Reachable(c, LIVE_IN_TRASH)
  {
    hide Reachable, Run, After, Apply, Enabled;
    SubfolderOnItsWay(c);
    var s := SUBFOLDER_ON_ITS_WAY;
    TrashStep(c, s, 1);
    s := State(map[1 := TrashedRow("a", None), 2 := OnItsWayBack("b", Some(1))], map[], {}, {FolderMarker(1)},
               multiset{FolderRestore(2, 9), FolderTrash(1, 9)}, SUBFOLDER_ON_ITS_WAY.notices);
    assert s == SUBFOLDER_ON_ITS_WAY.(folders := SUBFOLDER_ON_ITS_WAY.folders[1 := TrashedRow("a", None)],
                                      markers := {} + {FolderMarker(1)},
                                      queue := multiset{FolderRestore(2, 9)} + multiset{FolderTrash(1, 9)});
    TrashAckStep(c, s, 1, {});
    NoFilesTouched(s);
    assert s.queue - multiset{FolderTrash(1, 9)} == multiset{FolderRestore(2, 9)};
    s := s.(queue := multiset{FolderRestore(2, 9)});
    RestoreAckStep(c, s, 2, {});
    NoFilesTouched(s);
    assert LIVE_IN_TRASH == s.(folders := s.folders[2 := LiveFolder("b", Some(1))],
                               queue := s.queue - multiset{FolderRestore(2, 9)});
  }

  // Trash a folder while one of its subfolders is on its way back: the subfolder comes to life in
  // the trashed folder, and no message is left that would put it back.
  lemma LiveFolderInTrash(c: Config) returns (s: State)
    ensures Reachable(c, s) && s.queue == multiset{} && !Covered(s)
    ensures 1 in s.folders && !s.folders[1].Live() && 2 in s.folders && s.folders[2].Live()
            && s.folders[2].parent == Some(1)
  {
    hide Reachable, Covered;
    LiveInTrash(c);
    s := LIVE_IN_TRASH;
    NotCovered(s);
  }

  lemma NotCovered(s: State)
    requires 1 in s.folders && Discarded(s.folders[1]) && s.queue == multiset{}
    requires 2 in s.folders && s.folders[2].Live() && s.folders[2].parent == Some(1)
    ensures !Covered(s)
  {
    assert HasLiveChild(s, 1) && !CoveredAt(s, 1);
  }

  // ----- files

  function StoredFile(name: string, parent: Option<Id>): Row {
    Row(name, parent, Uploaded, None, None)
  }

  // UploadFile, the client's upload, and the storage's notice of it.
  lemma UploadSteps(c: Config, s: State, id: Id, name: string, parent: Option<Id>)
    requires Reachable(c, s) && Fresh(s, id)
    requires parent.Some? ==> parent.value in s.folders && s.folders[parent.value].Live()
    requires !NameTaken(s.files, name, parent, id)
    ensures Reachable(c, s.(files := s.files[id := StoredFile(name, parent)], objects := s.objects + {id}))
  {
    hide Reachable, Run, After, Fresh, NameTaken, Enabled, Apply;
    UploadStep(c, s, id, name, parent);
    var s1 := s.(files := s.files[id := Row(name, parent, Uploading, None, None)]);
    StorageSteps(c, s1, id);
    Extend(c, s1, StoreObject(id));
    var s2 := s1.(objects := s1.objects + {id});
    StorageSteps(c, s2, id);
    Extend(c, s2, NotifyCreated(id));
    assert ObjectCreated(s2, id) == s.(files := s.files[id := StoredFile(name, parent)], objects := s.objects + {id});
  }

  lemma StorageSteps(c: Config, s: State, id: Id)
    ensures Enabled(c, s, StoreObject(id)) && Apply(c, s, StoreObject(id)) == PutObject(s, id)
    ensures Enabled(c, s, NotifyCreated(id)) && Apply(c, s, NotifyCreated(id)) == ObjectCreated(s, id)
  {
  }

  lemma UploadStep(c: Config, s: State, id: Id, name: string, parent: Option<Id>)
    requires Reachable(c, s) && Fresh(s, id)
    requires parent.Some? ==> parent.value in s.folders && s.folders[parent.value].Live()
    requires !NameTaken(s.files, name, parent, id)
    ensures Reachable(c, s.(files := s.files[id := Row(name, parent, Uploading, None, None)]))
  {
    Extend(c, s, DoUploadFile(id, name, parent));
  }

  lemma TrashFileStep(c: Config, s: State, id: Id)
    requires Reachable(c, s) && id in s.files && id in s.objects
    requires s.files[id] == StoredFile(s.files[id].name, s.files[id].parent)
    ensures Reachable(c, s.(files := s.files[id := TrashedRow(s.files[id].name, s.files[id].parent)],
                            markers := s.markers + {FileMarker(id)}))
  {
    Extend(c, s, DoTrashFile(id, 9, 0, true));
  }

  const TRASHED_FILE := State(map[], map[2 := TrashedRow("a", None)], {2}, {FileMarker(2)}, multiset{}, multiset{})

  lemma TrashedFile(c: Config)
    ensures Reachable(c, TRASHED_FILE)
  {
    hide Reachable, Run, After, Apply, Enabled;
    StartsEmpty(c);
    UploadSteps(c, EMPTY, 2, "a", None);
    var s := EMPTY.(files := map[2 := StoredFile("a", None)], objects := {2});
    assert s == EMPTY.(files := map[][2 := StoredFile("a", None)], objects := {} + {2});
    TrashFileStep(c, s, 2);
    assert TRASHED_FILE == s.(files := s.files[2 := TrashedRow("a", None)], markers := s.markers + {FileMarker(2)});
  }

  // A purge that removes the object and is then rolled back leaves a row that nothing backs.
  lemma RowWithoutObject(c: Config)
    ensures var s := PurgeFile(TRASHED_FILE, 2, false).0;
            Reachable(c, s) && 2 in s.files && !s.files[2].Live() && 2 !in s.objects && !Stored(s)
  {
    TrashedFile(c);
    Extend(c, TRASHED_FILE, DoPurgeFile(2, false));
  }

  // ----- a late report

  const RESTORED_FILE := State(map[], map[2 := StoredFile("a", None)], {2}, {}, multiset{},
                               multiset{MarkerRemoved(FileMarker(2))})

  lemma RestoredFile(c: Config)
    ensures Reachable(c, RESTORED_FILE)
  {
    TrashedFile(c);
    assert TrashedAncestors(map[], None) == {};
    assert FolderMarkers({}) + {FileMarker(2)} == {FileMarker(2)};
    UnmarkOne(TRASHED_FILE, FileMarker(2));
    hide Reachable, Run, After, Unmark;
    Extend(c, TRASHED_FILE, DoRestoreFile(2, true));
    assert RestoreFile(TRASHED_FILE, 2, true).0 == RESTORED_FILE;
  }

  // A file that is trashed, restored and trashed again: while the report about the first marker,
  // which the restore removed, is pending, the second trashing does what the guard forbids, and the
  // report destroys the file although its second marker has not expired.
  lemma StaleNotice(c: Config) returns (s: State, trash: Step, late: Step)
    ensures Reachable(c, s) && NoStale(s) && Apart(s)
    ensures trash == DoTrashFile(2, 9, 0, true) && Enabled(c, s, trash) && !StaleGuard(s, trash)
    ensures var s1 := Apply(c, s, trash);
            && Reachable(c, s1) && !NoStale(s1) && 2 in s1.files && s1.files[2].deletedAt == Some(0)
            && Enabled(c, s1, late) && !NoEarlyLoss(s1, late)
            && LostEarly(s1, Apply(c, s1, late), 2) && 2 !in Apply(c, s1, late).objects
  {
    RestoredFile(c);
    s, trash := RESTORED_FILE, DoTrashFile(2, 9, 0, true);
    hide Reachable;
    Extend(c, s, trash);
    var s1 := Apply(c, s, trash);
    late := NotifyRemoved(MarkerRemoved(FileMarker(2)), false);
    hide Apply;
    EarlyLossExactly(c, s1, FileMarker(2), false, 2);
    assert Apply(c, s1, late) == Notified(s1, late.notice, late.again) by {
      NoticeStep(c, s1, late);
    }
  }

  lemma NoticeStep(c: Config, s: State, step: Step)
    requires step.NotifyRemoved?
    ensures Apply(c, s, step) == Notified(s, step.notice, step.again)
  {
  }

  // ----- a restore that never ends

  const SAME_NAMES := State(map[1 := LiveFolder("d", None)],
                            map[2 := TrashedRow("a", Some(1)), 3 := StoredFile("a", Some(1))],
                            {2, 3}, {FileMarker(2)}, multiset{}, multiset{})

  lemma SameNames(c: Config)
    ensures Reachable(c, SAME_NAMES)
  {
    hide Reachable, Run, After, Apply, Enabled;
    StartsEmpty(c);
    CreateStep(c, EMPTY, 1, "d", None);
    var s := EMPTY.(folders := map[1 := LiveFolder("d", None)]);
    UploadSteps(c, s, 2, "a", Some(1));
    s := s.(files := map[2 := StoredFile("a", Some(1))], objects := {2});
    assert s == EMPTY.(folders := map[1 := LiveFolder("d", None)], files := map[][2 := StoredFile("a", Some(1))],
                       objects := {} + {2});
    TrashFileStep(c, s, 2);
    s := s.(files := s.files[2 := TrashedRow("a", Some(1))], markers := s.markers + {FileMarker(2)});
    UploadSteps(c, s, 3, "a", Some(1));
    assert SAME_NAMES == s.(files := s.files[3 := StoredFile("a", Some(1))], objects := s.objects + {3});
  }

  const SAME_NAMES_TRASHED := State(map[1 := TrashedRow("d", None)],
                                    map[2 := TrashedRow("a", Some(1)), 3 := TrashedRow("a", Some(1))],
                                    {2, 3}, {FileMarker(2), FileMarker(3), FolderMarker(1)}, multiset{}, multiset{})

  lemma SameNamesTrashed(c: Config)
    requires c.limit >= 1
    ensures Reachable(c, SAME_NAMES_TRASHED)
  {
    hide Reachable, Run, After, Apply, Enabled;
    SameNames(c);
    TrashStep(c, SAME_NAMES, 1);
    var s := SAME_NAMES.(folders := SAME_NAMES.folders[1 := TrashedRow("d", None)],
                         markers := SAME_NAMES.markers + {FolderMarker(1)},
                         queue := SAME_NAMES.queue + multiset{FolderTrash(1, 9)});
    assert LiveChildren(s.files, 1) == {3};
    TrashAckStep(c, s, 1, {3});
    assert FileMarkers({3} * s.objects) == {FileMarker(3)};
    assert SAME_NAMES_TRASHED == s.(files := TrashRows(s.files, {3}, 9, 0),
                                    markers := s.markers + FileMarkers({3} * s.objects),
                                    queue := s.queue - multiset{FolderTrash(1, 9)});
  }

  lemma ReachedIsTidy(c: Config, s: State)
    requires Reachable(c, s)
    ensures Tidy(c, s)
  {
    var steps :| Run(c, EMPTY, steps) && After(c, EMPTY, steps) == s;
    assert Ranks(map[], map[]);
    hide Run, After;
    TidyRun(c, EMPTY, steps);
  }

  // A file was in the trash on its own when another one of its name was uploaded; then their folder is
  // trashed. RestoreFolder is accepted, but the index on file names refuses to let both come back, so
  // the folder is on its way for ever: no number of deliveries empties the queue.
  lemma EndlessRestore(c: Config) returns (s: State)
    requires c.limit >= 1 && c.schema
    ensures Reachable(c, s) && RestoreFolder(s, 1, 9, 0, c.retention).1 == Accepted
    ensures var s1 := RestoreFolder(s, 1, 9, 0, c.retention).0;
            forall steps :: Run(c, s1, steps) && RestoreSteps(steps, 9) ==>
              var s' := After(c, s1, steps);
              s'.queue != multiset{} && 1 in s'.folders && !s'.folders[1].Live()
  {
    SameNamesTrashed(c);
    s := SAME_NAMES_TRASHED;
    hide Reachable, Run, After, Apply, Enabled, RestoreSteps, Tidy, Subtree;
    ReachedIsTidy(c, s);
    RestoreStep(c, s, 1);
    AllOfOneFolder(s);
    assert s.files[2].parent == s.files[3].parent && s.files[2].name == s.files[3].name;
    assert !SiblingsDiffer(s.files, Subtree(s.folders, 1));
    hide RestoreFolder, SiblingsDiffer;
    forall steps | Run(c, RestoreFolder(s, 1, 9, 0, c.retention).0, steps) && RestoreSteps(steps, 9)
      ensures var s' := After(c, RestoreFolder(s, 1, 9, 0, c.retention).0, steps);
              s'.queue != multiset{} && 1 in s'.folders && !s'.folders[1].Live()
    {
      RestoreNeverEnds(c, s, 1, 9, 0, steps);
    }
  }

  lemma AllOfOneFolder(s: State)
    requires s.folders.Keys == {1} && s.folders[1].Recoverable()
    requires forall f :: f in s.files ==> s.files[f].Recoverable()
    ensures WhollyRecoverable(s, 1) && 1 in Subtree(s.folders, 1)
  {
    SubtreeStep(s.folders, 1, 1);
  }

  const UPLOADING_TRASHED := State(map[1 := TrashedRow("d", None)], map[2 := TrashedRow("a", Some(1))], {},
                                   {FolderMarker(1)}, multiset{}, multiset{})

  const UPLOADING := State(map[1 := LiveFolder("d", None)], map[2 := Row("a", Some(1), Uploading, None, None)], {}, {},
                           multiset{}, multiset{})

  lemma UploadBegun(c: Config)
    ensures Reachable(c, UPLOADING)
  {
    hide Reachable, Run, After, Apply, Enabled;
    StartsEmpty(c);
    CreateStep(c, EMPTY, 1, "d", None);
    var s := EMPTY.(folders := map[1 := LiveFolder("d", None)]);
    UploadStep(c, s, 2, "a", Some(1));
    assert UPLOADING == s.(files := s.files[2 := Row("a", Some(1), Uploading, None, None)]);
  }

  lemma UploadingTrashed(c: Config)
    requires c.limit >= 1
    ensures Reachable(c, UPLOADING_TRASHED)
  {
    hide Reachable, Run, After, Apply, Enabled;
    UploadBegun(c);
    TrashStep(c, UPLOADING, 1);
    var s := UPLOADING.(folders := UPLOADING.folders[1 := TrashedRow("d", None)],
                        markers := UPLOADING.markers + {FolderMarker(1)},
                        queue := UPLOADING.queue + multiset{FolderTrash(1, 9)});
    assert LiveChildren(s.files, 1) == {2};
    TrashAckStep(c, s, 1, {2});
    assert FileMarkers({2} * s.objects) == {};
    assert UPLOADING_TRASHED == s.(files := TrashRows(s.files, {2}, 9, 0),
                                   markers := s.markers + FileMarkers({2} * s.objects),
                                   queue := s.queue - multiset{FolderTrash(1, 9)});
  }

  // A file whose upload has not arrived goes to the trash and back with its folder: it then counts
  // as uploaded, and has no object.
  lemma UploadedWithoutObject(c: Config) returns (s: State)
    requires c.limit >= 1
    ensures Reachable(c, s) && 2 in s.files && s.files[2].Live() && s.files[2].status == Uploaded && 2 !in s.objects
  {
    hide Reachable, Run, After, Apply, Enabled;
    UploadingTrashed(c);
    var t := UPLOADING_TRASHED;
    RestoreStep(c, t, 1);
    s := Unmark(t, {FolderMarker(1)}).(folders := t.folders[1 := t.folders[1].(status := Restoring)],
                                       queue := t.queue + multiset{FolderRestore(1, 9)});
    assert s.markers == {};
    hide Unmark;
    assert RecoverableChildren(s.files, 1) == {2};
    RestoreAckStep(c, s, 1, {2});
    s := s.(folders := s.folders[1 := s.folders[1].Revive(Unset)], files := ReviveRows(s.files, {2}, Uploaded),
            queue := s.queue - multiset{FolderRestore(1, 9)});
  }

  // ----- a restore that leaves something behind

  const TREE := State(map[1 := LiveFolder("d", None), 2 := LiveFolder("e", Some(1))],
                      map[3 := StoredFile("a", Some(2)), 4 := StoredFile("b", Some(2))],
                      {3, 4}, {}, multiset{}, multiset{})

  lemma TreeIsReached(c: Config)
    ensures Reachable(c, TREE)
  {
    hide Reachable, Run, After, Apply, Enabled;
    SmallTreeIsReached(c);
    UploadSteps(c, SMALL_TREE, 4, "b", Some(2));
    assert TREE == SMALL_TREE.(files := SMALL_TREE.files[4 := StoredFile("b", Some(2))],
                               objects := SMALL_TREE.objects + {4});
  }

  const TREE_TRASHED := State(map[1 := TrashedRow("d", None), 2 := TrashedRow("e", Some(1))],
                              map[3 := TrashedRow("a", Some(2)), 4 := TrashedRow("b", Some(2))],
                              {3, 4}, {FolderMarker(1), FolderMarker(2), FileMarker(3), FileMarker(4)},
                              multiset{}, multiset{})

  lemma TreeTrashed(c: Config)
    requires c.limit >= 2
    ensures Reachable(c, TREE_TRASHED)
  {
    hide Reachable, Run, After, Apply, Enabled;
    TreeHalfTrashed(c);
    var s := TREE_HALF_TRASHED;
    assert LiveChildren(s.files, 2) == {3, 4};
    TrashAckStep(c, s, 2, {3, 4});
    assert FileMarkers({3, 4} * s.objects) == {FileMarker(3), FileMarker(4)};
    assert TREE_TRASHED == s.(files := TrashRows(s.files, {3, 4}, 9, 0),
                              markers := s.markers + FileMarkers({3, 4} * s.objects),
                              queue := s.queue - multiset{FolderTrash(2, 9)});
  }

  const TREE_HALF_TRASHED := TREE.(folders := TREE_TRASHED.folders, markers := {FolderMarker(1), FolderMarker(2)},
                                   queue := multiset{FolderTrash(2, 9)})

  lemma TreeHalfTrashed(c: Config)
    requires c.limit >= 1
    ensures Reachable(c, TREE_HALF_TRASHED)
  {
    hide Reachable, Run, After, Apply, Enabled;
    TreeIsReached(c);
    TrashStep(c, TREE, 1);
    var s := TREE.(folders := TREE.folders[1 := TrashedRow("d", None)], markers := TREE.markers + {FolderMarker(1)},
                   queue := TREE.queue + multiset{FolderTrash(1, 9)});
    assert LiveChildren(s.folders, 1) == {2} && LiveChildren(s.files, 1) == {};
    TrashAllStep(c, s, 1, {2}, {});
    InnerFolderTrashed(s);
  }

  lemma InnerFolderTrashed(s: State)
    requires s == TREE.(folders := TREE.folders[1 := TrashedRow("d", None)],
                        markers := TREE.markers + {FolderMarker(1)}, queue := TREE.queue + multiset{FolderTrash(1, 9)})
    ensures TREE_HALF_TRASHED
            == s.(folders := TrashRows(s.folders, {2}, 9, 0), files := TrashRows(s.files, {}, 9, 0),
                  markers := s.markers + FolderMarkers({2}) + FileMarkers({} * s.objects),
                  queue := s.queue + TrashEvents({2}, 9) - multiset{FolderTrash(1, 9)})
  {
    NoFilesTouched(s);
    OneTrashed(2, 9);
    hide FolderMarkers, FileMarkers, TrashEvents;
    assert TrashRows(s.folders, {2}, 9, 0) == TREE_TRASHED.folders;
    hide TrashRows;
    assert s.markers + {FolderMarker(2)} + {} == {FolderMarker(1), FolderMarker(2)};
    assert s.queue + multiset{FolderTrash(2, 9)} - multiset{FolderTrash(1, 9)} == multiset{FolderTrash(2, 9)};
  }

  lemma OneTrashed(id: Id, user: Id)
    ensures FolderMarkers({id}) == {FolderMarker(id)} && TrashEvents({id}, user) == multiset{FolderTrash(id, user)}
    ensures forall objects: set<Id> :: FileMarkers({} * objects) == {}
  {
    assert (set i | i in {id} :: FolderTrash(i, user)) == {FolderTrash(id, user)};
  }

  // Only the outer folder waits for its delivery.
  const TREE_ON_ITS_WAY := State(map[1 := OnItsWayBack("d", None), 2 := TrashedRow("e", Some(1))], TREE_TRASHED.files,
                                 {3, 4}, {FolderMarker(2), FileMarker(3), FileMarker(4)}, multiset{FolderRestore(1, 9)},
                                 multiset{MarkerRemoved(FolderMarker(1))})

  lemma TreeOnItsWay(c: Config)
    requires c.limit >= 2
    ensures Reachable(c, TREE_ON_ITS_WAY)
    ensures Reachable(c, TREE_TRASHED) && Enabled(c, TREE_TRASHED, DoRestoreFolder(1, 9, 0))
    ensures Apply(c, TREE_TRASHED, DoRestoreFolder(1, 9, 0)) == TREE_ON_ITS_WAY
  {
    TreeTrashed(c);
    hide Reachable, Run, After, RestoreFolder, Apply, Enabled;
    var s := TREE_TRASHED;
    RestoreStep(c, s, 1);
    UnmarkOne(s, FolderMarker(1));
    hide Unmark;
    assert s.markers - {FolderMarker(1)} == TREE_ON_ITS_WAY.markers;
    assert TREE_ON_ITS_WAY
        == Unmark(s, {FolderMarker(1)}).(folders := s.folders[1 := s.folders[1].(status := Restoring)],
                                         queue := s.queue + multiset{FolderRestore(1, 9)});
  }

  const FILE_BACK := State(map[1 := OnItsWayBack("d", None), 2 := LiveFolder("e", Some(1))],
                           map[3 := StoredFile("a", Some(2)), 4 := TrashedRow("b", Some(2))], {3, 4}, {FileMarker(4)},
                           multiset{FolderRestore(1, 9)},
                           multiset{MarkerRemoved(FolderMarker(1)), MarkerRemoved(FolderMarker(2)),
                                    MarkerRemoved(FileMarker(3))})

  // The outer folder is skipped.
  lemma OnlyInnerAbove(t: Table)
    requires t == TREE_ON_ITS_WAY.folders
    ensures TrashedAncestors(t, Some(2)) == {2} && !ParentConflict(t, Some(2))
            && WithParents(t, Some(2)) == FILE_BACK.folders
  {
    assert Climb(t, Some(2), 0) == Some(2);
    assert TrashedAncestors(t, Some(2)) == {2};
    hide TrashedAncestors;
    assert !NameTaken(t, "e", Some(1), 2);
  }

  lemma MarkersGone(s: State)
    requires s == TREE_ON_ITS_WAY
    ensures Unmark(s, FolderMarkers({2}) + {FileMarker(3)})
            == FILE_BACK.(folders := s.folders, files := s.files)
  {
    var ms := {FolderMarker(2), FileMarker(3)};
    assert FolderMarkers({2}) + {FileMarker(3)} == ms;
    TwoUnmarked(s, FolderMarker(2), FileMarker(3));
    hide Unmark;
    assert s.markers - ms == {FileMarker(4)};
    assert s.notices + multiset{MarkerRemoved(FolderMarker(2)), MarkerRemoved(FileMarker(3))} == FILE_BACK.notices;
  }

  lemma FileIsBack()
    ensures RestoreFile(TREE_ON_ITS_WAY, 3, true) == (FILE_BACK, Accepted)
  {
    var s := TREE_ON_ITS_WAY;
    OnlyInnerAbove(s.folders);
    MarkersGone(s);
    hide Unmark, WithParents, ParentConflict, TrashedAncestors, FolderMarkers;
    assert !NameTaken(s.files, "a", Some(2), 3);
    assert s.files[3 := s.files[3].Revive(Uploaded)] == FILE_BACK.files;
  }

  lemma TwoUnmarked(s: State, m: Marker, n: Marker)
    requires m in s.markers && n in s.markers && m != n
    ensures Unmark(s, {m, n}) == s.(markers := s.markers - {m, n},
                                    notices := s.notices + multiset{MarkerRemoved(m), MarkerRemoved(n)})
  {
    assert {m, n} * s.markers == {m, n};
    assert (set x | x in {m, n} :: MarkerRemoved(x)) == {MarkerRemoved(m), MarkerRemoved(n)};
    assert multiset({MarkerRemoved(m), MarkerRemoved(n)}) == multiset{MarkerRemoved(m), MarkerRemoved(n)};
  }

  const FILE_LEFT := FILE_BACK.(folders := FILE_BACK.folders[1 := LiveFolder("d", None)], queue := multiset{})

  lemma FileLeft(c: Config)
    requires Reachable(c, FILE_BACK)
    ensures Enabled(c, FILE_BACK, DeliverRestore(1, 9, {}, {})) && Reachable(c, FILE_LEFT)
    ensures Apply(c, FILE_BACK, DeliverRestore(1, 9, {}, {})) == FILE_LEFT
  {
    hide Reachable, Run, After, Apply, Enabled;
    var s := FILE_BACK;
    NoFilesTouched(s);
    RestoreAckStep(c, s, 1, {});
    assert FILE_LEFT == s.(folders := s.folders[1 := s.folders[1].Revive(Unset)],
                           files := ReviveRows(s.files, {}, Uploaded),
                           queue := s.queue - multiset{FolderRestore(1, 9)});
  }

  // Restore a wholly trashed folder, and one of the files below it before the first delivery: that
  // brings the inner folder back without the other file, which FolderRestore then no longer finds. The
  // outer folder comes to life, its message is acknowledged, and the other file stays in the trash
  // with its marker.
  lemma FileLeftBehind(c: Config) returns (s: State, step: Step, s': State)
    requires c.limit >= 2
    ensures WhollyRecoverable(TREE_TRASHED, 1) && Reachable(c, TREE_TRASHED)
    ensures Enabled(c, TREE_TRASHED, DoRestoreFolder(1, 9, 0)) && s == Apply(c, TREE_TRASHED, DoRestoreFolder(1, 9, 0))
    ensures Complete(s, {1, 2}) && step == DoRestoreFile(3, true) && Enabled(c, s, step)
            && !BottomUpGuard(c, s, step, {1, 2})
    ensures Enabled(c, Apply(c, s, step), DeliverRestore(1, 9, {}, {}))
            && s' == Apply(c, Apply(c, s, step), DeliverRestore(1, 9, {}, {}))
    ensures Reachable(c, s') && s'.queue == multiset{} && 1 in s'.folders && s'.folders[1].Live()
    ensures 4 in s'.files && !s'.files[4].Live() && FileMarker(4) in s'.markers && !AllLive(s', 1)
  {
    TreeOnItsWay(c);
    s, step, s' := TREE_ON_ITS_WAY, DoRestoreFile(3, true), FILE_LEFT;
    FileBackStep(c);
    GuardForbidsIt(c);
    AllInTrash();
    NothingLive();
    hide Reachable, Run, After, Apply, Enabled, BottomUpGuard, AllLive, WhollyRecoverable, Complete;
    Extend(c, s, step);
    FileLeft(c);
    NotAllLive();
  }

  lemma FileBackStep(c: Config)
    ensures Enabled(c, TREE_ON_ITS_WAY, DoRestoreFile(3, true))
    ensures Apply(c, TREE_ON_ITS_WAY, DoRestoreFile(3, true)) == FILE_BACK
  {
    FileIsBack();
    hide RestoreFile;
  }

  lemma GuardForbidsIt(c: Config)
    ensures !BottomUpGuard(c, TREE_ON_ITS_WAY, DoRestoreFile(3, true), {1, 2})
  {
    var s := TREE_ON_ITS_WAY;
    FileIsBack();
    AcceptedFile(s, 3, true);
    OnlyInnerAbove(s.folders);
    hide RestoreFile, FileAccepted, TrashedAncestors, ParentConflict, WithParents;
    assert 2 in {2} && 2 in {1, 2};
    assert 4 in TrashedChildren(s.files, 2) && 4 !in {3};
  }

  lemma AllInTrash()
    ensures WhollyRecoverable(TREE_TRASHED, 1)
  {
    hide OnChain;
  }

  lemma NothingLive()
    ensures Complete(TREE_ON_ITS_WAY, {1, 2})
  {
  }

  lemma NotAllLive()
    ensures !AllLive(FILE_LEFT, 1)
  {
    var s := FILE_LEFT;
    SubtreeStep(s.folders, 1, 1);
    SubtreeStep(s.folders, 1, 2);
    assert Below(s.files[4], Subtree(s.folders, 1));
  }

  // ----- a purge that never ends

  const NAMESAKE := LIVE_IN_TRASH.(folders := LIVE_IN_TRASH.folders[3 := LiveFolder("b", None)])

  // A live folder was left behind in a trashed one, and the top level has a folder of its name. The
  // purge of the trashed folder is accepted, but ON DELETE SET NULL would move the one next to the
  // other, which the index on folder names refuses: the message is never acknowledged.
  lemma EndlessPurge(c: Config) returns (s: State)
    requires c.limit >= 1 && c.schema
    ensures Reachable(c, s) && PurgeFolder(s, 1, 9).1 == Accepted
    ensures var s1 := PurgeFolder(s, 1, 9).0;
            forall steps :: Run(c, s1, steps) && PurgeSteps(steps, 9) ==> After(c, s1, steps).queue != multiset{}
  {
    LiveInTrash(c);
    CreateStep(c, LIVE_IN_TRASH, 3, "b", None);
    s := NAMESAKE;
    hide Reachable, Run, After, Apply, Enabled, PurgeSteps;
    ReachedIsTidy(c, s);
    var t, gone := s.folders, TrashedChildren(s.folders, 1) + {1};
    assert t[2].Live() && t[3].Live() && t[2].name == t[3].name && t[2].parent.value in gone && t[3].parent == None;
    assert DetachClash(t, gone);
    forall steps | Run(c, PurgeFolder(s, 1, 9).0, steps) && PurgeSteps(steps, 9)
      ensures After(c, PurgeFolder(s, 1, 9).0, steps).queue != multiset{}
    {
      PurgeDrainsExactly(c, s, 1, 9, steps);
    }
  }

  // ----- the premises of the round trip

  const SMALL_TREE := State(map[1 := LiveFolder("d", None), 2 := LiveFolder("e", Some(1))],
                            map[3 := StoredFile("a", Some(2))], {3}, {}, multiset{}, multiset{})

  // A folder with a subfolder and a file in it is ready to be trashed and restored.
  lemma SmallTreeIsReady(c: Config)
    ensures Reachable(c, SMALL_TREE) && Ready(SMALL_TREE, 1)
    ensures 2 in Subtree(SMALL_TREE.folders, 1) && Below(SMALL_TREE.files[3], Subtree(SMALL_TREE.folders, 1))
  {
    SmallTreeIsReached(c);
    SmallSubtree();
    hide Reachable, Run, After, Apply, Enabled, Subtree, Acyclic;
    assert RestoresPending(SMALL_TREE.folders, multiset{});
  }

  lemma SmallSubtree()
    ensures Acyclic(SMALL_TREE.folders) && Subtree(SMALL_TREE.folders, 1) == {1, 2}
  {
    var t := SMALL_TREE.folders;
    assert Ranks(t, map[1 := 0, 2 := 1]);
    SubtreeStep(t, 1, 1);
    SubtreeStep(t, 1, 2);
  }

  lemma SmallTreeIsReached(c: Config)
    ensures Reachable(c, SMALL_TREE)
  {
    hide Reachable, Run, After, Apply, Enabled;
    StartsEmpty(c);
    CreateStep(c, EMPTY, 1, "d", None);
    var s := EMPTY.(folders := map[1 := LiveFolder("d", None)]);
    CreateStep(c, s, 2, "e", Some(1));
    s := s.(folders := s.folders[2 := LiveFolder("e", Some(1))]);
    UploadSteps(c, s, 3, "a", Some(2));
    assert SMALL_TREE == s.(files := s.files[3 := StoredFile("a", Some(2))], objects := s.objects + {3});
  }
}
