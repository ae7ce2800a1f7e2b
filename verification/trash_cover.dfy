// A trashed folder that still has a live child has its FolderTrash pending.
module TrashCover {
  import opened Basics
  import opened Tables
  import opened Store
  import opened ParentFolders
  import opened BucketFolder
  import opened BucketFile
  import opened FolderTrashEvent
  import opened FolderRestoreEvent
  import opened FolderPurgeEvent
  import opened Protocol

  ghost predicate TrashPending(q: multiset<Event>, id: Id) {
    exists user :: FolderTrash(id, user) in q
  }

  // In the trash, and not on its way back.
  predicate Discarded(r: Row) {
    !r.Live() && r.status != Restoring
  }

  ghost predicate HasLiveChild(s: State, p: Id) {
    || (exists i :: i in s.folders && s.folders[i].parent == Some(p) && s.folders[i].Live())
    || (exists i :: i in s.files && s.files[i].parent == Some(p) && s.files[i].Live())
  }

  ghost predicate CoveredAt(s: State, p: Id) {
    p in s.folders && Discarded(s.folders[p]) && HasLiveChild(s, p) ==> TrashPending(s.queue, p)
  }

  ghost predicate Covered(s: State) {
    forall p :: p in s.folders ==> CoveredAt(s, p)
  }

  // A folder that FolderRestore brings to life must not appear under a discarded parent that
  // nobody is going to walk again.
  ghost predicate CoverGuard(c: Config, s: State, step: Step) {
    step.DeliverRestore? && BringsBack(c, s, step.id) ==>
      var parent := s.folders[step.id].parent;
      parent.Some? && parent.value in s.folders && Discarded(s.folders[parent.value]) ==>
        TrashPending(s.queue, parent.value)
  }

  // A FolderRestore of this folder is about to finish: no child folder is left to come back, its
  // files fit into one batch, and nothing is in the way of its name or theirs.
  ghost predicate BringsBack(c: Config, s: State, id: Id) {
    && id in s.folders && s.folders[id].status == Restoring
    && !NameTaken(s.folders, s.folders[id].name, s.folders[id].parent, id)
    && RecoverableChildren(s.folders, id) == {} && RestoringChildren(s.folders, id) == {}
    && |RecoverableChildren(s.files, id)| <= c.limit
    && Fits(c.schema, ReviveRows(s.files, RecoverableChildren(s.files, id), Uploaded))
  }

  lemma WholeBatch(limit: nat, candidates: set<Id>, batch: set<Id>)
    requires IsBatch(limit, candidates, batch)
    ensures |candidates| <= limit <==> batch == candidates
  {
    if |batch| == |candidates| {
      assert |candidates - batch| == 0;
      assert candidates == batch + (candidates - batch);
    }
  }

  // That is when the callback ends without an error.
  lemma BringsBackExactly(c: Config, s: State, step: Step)
    requires step.DeliverRestore? && Enabled(c, s, step) && step.id in s.folders
             && s.folders[step.id].status == Restoring
    ensures Restore(c.schema, s, step.id, step.user, step.folderBatch, step.fileBatch).1 <==> BringsBack(c, s, step.id)
  {
    var id, fs, gs := step.id, step.folderBatch, step.fileBatch;
    assert RestorePicks(c.limit, s, id, fs, gs);
    WholeBatch(c.limit, RecoverableChildren(s.files, id), gs);
    ChildrenAfterwards(s.folders, s.files, id, fs, gs);
    hide Fits, ReviveRows, MarkRestoring, RecoverableChildren, RestoringChildren, NameTaken, MarkerNotices,
      RestoreEvents, FileMarkers;
    var p := ProcessChildren(c.schema, s, id, step.user, fs, gs);
    if p.Some? {
      assert ChildrenLeft(p.value, id) <==>
             !(fs == {} && RecoverableChildren(s.folders, id) == {} && RestoringChildren(s.folders, id) == {}
               && RecoverableChildren(s.files, id) == gs);
    }
  }

  // What is left of the children once a batch has been taken.
  lemma ChildrenAfterwards(t: Table, g: Table, id: Id, fs: set<Id>, gs: set<Id>)
    requires fs <= RecoverableChildren(t, id) && gs <= RecoverableChildren(g, id)
    ensures RecoverableChildren(MarkRestoring(t, fs), id) == RecoverableChildren(t, id) - fs
    ensures RestoringChildren(MarkRestoring(t, fs), id) == RestoringChildren(t, id) + fs
    ensures RecoverableChildren(ReviveRows(g, gs, Uploaded), id) == RecoverableChildren(g, id) - gs
  {
  }

  // The steps that neither discard a folder nor bring anything to life keep every cover.
  ghost predicate NoNewGaps(s: State, s': State) {
    && (forall p, u :: FolderTrash(p, u) in s.queue ==> FolderTrash(p, u) in s'.queue)
    && (forall p :: p in s'.folders && Discarded(s'.folders[p]) ==> p in s.folders && Discarded(s.folders[p]))
    && (forall p :: p in s'.folders && Discarded(s'.folders[p]) && HasLiveChild(s', p) ==> HasLiveChild(s, p))
  }

  lemma NoGapCovered(s: State, s': State)
    requires Covered(s) && NoNewGaps(s, s')
    ensures Covered(s')
  {
    forall p | p in s'.folders
      ensures CoveredAt(s', p)
    {
      assert CoveredAt(s, p);
    }
  }

  lemma TrashFolderCovered(s: State, id: Id, user: Id, now: nat)
    requires Covered(s)
    ensures Covered(TrashFolder(s, id, user, now).0)
  {
    var s' := TrashFolder(s, id, user, now).0;
    forall p | p in s'.folders
      ensures CoveredAt(s', p)
    {
      assert CoveredAt(s, p);
      if s' != s && p == id {
        assert FolderTrash(id, user) in s'.queue;
      } else if TrashPending(s.queue, p) {
        var u :| FolderTrash(p, u) in s.queue;
        assert FolderTrash(p, u) in s'.queue;
      }
    }
  }

  // Acknowledging a message costs no cover unless it is the FolderTrash of a folder that still has
  // live children.
  lemma AckCovered(s: State, e: Event)
    requires Covered(s)
    requires e.FolderTrash? ==> !HasLiveChild(s, e.folder)
    ensures Covered(s.(queue := s.queue - multiset{e}))
  {
    var s' := s.(queue := s.queue - multiset{e});
    forall p | p in s'.folders && Discarded(s'.folders[p]) && HasLiveChild(s', p)
      ensures TrashPending(s'.queue, p)
    {
      assert HasLiveChild(s, p) && CoveredAt(s, p);
      var u :| FolderTrash(p, u) in s.queue;
      assert FolderTrash(p, u) in s'.queue;
    }
  }

  lemma CascadeCovered(limit: nat, s: State, id: Id, user: Id, now: nat, fs: set<Id>, gs: set<Id>)
    requires Covered(s) && TrashPicks(limit, s, id, fs, gs)
    ensures Covered(Trash(s, id, user, now, fs, gs).0)
  {
    var s' := Trash(s, id, user, now, fs, gs).0;
    forall p | p in s'.folders && Discarded(s'.folders[p]) && HasLiveChild(s', p)
      ensures TrashPending(s'.queue, p)
    {
      assert HasLiveChild(s, p) && CoveredAt(s, p);
      if s' != s && p in fs {
        assert FolderTrash(p, user) in TrashEvents(fs, user);
      } else {
        var u :| FolderTrash(p, u) in s.queue;
        assert FolderTrash(p, u) in s'.queue;
      }
    }
  }

  lemma TrashCovered(limit: nat, s: State, id: Id, user: Id, now: nat, fs: set<Id>, gs: set<Id>)
    requires Covered(s) && TrashPicks(limit, s, id, fs, gs)
    ensures Covered(Handle(FolderTrash(id, user), Trash(s, id, user, now, fs, gs)))
  {
    CascadeCovered(limit, s, id, user, now, fs, gs);
    var r := Trash(s, id, user, now, fs, gs);
    if r.1 {
      LiveChildIsListed(r.0, id);
      AckCovered(r.0, FolderTrash(id, user));
    }
  }

  lemma LiveChildIsListed(s: State, id: Id)
    ensures HasLiveChild(s, id) ==> LiveChildren(s.folders, id) != {} || LiveChildren(s.files, id) != {}
  {
    if HasLiveChild(s, id) {
      if i :| i in s.folders && s.folders[i].parent == Some(id) && s.folders[i].Live() {
        assert i in LiveChildren(s.folders, id);
      } else {
        var j :| j in s.files && s.files[j].parent == Some(id) && s.files[j].Live();
        assert j in LiveChildren(s.files, id);
      }
    }
  }

  // After the ancestors of an item came back, the folder above any of them, and above the item, is
  // not discarded.
  lemma AboveRevived(t: Table, start: Option<Id>, p: Id)
    requires p in t && OnChain(t, start, p)
    ensures !Discarded(WithParents(t, start)[p])
  {
  }

  lemma ParentOnChain(t: Table, start: Option<Id>, a: Id)
    requires OnChain(t, start, a) && a in t && t[a].parent.Some? && t[a].parent.value in t
    ensures OnChain(t, start, t[a].parent.value)
  {
    var n: nat :| Climb(t, start, n) == Some(a);
    ClimbStep(t, start, n);
    assert Climb(t, start, n + 1) == Some(t[a].parent.value);
  }

  // `s'` differs from `s` by the revival of the ancestors of `start` and of at most one file
  // directly below `start`.
  lemma ParentsCovered(s: State, s': State, start: Option<Id>, file: Option<Id>)
    requires Covered(s)
    requires s'.folders == WithParents(s.folders, start) && s'.files.Keys == s.files.Keys
    requires forall p, u :: FolderTrash(p, u) in s.queue ==> FolderTrash(p, u) in s'.queue
    requires forall i :: i in s.files && file != Some(i) ==> s'.files[i] == s.files[i]
    requires file.Some? ==> file.value in s.files && s'.files[file.value].parent == start
    ensures Covered(s')
  {
    forall p | p in s'.folders && Discarded(s'.folders[p]) && HasLiveChild(s', p)
      ensures HasLiveChild(s, p)
    {
      if i :| i in s'.folders && s'.folders[i].parent == Some(p) && s'.folders[i].Live() {
        if i in TrashedAncestors(s.folders, start) {
          ParentOnChain(s.folders, start, i);
          AboveRevived(s.folders, start, p);
        }
      } else {
        var j :| j in s'.files && s'.files[j].parent == Some(p) && s'.files[j].Live();
        if file == Some(j) {
          assert Climb(s.folders, start, 0) == Some(p);
          AboveRevived(s.folders, start, p);
        }
      }
    }
    NoGapCovered(s, s');
  }

  lemma RestoreFolderCovered(s: State, id: Id, user: Id, now: nat, retention: nat)
    requires Covered(s)
    ensures Covered(RestoreFolder(s, id, user, now, retention).0)
  {
    var s' := RestoreFolder(s, id, user, now, retention).0;
    if s' != s {
      var mid := s.(folders := WithParents(s.folders, s.folders[id].parent));
      ParentsCovered(s, mid, s.folders[id].parent, None);
      assert forall p :: p in s'.folders && Discarded(s'.folders[p]) && HasLiveChild(s', p) ==> HasLiveChild(mid, p);
      NoGapCovered(mid, s');
    }
  }

  lemma RestoreFileCovered(s: State, id: Id, logOk: bool)
    requires Covered(s)
    ensures Covered(RestoreFile(s, id, logOk).0)
  {
    var s' := RestoreFile(s, id, logOk).0;
    if s' != s {
      ParentsCovered(s, s', s.files[id].parent, Some(id));
    }
  }

  // The part of FolderRestore before the folder itself is finalized.
  lemma ProcessCovered(c: Config, s: State, id: Id, user: Id, fs: set<Id>, gs: set<Id>)
    requires Covered(s) && RestorePicks(c.limit, s, id, fs, gs)
    requires ProcessChildren(c.schema, s, id, user, fs, gs).Some?
    ensures Covered(ProcessChildren(c.schema, s, id, user, fs, gs).value)
  {
    hide Fits;
    var s' := ProcessChildren(c.schema, s, id, user, fs, gs).value;
    if s.folders[id].status == Restoring {
      forall p | p in s'.folders && Discarded(s'.folders[p]) && HasLiveChild(s', p)
        ensures HasLiveChild(s, p)
      {
        assert p != id;
        if j :| j in s'.files && s'.files[j].parent == Some(p) && s'.files[j].Live() {
          assert j !in gs;
        }
      }
      NoGapCovered(s, s');
    }
  }

  lemma FinalizeCovered(s: State, id: Id, user: Id)
    requires Covered(s) && id in s.folders && s.folders[id].status == Restoring
    ensures Covered(Handle(FolderRestore(id, user), (Finalize(s, id), true))) <==>
            (var parent := s.folders[id].parent;
             parent.Some? && parent.value in s.folders && parent.value != id && Discarded(s.folders[parent.value]) ==>
               TrashPending(s.queue, parent.value))
  {
    var s' := Handle(FolderRestore(id, user), (Finalize(s, id), true));
    assert forall p, u :: FolderTrash(p, u) in s.queue <==> FolderTrash(p, u) in s'.queue;
    var parent := s.folders[id].parent;
    forall p | p in s'.folders && parent != Some(p)
      ensures CoveredAt(s', p)
    {
      assert CoveredAt(s, p);
      assert HasLiveChild(s', p) ==> HasLiveChild(s, p);
    }
    if parent.Some? && parent.value in s.folders {
      assert s'.folders[id].Live() && s'.folders[id].parent == Some(parent.value);
      assert HasLiveChild(s', parent.value);
      assert CoveredAt(s', parent.value) <==>
             (Discarded(s'.folders[parent.value]) ==> TrashPending(s.queue, parent.value));
    }
  }

  lemma RestoreCovered(c: Config, s: State, step: Step)
    requires step.DeliverRestore? && Covered(s) && Enabled(c, s, step) && Acyclic(s.folders)
    ensures Covered(Apply(c, s, step)) <==> CoverGuard(c, s, step)
  {
    var id, user, fs, gs := step.id, step.user, step.folderBatch, step.fileBatch;
    var p := ProcessChildren(c.schema, s, id, user, fs, gs);
    assert RestorePicks(c.limit, s, id, fs, gs);
    if id in s.folders && s.folders[id].status == Restoring {
      BringsBackExactly(c, s, step);
    }
    if p.Some? {
      ProcessCovered(c, s, id, user, fs, gs);
      if !ChildrenLeft(p.value, id) {
        if s.folders[id].status == Restoring {
          FinalizeCovered(p.value, id, user);
          RestoreGuardCarries(c.schema, s, id, user, fs, gs);
        } else {
          NoGapCovered(s, Handle(FolderRestore(id, user), (s, true)));
        }
      }
    }
    hide Fits, NameTaken, Covered, BringsBack, ChildrenLeft;
  }

  // The guard reads the same before and after the children were processed.
  lemma RestoreGuardCarries(schema: bool, s: State, id: Id, user: Id, fs: set<Id>, gs: set<Id>)
    requires id in s.folders && s.folders[id].status == Restoring && Acyclic(s.folders)
    requires ProcessChildren(schema, s, id, user, fs, gs).Some?
    requires forall i :: i in fs ==> i in s.folders && s.folders[i].parent == Some(id)
    ensures var s' := ProcessChildren(schema, s, id, user, fs, gs).value;
            var parent := s.folders[id].parent;
            && s'.folders[id].parent == parent && s'.folders[id].status == Restoring
            && (parent.Some? && parent.value in s.folders ==>
                  && parent.value != id && parent.value in s'.folders
                  && s'.folders[parent.value] == s.folders[parent.value]
                  && (TrashPending(s'.queue, parent.value) <==> TrashPending(s.queue, parent.value)))
  {
    hide Fits;
    var s' := ProcessChildren(schema, s, id, user, fs, gs).value;
    var rank :| Ranks(s.folders, rank);
    assert forall p, u :: FolderTrash(p, u) in s.queue <==> FolderTrash(p, u) in s'.queue;
  }

  lemma DropCovered(s: State, gone: set<Id>, schema: bool)
    requires Covered(s)
    ensures Covered(DropFolders(s, gone, schema))
  {
    NoGapCovered(s, DropFolders(s, gone, schema));
  }

  lemma PurgeChildrenCovered(schema: bool, s: State, fs: set<Id>, gs: set<Id>)
    requires Covered(s) && PurgeChildren(schema, s, fs, gs).Some?
    ensures Covered(PurgeChildren(schema, s, fs, gs).value)
  {
    DropCovered(s, fs, schema);
    hide Fits, Covered, Unlink;
    NoGapCovered(DropFolders(s, fs, schema), PurgeChildren(schema, s, fs, gs).value);
  }

  lemma PurgeCovered(schema: bool, s: State, id: Id, user: Id, fs: set<Id>, gs: set<Id>)
    requires Covered(s)
    ensures Covered(Handle(FolderPurge(id, user), Purge(schema, s, id, fs, gs)))
  {
    hide MayDrop, Covered, PurgeChildren;
    if id in s.folders && !s.folders[id].Live() && PurgeChildren(schema, s, fs, gs).Some? {
      PurgeChildrenCovered(schema, s, fs, gs);
      var s1 := PurgeChildren(schema, s, fs, gs).value;
      var s2 := Unmark(s1, {FolderMarker(id)});
      NoGapCovered(s1, s2);
      DropCovered(s2, {id}, schema);
      hide DropFolders, Unmark;
      AckCovered(DropFolders(s2, {id}, schema), FolderPurge(id, user));
    }
  }

  lemma NewFolderCovered(s: State, id: Id, name: string, parent: Option<Id>)
    requires Covered(s) && Fresh(s, id)
    ensures Covered(CreateFolder(s, id, name, parent).0)
  {
    NoGapCovered(s, CreateFolder(s, id, name, parent).0);
  }

  lemma NewFileCovered(s: State, id: Id, name: string, parent: Option<Id>)
    requires Covered(s) && Fresh(s, id)
    ensures Covered(UploadFile(s, id, name, parent).0)
  {
    NoGapCovered(s, UploadFile(s, id, name, parent).0);
  }

  // Files only go to the trash, disappear or change their status.
  lemma FewerFilesCovered(s: State, s': State)
    requires Covered(s) && s'.folders == s.folders && s'.queue == s.queue
    requires forall i :: i in s'.files && s'.files[i].Live() ==>
               i in s.files && s.files[i].Live() && s.files[i].parent == s'.files[i].parent
    ensures Covered(s')
  {
    NoGapCovered(s, s');
  }

  lemma FileCallsCovered(s: State, id: Id, user: Id, now: nat, flag: bool)
    requires Covered(s)
    ensures Covered(TrashFile(s, id, user, now, flag).0)
    ensures Covered(PurgeFile(s, id, flag).0)
    ensures Covered(ObjectCreated(s, id))
  {
    FewerFilesCovered(s, TrashFile(s, id, user, now, flag).0);
    FewerFilesCovered(s, PurgeFile(s, id, flag).0);
    FewerFilesCovered(s, ObjectCreated(s, id));
  }

  lemma NoticesCovered(s: State, notice: Notice, again: bool, marker: Marker)
    requires Covered(s)
    ensures Covered(Notified(s, notice, again)) && Covered(Unmark(s, {marker}))
  {
    FewerFilesCovered(s, Notified(s, notice, again));
    FewerFilesCovered(s, Unmark(s, {marker}));
  }

  lemma RenameCovered(s: State, id: Id, name: string, user: Id)
    requires Covered(s)
    ensures Covered(UpdateFolder(s, id, name).0)
    ensures Covered(PurgeFolder(s, id, user).0)
  {
    NoGapCovered(s, UpdateFolder(s, id, name).0);
    NoGapCovered(s, PurgeFolder(s, id, user).0);
  }

  // Kept by every step of the system, except that FolderRestore keeps it exactly under its guard.
  lemma CoverKept(c: Config, s: State, step: Step)
    requires Covered(s) && Acyclic(s.folders) && Enabled(c, s, step)
    ensures Covered(Apply(c, s, step)) <==> CoverGuard(c, s, step)
  {
    hide Covered, Fresh, RestoreFolder, RestoreFile, Notified, Unmark;
    match step
    case DoCreateFolder(id, name, parent) => NewFolderCovered(s, id, name, parent);
    case DoUpdateFolder(id, name) => RenameCovered(s, id, name, 0);
    case DoTrashFolder(id, user, now) => TrashFolderCovered(s, id, user, now);
    case DoRestoreFolder(id, user, now) => RestoreFolderCovered(s, id, user, now, c.retention);
    case DoPurgeFolder(id, user) => RenameCovered(s, id, "", user);
    case DoUploadFile(id, name, parent) => NewFileCovered(s, id, name, parent);
    case DoTrashFile(id, user, now, logOk) => FileCallsCovered(s, id, user, now, logOk);
    case DoRestoreFile(id, logOk) => RestoreFileCovered(s, id, logOk);
    case DoPurgeFile(id, logOk) => FileCallsCovered(s, id, 0, 0, logOk);
    case DeliverTrash(id, user, now, fs, gs) => TrashCovered(c.limit, s, id, user, now, fs, gs);
    case DeliverRestore(_, _, _, _) => RestoreCovered(c, s, step);
    case DeliverPurge(id, user, fs, gs) => PurgeCovered(c.schema, s, id, user, fs, gs);
    case StoreObject(id) => NoGapCovered(s, PutObject(s, id));
    case NotifyCreated(id) => FileCallsCovered(s, id, 0, 0, true);
    case MarkerExpires(marker) => NoticesCovered(s, ObjectRemoved(0), true, marker);
    case NotifyRemoved(notice, again) => NoticesCovered(s, notice, again, FileMarker(0));
  }

  // ----- what the cover says about whole chains of ancestors

  ghost predicate Quiet(s: State) {
    && (forall p :: p in s.folders ==> s.folders[p].status != Restoring)
    && (forall p :: p in s.folders ==> !TrashPending(s.queue, p))
  }

  // When no FolderTrash is pending and nothing is being restored, no live folder has a trashed
  // ancestor at any depth.
  lemma {:induction false} LiveUpToTheRoot(s: State, start: Id, n: nat)
    requires Covered(s) && Quiet(s)
    requires start in s.folders && s.folders[start].Live() && Climb(s.folders, Some(start), n).Some?
    ensures var a := Climb(s.folders, Some(start), n).value;
            a in s.folders && s.folders[a].Live()
    decreases n
  {
    if n > 0 {
      var p := s.folders[start].parent.value;
      assert HasLiveChild(s, p);
      assert CoveredAt(s, p);
      LiveUpToTheRoot(s, p, n - 1);
    }
  }

  ghost predicate LiveAbove(t: Table, start: Option<Id>) {
    forall a :: a in t && OnChain(t, start, a) ==> t[a].Live()
  }

  lemma LiveItemsHaveLiveAncestors(s: State)
    requires Covered(s) && Quiet(s)
    ensures forall i :: i in s.folders && s.folders[i].Live() ==> LiveAbove(s.folders, s.folders[i].parent)
    ensures forall i :: i in s.files && s.files[i].Live() ==> LiveAbove(s.folders, s.files[i].parent)
  {
    forall i, a | i in s.folders && s.folders[i].Live() && a in s.folders && OnChain(s.folders, s.folders[i].parent, a)
      ensures s.folders[a].Live()
    {
      var n: nat :| Climb(s.folders, s.folders[i].parent, n) == Some(a);
      assert Climb(s.folders, Some(i), n + 1) == Some(a);
      LiveUpToTheRoot(s, i, n + 1);
    }
    forall i, a | i in s.files && s.files[i].Live() && a in s.folders && OnChain(s.folders, s.files[i].parent, a)
      ensures s.folders[a].Live()
    {
      var n: nat :| Climb(s.folders, s.files[i].parent, n) == Some(a);
      var p := s.files[i].parent.value;
      assert HasLiveChild(s, p);
      assert CoveredAt(s, p);
      LiveUpToTheRoot(s, p, n);
    }
  }
}
