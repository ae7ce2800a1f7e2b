// A folder is not live before what belongs into it: what every step keeps of that, and what an
// acknowledged restore means in a system that goes on working.
module BottomUp {
  import opened Basics
  import opened Tables
  import opened Store
  import opened ParentFolders
  import opened BucketFolder
  import opened BucketFile
  import opened FolderTrashEvent
  import opened FolderRestoreEvent
  import opened FolderPurgeEvent
  import opened Protocol
  import opened Invariants
  import opened TrashRun
  import opened RestoreRun
  import opened Runs

  // The row belongs directly into a live folder of `d`.
  predicate UnderLive(t: Table, r: Row, d: set<Id>) {
    r.parent.Some? && r.parent.value in d && r.parent.value in t && t[r.parent.value].Live()
  }

  // Everything directly in a live folder of `d` is live.
  ghost predicate Complete(s: State, d: set<Id>) {
    && (forall i :: i in s.folders && UnderLive(s.folders, s.folders[i], d) ==> s.folders[i].Live())
    && (forall i :: i in s.files && UnderLive(s.folders, s.files[i], d) ==> s.files[i].Live())
  }

  // ----- the guard, read off the state before the step

  // RestoreFolder is going to be accepted.
  ghost predicate FolderAccepted(c: Config, s: State, id: Id, now: nat) {
    && id in s.folders && !s.folders[id].Live() && s.folders[id].status != Restoring
    && now - s.folders[id].deletedAt.value <= c.retention
    && !ParentConflict(s.folders, s.folders[id].parent)
    && !NameTaken(s.folders, s.folders[id].name, s.folders[id].parent, id)
  }

  // RestoreFile is going to be accepted.
  ghost predicate FileAccepted(s: State, id: Id, logOk: bool) {
    && id in s.files && !s.files[id].Live() && s.files[id].status != Restoring
    && !ParentConflict(s.folders, s.files[id].parent)
    && !NameTaken(s.files, s.files[id].name, s.files[id].parent, id) && logOk
  }

  // The ancestors of `d` that come back leave nothing behind: all their other trashed children come
  // back in the same call.
  ghost predicate NothingLeftBehind(s: State, start: Option<Id>, files: set<Id>, d: set<Id>) {
    NothingLeftBelow(s, TrashedAncestors(s.folders, start), files, d)
  }

  ghost predicate NothingLeftBelow(s: State, folders: set<Id>, files: set<Id>, d: set<Id>) {
    forall a :: a in folders && a in d ==>
      TrashedChildren(s.folders, a) <= folders && TrashedChildren(s.files, a) <= files
  }

  ghost predicate BottomUpGuard(c: Config, s: State, step: Step, d: set<Id>) {
    match step
    case DoTrashFolder(id, _, _) => id in s.folders && s.folders[id].Live() ==> !UnderLive(s.folders, s.folders[id], d)
    case DoTrashFile(id, _, _, logOk) =>
      id in s.files && s.files[id].Live() && s.files[id].status == Uploaded && id in s.objects && logOk ==>
        !UnderLive(s.folders, s.files[id], d)
    case DoRestoreFolder(id, _, now) =>
      FolderAccepted(c, s, id, now) ==> NothingLeftBehind(s, s.folders[id].parent, {}, d)
    case DoRestoreFile(id, logOk) =>
      FileAccepted(s, id, logOk) ==> NothingLeftBehind(s, s.files[id].parent, {id}, d)
    case _ => true
  }

  // ----- changes that need no guard

  ghost predicate NoTrashIn(s: State, p: Id) {
    TrashedChildren(s.folders, p) == {} && TrashedChildren(s.files, p) == {}
  }

  // What is in the trash was there before and has not been moved into a folder.
  ghost predicate NoNewTrash(t: Table, t': Table) {
    forall i :: i in t' && !t'[i].Live() ==>
      i in t && !t[i].Live() && (t'[i].parent == t[i].parent || t'[i].parent == None)
  }

  // And a folder that has come to life has nothing in the trash.
  ghost predicate NothingOpened(s: State, s': State) {
    && NoNewTrash(s.folders, s'.folders) && NoNewTrash(s.files, s'.files)
    && forall p :: p in s'.folders && s'.folders[p].Live() ==>
         (p in s.folders && s.folders[p].Live()) || NoTrashIn(s', p)
  }

  lemma NothingOpenedComplete(s: State, s': State, d: set<Id>)
    requires Complete(s, d) && NothingOpened(s, s')
    ensures Complete(s', d)
  {
    forall i | i in s'.folders && UnderLive(s'.folders, s'.folders[i], d)
      ensures s'.folders[i].Live()
    {
      var p := s'.folders[i].parent.value;
      assert !s'.folders[i].Live() ==> i in TrashedChildren(s'.folders, p);
    }
    forall i | i in s'.files && UnderLive(s'.folders, s'.files[i], d)
      ensures s'.files[i].Live()
    {
      var p := s'.files[i].parent.value;
      assert !s'.files[i].Live() ==> i in TrashedChildren(s'.files, p);
    }
  }

  lemma SameTables(s: State, s': State, d: set<Id>)
    requires s'.folders == s.folders && s'.files == s.files
    ensures Complete(s', d) <==> Complete(s, d)
  {
  }

  lemma CreationOpensNothing(s: State, id: Id, name: string, parent: Option<Id>)
    requires Fresh(s, id)
    ensures NothingOpened(s, CreateFolder(s, id, name, parent).0)
  {
    assert NoTrashIn(s.(folders := s.folders[id := Row(name, parent, Unset, None, None)]), id);
    hide NameTaken, NoTrashIn, Fresh;
  }

  lemma UploadOpensNothing(s: State, id: Id, name: string, parent: Option<Id>)
    ensures NothingOpened(s, UploadFile(s, id, name, parent).0)
  {
    hide NameTaken, NoTrashIn;
  }

  lemma OtherCallsOpenNothing(s: State, id: Id, user: Id, name: string)
    ensures NothingOpened(s, UpdateFolder(s, id, name).0) && NothingOpened(s, PurgeFolder(s, id, user).0)
  {
    hide NameTaken, NoTrashIn;
  }

  lemma FileCallsOpenNothing(s: State, id: Id, logOk: bool)
    ensures NothingOpened(s, PurgeFile(s, id, logOk).0) && NothingOpened(s, ObjectCreated(s, id))
  {
    hide MarkerNotices, ObjectNotices, NoTrashIn;
  }

  lemma NoticeOpensNothing(s: State, notice: Notice, again: bool)
    ensures NothingOpened(s, Notified(s, notice, again))
  {
    hide ObjectNotices, TrashedChildren;
  }

  lemma DropOpensNothing(s: State, gone: set<Id>, files: set<Id>, schema: bool)
    ensures var s' := DropFolders(s, gone, schema);
            NothingOpened(s, s') && NothingOpened(s, s'.(files := s'.files - files))
  {
    hide TrashedChildren;
  }

  lemma PurgeComplete(schema: bool, s: State, id: Id, fs: set<Id>, gs: set<Id>, d: set<Id>)
    requires Complete(s, d)
    ensures Complete(Purge(schema, s, id, fs, gs).0, d)
  {
    hide Complete, Purge, DropFolders, ObjectNotices, MarkerNotices;
    var s1 := DropFolders(s, fs, schema);
    var s2 := s1.(files := s1.files - gs);
    var s3 := RemoveObjects(s2, gs);
    var s4 := Unmark(s3, {FolderMarker(id)});
    DropOpensNothing(s, fs, gs, schema);
    DropOpensNothing(s4, {id}, {}, schema);
    hide NothingOpened;
    NothingOpenedComplete(s, s2, d);
    SameTables(s2, s3, d);
    SameTables(s3, s4, d);
    NothingOpenedComplete(s4, DropFolders(s4, {id}, schema), d);
    PurgeIsOneOf(schema, s, id, fs, gs);
  }

  // A FolderRestore brings files to life, and the folder itself only when nothing in it is left.
  lemma RestoreComplete(schema: bool, s: State, id: Id, user: Id, fs: set<Id>, gs: set<Id>, d: set<Id>)
    requires WellFormed(s) && Complete(s, d)
    ensures Complete(Restore(schema, s, id, user, fs, gs).0, d)
  {
    hide Complete, NameTaken, Fits, MarkerNotices, Acyclic, RestoresPending;
    var p := ProcessChildren(schema, s, id, user, fs, gs);
    if p.Some? {
      var s1 := p.value;
      ChildrenOpenNothing(schema, s, id, user, fs, gs);
      NothingOpenedComplete(s, s1, d);
      if !ChildrenLeft(s1, id) && s1.folders[id].status == Restoring {
        NoTrashLeft(schema, s, id, user, fs, gs);
        hide ProcessChildren, WellFormed, TrashedChildren, ChildrenLeft;
        RevivalOpensNothing(s1, id);
        NothingOpenedComplete(s1, Finalize(s1, id), d);
      }
    }
  }

  lemma ChildrenOpenNothing(schema: bool, s: State, id: Id, user: Id, fs: set<Id>, gs: set<Id>)
    requires ProcessChildren(schema, s, id, user, fs, gs).Some?
    ensures NothingOpened(s, ProcessChildren(schema, s, id, user, fs, gs).value)
  {
    hide NameTaken, Fits, MarkerNotices, TrashedChildren;
  }

  lemma NoTrashLeft(schema: bool, s: State, id: Id, user: Id, fs: set<Id>, gs: set<Id>)
    requires WellFormed(s)
    requires var p := ProcessChildren(schema, s, id, user, fs, gs); p.Some? && !ChildrenLeft(p.value, id)
    ensures NoTrashIn(ProcessChildren(schema, s, id, user, fs, gs).value, id)
  {
    hide NameTaken, Fits, MarkerNotices, RestoresPending;
    var s1 := ProcessChildren(schema, s, id, user, fs, gs).value;
    forall i | i in TrashedChildren(s1.folders, id)
      ensures i in RecoverableChildren(s1.folders, id) || i in RestoringChildren(s1.folders, id)
    {
      assert GoodFolder(s.folders[i]);
    }
    forall i | i in TrashedChildren(s1.files, id)
      ensures i in RecoverableChildren(s1.files, id)
    {
      assert GoodFile(s.files[i]);
    }
  }

  lemma RevivalOpensNothing(s: State, id: Id)
    requires id in s.folders && NoTrashIn(s, id)
    ensures NothingOpened(s, Finalize(s, id))
  {
    hide MarkerNotices;
    var s' := Finalize(s, id);
    assert TrashedChildren(s'.folders, id) <= TrashedChildren(s.folders, id);
  }

  // What a FolderTrash puts in the trash belongs into a folder that is there already.
  lemma TrashComplete(limit: nat, s: State, id: Id, user: Id, now: nat, fs: set<Id>, gs: set<Id>, d: set<Id>)
    requires TrashPicks(limit, s, id, fs, gs) && Complete(s, d)
    ensures Complete(Trash(s, id, user, now, fs, gs).0, d)
  {
    var s' := Trash(s, id, user, now, fs, gs).0;
    if id in s.folders && !s.folders[id].Live() {
      assert forall i :: i in fs ==> s.folders[i].parent == Some(id);
      assert forall i :: i in gs ==> s.files[i].parent == Some(id);
      assert !s'.folders[id].Live();
    }
  }

  // ----- calls that need the guard

  lemma TrashFolderComplete(s: State, id: Id, user: Id, now: nat, d: set<Id>)
    requires WellFormed(s) && Acyclic(s.folders) && Complete(s, d)
    ensures Complete(TrashFolder(s, id, user, now).0, d) <==>
            (id in s.folders && s.folders[id].Live() ==> !UnderLive(s.folders, s.folders[id], d))
  {
    var s' := TrashFolder(s, id, user, now).0;
    if id in s.folders && s.folders[id].Live() {
      assert GoodFolder(s.folders[id]);
      NotItsOwnParent(s.folders, id);
      assert UnderLive(s'.folders, s'.folders[id], d) <==> UnderLive(s.folders, s.folders[id], d);
    }
  }

  lemma NotItsOwnParent(t: Table, id: Id)
    requires Acyclic(t) && id in t
    ensures t[id].parent != Some(id)
  {
    var rank :| Ranks(t, rank);
  }

  lemma TrashFileComplete(s: State, id: Id, user: Id, now: nat, logOk: bool, d: set<Id>)
    requires Complete(s, d)
    ensures Complete(TrashFile(s, id, user, now, logOk).0, d) <==>
            (id in s.files && s.files[id].Live() && s.files[id].status == Uploaded && id in s.objects && logOk ==>
               !UnderLive(s.folders, s.files[id], d))
  {
    var s' := TrashFile(s, id, user, now, logOk).0;
    if id in s.files {
      assert UnderLive(s'.folders, s'.files[id], d) <==> UnderLive(s.folders, s.files[id], d);
    }
  }

  // The tables after a call that revives the ancestors `above` and the files `back`.
  ghost predicate CameBack(s: State, s': State, above: set<Id>, back: set<Id>) {
    && s'.folders.Keys == s.folders.Keys && s'.files.Keys == s.files.Keys
    && (forall i :: i in s.folders ==> s'.folders[i].parent == s.folders[i].parent
                                       && (s'.folders[i].Live() <==> s.folders[i].Live() || i in above))
    && (forall i :: i in s.files ==> s'.files[i].parent == s.files[i].parent
                                     && (s'.files[i].Live() <==> s.files[i].Live() || i in back))
  }

  lemma CameBackComplete(s: State, s': State, above: set<Id>, back: set<Id>, d: set<Id>)
    requires Complete(s, d) && CameBack(s, s', above, back) && above <= s.folders.Keys
    requires forall a :: a in above ==> !s.folders[a].Live()
    ensures Complete(s', d) <==> NothingLeftBelow(s, above, back, d)
  {
    if Complete(s', d) {
      forall a, i | a in above && a in d && i in TrashedChildren(s.folders, a)
        ensures i in above
      {
        assert UnderLive(s'.folders, s'.folders[i], d);
      }
      forall a, i | a in above && a in d && i in TrashedChildren(s.files, a)
        ensures i in back
      {
        assert UnderLive(s'.folders, s'.files[i], d);
      }
    }
    if NothingLeftBelow(s, above, back, d) {
      NoneLeft(s, s', above, back, d);
    }
  }

  lemma NoneLeft(s: State, s': State, above: set<Id>, back: set<Id>, d: set<Id>)
    requires Complete(s, d) && CameBack(s, s', above, back)
    requires NothingLeftBelow(s, above, back, d)
    ensures Complete(s', d)
  {
    forall i | i in s'.folders && UnderLive(s'.folders, s'.folders[i], d)
      ensures s'.folders[i].Live()
    {
      var p := s.folders[i].parent.value;
      if !s.folders[i].Live() && p in above {
        assert i in TrashedChildren(s.folders, p);
      }
    }
    forall i | i in s'.files && UnderLive(s'.folders, s'.files[i], d)
      ensures s'.files[i].Live()
    {
      var p := s.files[i].parent.value;
      if !s.files[i].Live() && p in above {
        assert i in TrashedChildren(s.files, p);
      }
    }
  }

  lemma RestoreFolderComplete(c: Config, s: State, id: Id, user: Id, now: nat, d: set<Id>)
    requires Acyclic(s.folders) && Complete(s, d)
    ensures Complete(RestoreFolder(s, id, user, now, c.retention).0, d) <==>
            (FolderAccepted(c, s, id, now) ==> NothingLeftBehind(s, s.folders[id].parent, {}, d))
  {
    var s' := RestoreFolder(s, id, user, now, c.retention).0;
    AcceptedFolder(c, s, id, user, now);
    if FolderAccepted(c, s, id, now) {
      var above := TrashedAncestors(s.folders, s.folders[id].parent);
      FolderCameBack(c, s, id, user, now);
      hide RestoreFolder, FolderAccepted, Complete, CameBack, OnChain;
      CameBackComplete(s, s', above, {}, d);
    }
  }

  lemma AcceptedFolder(c: Config, s: State, id: Id, user: Id, now: nat)
    requires Acyclic(s.folders)
    ensures RestoreFolder(s, id, user, now, c.retention).1 == Accepted <==> FolderAccepted(c, s, id, now)
    ensures !FolderAccepted(c, s, id, now) ==> RestoreFolder(s, id, user, now, c.retention).0 == s
  {
    if id in s.folders && !ParentConflict(s.folders, s.folders[id].parent) {
      RevivedAboveDoNotClash(s.folders, TrashedAncestors(s.folders, s.folders[id].parent), id);
    }
    hide NameTaken, ParentConflict, TrashedAncestors, MarkerNotices;
  }

  lemma FolderCameBack(c: Config, s: State, id: Id, user: Id, now: nat)
    requires Acyclic(s.folders) && FolderAccepted(c, s, id, now)
    ensures CameBack(s, RestoreFolder(s, id, user, now, c.retention).0,
                     TrashedAncestors(s.folders, s.folders[id].parent), {})
  {
    AcceptedFolder(c, s, id, user, now);
    SubtreeStep(s.folders, id, id);
    if OnChain(s.folders, s.folders[id].parent, id) {
      AboveIsNotBelow(s.folders, id, id);
    }
    hide NameTaken, ParentConflict, OnChain, MarkerNotices;
  }

  lemma RestoreFileComplete(s: State, id: Id, logOk: bool, d: set<Id>)
    requires Complete(s, d)
    ensures Complete(RestoreFile(s, id, logOk).0, d) <==>
            (FileAccepted(s, id, logOk) ==> NothingLeftBehind(s, s.files[id].parent, {id}, d))
  {
    var s' := RestoreFile(s, id, logOk).0;
    AcceptedFile(s, id, logOk);
    if FileAccepted(s, id, logOk) {
      var above := TrashedAncestors(s.folders, s.files[id].parent);
      hide RestoreFile, FileAccepted, Complete, CameBack, OnChain;
      CameBackComplete(s, s', above, {id}, d);
    }
  }

  lemma AcceptedFile(s: State, id: Id, logOk: bool)
    ensures RestoreFile(s, id, logOk).1 == Accepted <==> FileAccepted(s, id, logOk)
    ensures !FileAccepted(s, id, logOk) ==> RestoreFile(s, id, logOk).0 == s
    ensures FileAccepted(s, id, logOk) ==>
              CameBack(s, RestoreFile(s, id, logOk).0, TrashedAncestors(s.folders, s.files[id].parent), {id})
  {
    hide NameTaken, ParentConflict, OnChain, MarkerNotices;
  }

  // ----- every step

  lemma AckComplete(e: Event, result: (State, bool), d: set<Id>)
    ensures Complete(Handle(e, result), d) <==> Complete(result.0, d)
  {
    SameTables(result.0, Handle(e, result), d);
  }

  // Everything directly in a live folder of `d` stays live over a step if and only if the step trashes
  // nothing there, and brings back an ancestor of `d` only with all that it holds.
  lemma CompleteKept(c: Config, s: State, step: Step, d: set<Id>)
    requires WellFormed(s) && Acyclic(s.folders) && Complete(s, d) && Enabled(c, s, step)
    ensures Complete(Apply(c, s, step), d) <==> BottomUpGuard(c, s, step, d)
  {
    hide WellFormed, Acyclic, Complete, NothingOpened, UnderLive, Handle, CreateFolder, UpdateFolder, TrashFolder,
      RestoreFolder, PurgeFolder, UploadFile, TrashFile, RestoreFile, PurgeFile, ObjectCreated, Trash, Restore, Purge,
      Notified, Fresh, TrashPicks, RestorePicks, PurgePicks, FolderAccepted, FileAccepted, NothingLeftBehind;
    var s' := Apply(c, s, step);
    match step
    case DoCreateFolder(id, name, parent) =>
      CreationOpensNothing(s, id, name, parent);
      NothingOpenedComplete(s, s', d);
    case DoUpdateFolder(id, name) =>
      OtherCallsOpenNothing(s, id, 0, name);
      NothingOpenedComplete(s, s', d);
    case DoTrashFolder(id, user, now) => TrashFolderComplete(s, id, user, now, d);
    case DoRestoreFolder(id, user, now) => RestoreFolderComplete(c, s, id, user, now, d);
    case DoPurgeFolder(id, user) =>
      OtherCallsOpenNothing(s, id, user, "");
      NothingOpenedComplete(s, s', d);
    case DoUploadFile(id, name, parent) =>
      UploadOpensNothing(s, id, name, parent);
      NothingOpenedComplete(s, s', d);
    case DoTrashFile(id, user, now, logOk) => TrashFileComplete(s, id, user, now, logOk, d);
    case DoRestoreFile(id, logOk) => RestoreFileComplete(s, id, logOk, d);
    case DoPurgeFile(id, logOk) =>
      FileCallsOpenNothing(s, id, logOk);
      NothingOpenedComplete(s, s', d);
    case DeliverTrash(id, user, now, fs, gs) =>
      TrashComplete(c.limit, s, id, user, now, fs, gs, d);
      AckComplete(FolderTrash(id, user), Trash(s, id, user, now, fs, gs), d);
    case DeliverRestore(id, user, fs, gs) =>
      RestoreComplete(c.schema, s, id, user, fs, gs, d);
      AckComplete(FolderRestore(id, user), Restore(c.schema, s, id, user, fs, gs), d);
    case DeliverPurge(id, user, fs, gs) =>
      PurgeComplete(c.schema, s, id, fs, gs, d);
      AckComplete(FolderPurge(id, user), Purge(c.schema, s, id, fs, gs), d);
    case StoreObject(id) => SameTables(s, s', d);
    case NotifyCreated(id) =>
      FileCallsOpenNothing(s, id, true);
      NothingOpenedComplete(s, s', d);
    case MarkerExpires(marker) => SameTables(s, s', d);
    case NotifyRemoved(notice, again) =>
      NoticeOpensNothing(s, notice, again);
      NothingOpenedComplete(s, s', d);
  }

  // ----- runs

  ghost function CompleteOf(d: set<Id>): State -> bool {
    s => Complete(s, d)
  }

  ghost function BottomUpGuardOf(c: Config, d: set<Id>): (State, Step) -> bool {
    (s, step) => BottomUpGuard(c, s, step, d)
  }

  lemma CompleteStep(c: Config, s: State, step: Step, d: set<Id>)
    requires Sound(s) && Complete(s, d) && Enabled(c, s, step)
    ensures Complete(Apply(c, s, step), d) <==> BottomUpGuard(c, s, step, d)
  {
    hide WellFormed, Acyclic, Distinct, Complete, BottomUpGuard, Apply, Enabled;
    CompleteKept(c, s, step, d);
  }

  // All along a run exactly when every step meets the guard.
  lemma {:induction false} CompleteRuns(c: Config, s: State, steps: seq<Step>, d: set<Id>)
    requires Sound(s) && Complete(s, d) && Run(c, s, steps)
    ensures Throughout(c, s, steps, CompleteOf(d)) <==> Guarded(c, s, steps, BottomUpGuardOf(c, d))
    ensures Guarded(c, s, steps, BottomUpGuardOf(c, d)) ==> Complete(After(c, s, steps), d) && Sound(After(c, s, steps))
    decreases |steps|
  {
    hide Sound, Complete, BottomUpGuard, Apply, Enabled;
    if steps != [] {
      SoundStep(c, s, steps[0]);
      CompleteStep(c, s, steps[0], d);
      if BottomUpGuard(c, s, steps[0], d) {
        CompleteRuns(c, Apply(c, s, steps[0]), steps[1..], d);
      }
    }
  }

  // Only these four calls can break it.
  predicate NeedsGuard(step: Step) {
    step.DoTrashFolder? || step.DoTrashFile? || step.DoRestoreFolder? || step.DoRestoreFile?
  }

  lemma {:induction false} OtherStepsAreFree(c: Config, s: State, steps: seq<Step>, d: set<Id>)
    requires forall k :: 0 <= k < |steps| ==> !NeedsGuard(steps[k])
    ensures Guarded(c, s, steps, BottomUpGuardOf(c, d))
    decreases |steps|
  {
    hide Apply;
    if steps != [] {
      assert BottomUpGuard(c, s, steps[0], d);
      OtherStepsAreFree(c, Apply(c, s, steps[0]), steps[1..], d);
    }
  }

  // ----- what it says about whole subtrees

  // Everything at or below `x` is live, at any depth.
  ghost predicate AllLive(s: State, x: Id) {
    && (forall y :: y in Subtree(s.folders, x) ==> s.folders[y].Live())
    && (forall f :: f in s.files && Below(s.files[f], Subtree(s.folders, x)) ==> s.files[f].Live())
  }

  lemma {:induction false} LiveBelow(s: State, x: Id, d: set<Id>, y: Id, n: nat)
    requires Complete(s, d) && x in s.folders && s.folders[x].Live() && Subtree(s.folders, x) <= d
    requires y in s.folders && Climb(s.folders, Some(y), n) == Some(x)
    ensures s.folders[y].Live()
    decreases n
  {
    if n > 0 {
      var p := s.folders[y].parent.value;
      assert Climb(s.folders, Some(p), n - 1) == Some(x);
      assert OnChain(s.folders, Some(p), x);
      LiveBelow(s, x, d, p, n - 1);
      assert UnderLive(s.folders, s.folders[y], d);
    }
  }

  lemma LiveMeansAllLive(s: State, x: Id, d: set<Id>)
    requires Complete(s, d) && x in s.folders && s.folders[x].Live() && Subtree(s.folders, x) <= d
    ensures AllLive(s, x)
  {
    forall y | y in Subtree(s.folders, x)
      ensures s.folders[y].Live()
    {
      var n: nat :| Climb(s.folders, Some(y), n) == Some(x);
      LiveBelow(s, x, d, y, n);
    }
    forall f | f in s.files && Below(s.files[f], Subtree(s.folders, x))
      ensures s.files[f].Live()
    {
      assert UnderLive(s.folders, s.files[f], d);
    }
  }

  // An accepted RestoreFolder of a wholly trashed subtree leaves none of it live, whatever else is
  // going on in the bucket. `d` may hold ids of folders that are still to be created.
  lemma NothingLiveYet(s: State, root: Id, user: Id, now: nat, retention: nat, d: set<Id>)
    requires Acyclic(s.folders) && WhollyRecoverable(s, root) && d * s.folders.Keys <= Subtree(s.folders, root)
    requires RestoreFolder(s, root, user, now, retention).1.Accepted?
    ensures Complete(RestoreFolder(s, root, user, now, retention).0, d)
  {
    var s' := RestoreFolder(s, root, user, now, retention).0;
    AcceptedRestore(s, root, user, now, retention);
    hide RestoreFolder, Subtree, Acyclic;
    forall p | p in d && p in s'.folders
      ensures !s'.folders[p].Live()
    {
      assert p in d * s.folders.Keys;
    }
  }

  // RestoreFolder on a wholly trashed subtree, then anything that meets the guard: whatever folder of
  // the subtree is live then has all that is below it live, at any depth; so does the root as soon as
  // it is live.
  lemma BroughtBackWhole(c: Config, s: State, root: Id, user: Id, now: nat, steps: seq<Step>, d: set<Id>, x: Id)
    requires Sound(s) && WhollyRecoverable(s, root) && d * s.folders.Keys <= Subtree(s.folders, root)
    requires RestoreFolder(s, root, user, now, c.retention).1.Accepted?
    requires var s1 := RestoreFolder(s, root, user, now, c.retention).0;
             Run(c, s1, steps) && Guarded(c, s1, steps, BottomUpGuardOf(c, d))
    ensures var s2 := After(c, RestoreFolder(s, root, user, now, c.retention).0, steps);
            && Sound(s2) && Complete(s2, d)
            && (x in s2.folders && s2.folders[x].Live() && Subtree(s2.folders, x) <= d ==> AllLive(s2, x))
  {
    var s1 := RestoreFolder(s, root, user, now, c.retention).0;
    assert Sound(s1) by {
      hide WellFormed, Acyclic, Distinct, RestoreFolder;
      SoundStep(c, s, DoRestoreFolder(root, user, now));
    }
    NothingLiveYet(s, root, user, now, c.retention, d);
    hide RestoreFolder, Sound, Complete, Run, After, Guarded, Apply, AllLive, WhollyRecoverable, Subtree, BottomUpGuard;
    CompleteRuns(c, s1, steps, d);
    var s2 := After(c, s1, steps);
    if x in s2.folders && s2.folders[x].Live() && Subtree(s2.folders, x) <= d {
      LiveMeansAllLive(s2, x, d);
    }
  }

  // When the delivery that brings the root back is acknowledged, after any such run, the whole of its
  // subtree is live.
  lemma AcknowledgedMeansWhole(c: Config, s: State, root: Id, user: Id, now: nat, steps: seq<Step>, e: Step, d: set<Id>)
    requires Sound(s) && WhollyRecoverable(s, root) && d * s.folders.Keys <= Subtree(s.folders, root)
    requires RestoreFolder(s, root, user, now, c.retention).1.Accepted?
    requires var s1 := RestoreFolder(s, root, user, now, c.retention).0;
             Run(c, s1, steps) && Guarded(c, s1, steps, BottomUpGuardOf(c, d))
    requires var s2 := After(c, RestoreFolder(s, root, user, now, c.retention).0, steps);
             && e.DeliverRestore? && e.id == root && Enabled(c, s2, e)
             && root in s2.folders && s2.folders[root].status == Restoring && Subtree(s2.folders, root) <= d
             && Restore(c.schema, s2, root, e.user, e.folderBatch, e.fileBatch).1
    ensures var s3 := Apply(c, After(c, RestoreFolder(s, root, user, now, c.retention).0, steps), e);
            root in s3.folders && s3.folders[root].Live() && AllLive(s3, root)
  {
    var s2 := After(c, RestoreFolder(s, root, user, now, c.retention).0, steps);
    var s3 := Apply(c, s2, e);
    assert root in s3.folders && s3.folders[root].Live() && SameLinks(s2.folders, s3.folders) by {
      AcknowledgedIsLive(c, s2, e);
    }
    SubtreeSame(s2.folders, s3.folders, root);
    hide RestoreFolder, Restore, Sound, Complete, Run, After, Guarded, Apply, Enabled, AllLive, WhollyRecoverable,
      Subtree, SameLinks;
    BroughtBackWhole(c, s, root, user, now, steps, d, root);
    assert BottomUpGuard(c, s2, e, d);
    CompleteStep(c, s2, e, d);
    LiveMeansAllLive(s3, root, d);
  }

  lemma AcknowledgedIsLive(c: Config, s: State, e: Step)
    requires e.DeliverRestore? && e.id in s.folders && s.folders[e.id].status == Restoring
    requires Restore(c.schema, s, e.id, e.user, e.folderBatch, e.fileBatch).1
    ensures var s' := Apply(c, s, e);
            e.id in s'.folders && s'.folders[e.id].Live() && SameLinks(s.folders, s'.folders)
  {
    hide NameTaken, Fits, MarkerNotices, RecoverableChildren, RestoringChildren;
    assert Apply(c, s, e)
        == Handle(FolderRestore(e.id, e.user), Restore(c.schema, s, e.id, e.user, e.folderBatch, e.fileBatch));
  }
}
