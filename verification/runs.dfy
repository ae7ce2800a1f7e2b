// Safety over whole runs of the system, in any interleaving.
module Runs {
  import opened Store
  import opened Protocol
  import opened Basics
  import opened Tables
  import opened ParentFolders
  import opened BucketFolder
  import opened BucketFile
  import opened FolderTrashEvent
  import opened FolderRestoreEvent
  import opened FolderPurgeEvent
  import opened Invariants
  import opened Names
  import opened DataSafety
  import opened TrashCover
  import opened StaleNotices
  import opened MarkerLaws

  // The property holds in every state of the run.
  ghost predicate Throughout(c: Config, s: State, steps: seq<Step>, p: State -> bool)
    decreases |steps|
  {
    p(s) && (steps == [] || Throughout(c, Apply(c, s, steps[0]), steps[1..], p))
  }

  // The guard holds of every step of the run.
  ghost predicate Guarded(c: Config, s: State, steps: seq<Step>, guard: (State, Step) -> bool)
    decreases |steps|
  {
    steps == [] || (guard(s, steps[0]) && Guarded(c, Apply(c, s, steps[0]), steps[1..], guard))
  }

  // What holds in every state without any guard.
  ghost predicate Sound(s: State) {
    WellFormed(s) && Acyclic(s.folders) && Distinct(s.folders) && Apart(s)
  }

  lemma SoundStep(c: Config, s: State, step: Step)
    requires Sound(s) && Enabled(c, s, step)
    ensures Sound(Apply(c, s, step))
  {
    hide WellFormed, Acyclic, Distinct, Apart, Apply, Enabled;
    StatusKept(c, s, step);
    LinksKept(c, s, step);
    NamesKept(c, s, step);
    ApartStep(c, s, step);
  }

  lemma {:induction false} SoundRuns(c: Config, s: State, steps: seq<Step>)
    requires Sound(s) && Run(c, s, steps)
    ensures Throughout(c, s, steps, Sound)
    decreases |steps|
  {
    hide Sound, Apply, Enabled;
    if steps != [] {
      SoundStep(c, s, steps[0]);
      SoundRuns(c, Apply(c, s, steps[0]), steps[1..]);
    }
  }

  ghost predicate FileNamesDiffer(s: State) {
    Distinct(s.files)
  }

  // With the schema no guard is needed.
  ghost function FileNamesGuardOf(c: Config): (State, Step) -> bool {
    (s, step) => c.schema || FileNamesGuard(s, step)
  }

  lemma {:induction false} FileNamesRuns(c: Config, s: State, steps: seq<Step>)
    requires FileNamesDiffer(s) && Run(c, s, steps)
    ensures Throughout(c, s, steps, FileNamesDiffer) <==> Guarded(c, s, steps, FileNamesGuardOf(c))
    ensures c.schema ==> Throughout(c, s, steps, FileNamesDiffer)
    decreases |steps|
  {
    hide Apply, Enabled, Distinct, FileNamesGuard;
    if steps != [] {
      FileNamesKept(c, s, steps[0]);
      if c.schema || FileNamesGuard(s, steps[0]) {
        FileNamesRuns(c, Apply(c, s, steps[0]), steps[1..]);
      }
    }
  }

  lemma StoredStep(c: Config, s: State, step: Step)
    requires Sound(s) && Stored(s) && Enabled(c, s, step)
    ensures Stored(Apply(c, s, step)) <==> StorageGuard(s, step)
  {
    assert TrashedIsUploaded(s.files);
    hide Sound, Apply, Enabled, Stored, StorageGuard, TrashedIsUploaded;
    StoredKept(c, s, step);
  }

  // Every file that is not still uploading has its object all along exactly when every step meets
  // the guard.
  lemma {:induction false} StoredRuns(c: Config, s: State, steps: seq<Step>)
    requires Sound(s) && Stored(s) && Run(c, s, steps)
    ensures Throughout(c, s, steps, Stored) <==> Guarded(c, s, steps, StorageGuard)
    decreases |steps|
  {
    hide Sound, Stored, StorageGuard, Apply, Enabled;
    if steps != [] {
      SoundStep(c, s, steps[0]);
      StoredStep(c, s, steps[0]);
      if StorageGuard(s, steps[0]) {
        StoredRuns(c, Apply(c, s, steps[0]), steps[1..]);
      }
    }
  }

  ghost function CoverGuardOf(c: Config): (State, Step) -> bool {
    (s, step) => CoverGuard(c, s, step)
  }

  lemma CoverStep(c: Config, s: State, step: Step)
    requires Sound(s) && Covered(s) && Enabled(c, s, step)
    ensures Covered(Apply(c, s, step)) <==> CoverGuard(c, s, step)
  {
    hide WellFormed, Acyclic, Distinct, Apart, Apply, Enabled, Covered, CoverGuard;
    CoverKept(c, s, step);
  }

  // Every trashed folder with a live child has its FolderTrash pending all along exactly when every
  // step meets the guard.
  lemma {:induction false} CoverRuns(c: Config, s: State, steps: seq<Step>)
    requires Sound(s) && Covered(s) && Run(c, s, steps)
    ensures Throughout(c, s, steps, Covered) <==> Guarded(c, s, steps, CoverGuardOf(c))
    decreases |steps|
  {
    hide Sound, Covered, CoverGuard, Apply, Enabled;
    if steps != [] {
      SoundStep(c, s, steps[0]);
      CoverStep(c, s, steps[0]);
      if CoverGuard(c, s, steps[0]) {
        CoverRuns(c, Apply(c, s, steps[0]), steps[1..]);
      }
    }
  }

  // No marker of a file is put while a report about an earlier one is pending, all along exactly when
  // every step meets the guard; and then no report destroys a file whose marker is in place.
  lemma {:induction false} StaleRuns(c: Config, s: State, steps: seq<Step>)
    requires Sound(s) && NoStale(s) && Run(c, s, steps)
    ensures Throughout(c, s, steps, NoStale) <==> Guarded(c, s, steps, StaleGuard)
    ensures Guarded(c, s, steps, StaleGuard) ==> Guarded(c, s, steps, NoEarlyLoss)
    decreases |steps|
  {
    hide WellFormed, Acyclic, Distinct, Apart, NoStale, StaleGuard, NoEarlyLoss, Apply, Enabled;
    if steps != [] {
      SoundStep(c, s, steps[0]);
      NoStaleKept(c, s, steps[0]);
      NoStaleNoLoss(c, s, steps[0]);
      if StaleGuard(s, steps[0]) {
        StaleRuns(c, Apply(c, s, steps[0]), steps[1..]);
      }
    }
  }

  // What is live has no marker: folders all along, files exactly when every step meets the guard.
  lemma {:induction false} MarkerRuns(c: Config, s: State, steps: seq<Step>)
    requires LiveFoldersUnmarked(s) && LiveFilesUnmarked(s) && Run(c, s, steps)
    ensures Throughout(c, s, steps, LiveFoldersUnmarked)
    ensures Throughout(c, s, steps, LiveFilesUnmarked) <==> Guarded(c, s, steps, MarkerGuard)
    decreases |steps|
  {
    hide LiveFoldersUnmarked, LiveFilesUnmarked, MarkerGuard, Apply, Enabled;
    FolderMarkerRuns(c, s, steps);
    if steps != [] {
      LiveFoldersUnmarkedKept(c, s, steps[0]);
      LiveFilesUnmarkedKept(c, s, steps[0]);
      if MarkerGuard(s, steps[0]) {
        MarkerRuns(c, Apply(c, s, steps[0]), steps[1..]);
      }
    }
  }

  lemma {:induction false} FolderMarkerRuns(c: Config, s: State, steps: seq<Step>)
    requires LiveFoldersUnmarked(s) && Run(c, s, steps)
    ensures Throughout(c, s, steps, LiveFoldersUnmarked)
    decreases |steps|
  {
    hide LiveFoldersUnmarked, Apply, Enabled;
    if steps != [] {
      LiveFoldersUnmarkedKept(c, s, steps[0]);
      FolderMarkerRuns(c, Apply(c, s, steps[0]), steps[1..]);
    }
  }

  lemma EmptyIsSound()
    ensures Sound(EMPTY) && FileNamesDiffer(EMPTY) && Stored(EMPTY) && Covered(EMPTY) && NoStale(EMPTY)
    ensures LiveFoldersUnmarked(EMPTY) && LiveFilesUnmarked(EMPTY)
  {
    assert Ranks(EMPTY.folders, map[]);
  }

  // All of it for every run of a new bucket.
  lemma EveryRun(c: Config, steps: seq<Step>)
    requires Run(c, EMPTY, steps)
    ensures Throughout(c, EMPTY, steps, Sound)
    ensures Throughout(c, EMPTY, steps, FileNamesDiffer) <==> Guarded(c, EMPTY, steps, FileNamesGuardOf(c))
    ensures c.schema ==> Throughout(c, EMPTY, steps, FileNamesDiffer)
    ensures Throughout(c, EMPTY, steps, Stored) <==> Guarded(c, EMPTY, steps, StorageGuard)
    ensures Throughout(c, EMPTY, steps, Covered) <==> Guarded(c, EMPTY, steps, CoverGuardOf(c))
    ensures Throughout(c, EMPTY, steps, NoStale) <==> Guarded(c, EMPTY, steps, StaleGuard)
    ensures Guarded(c, EMPTY, steps, StaleGuard) ==> Guarded(c, EMPTY, steps, NoEarlyLoss)
    ensures Throughout(c, EMPTY, steps, LiveFoldersUnmarked)
    ensures Throughout(c, EMPTY, steps, LiveFilesUnmarked) <==> Guarded(c, EMPTY, steps, MarkerGuard)
  {
    EmptyIsSound();
    hide *;
    SoundRuns(c, EMPTY, steps);
    FileNamesRuns(c, EMPTY, steps);
    StoredRuns(c, EMPTY, steps);
    CoverRuns(c, EMPTY, steps);
    StaleRuns(c, EMPTY, steps);
    MarkerRuns(c, EMPTY, steps);
  }

  // ----- runs without RestoreFolder

  ghost predicate NoRestoreCall(s: State, step: Step) {
    !step.DoRestoreFolder?
  }

  // Nothing is being restored and no message asks for it.
  ghost predicate NothingRestoring(s: State) {
    && (forall i :: i in s.folders ==> s.folders[i].status != Restoring)
    && forall i, u :: FolderRestore(i, u) !in s.queue
  }

  lemma NothingRestoringKept(c: Config, s: State, step: Step)
    requires NothingRestoring(s) && Enabled(c, s, step) && NoRestoreCall(s, step)
    ensures NothingRestoring(Apply(c, s, step))
  {
    if LeavesFolders(step) && !step.DoPurgeFolder? {
      FoldersUntouched(c, s, step);
      QueueUntouched(c, s, step);
    } else {
      NoRestoreStarts(c, s, step);
    }
  }

  // None of these steps publishes or acknowledges.
  lemma QueueUntouched(c: Config, s: State, step: Step)
    requires LeavesFolders(step) && !step.DoPurgeFolder?
    ensures Apply(c, s, step).queue == s.queue
  {
  }

  lemma NoRestoreStarts(c: Config, s: State, step: Step)
    requires NothingRestoring(s) && Enabled(c, s, step) && NoRestoreCall(s, step)
    requires !LeavesFolders(step) || step.DoPurgeFolder?
    ensures NothingRestoring(Apply(c, s, step))
  {
    hide NothingRestoring, CreateFolder, UpdateFolder, TrashFolder, PurgeFolder, RestoreFile, Trash, Purge, Restore,
      Fresh, TrashPicks, RestorePicks, PurgePicks;
    match step
    case DoCreateFolder(id, name, parent) => CallsRestoreNothing(s, id, 0, 0, name, parent);
    case DoUpdateFolder(id, name) => CallsRestoreNothing(s, id, 0, 0, name, None);
    case DoTrashFolder(id, user, now) => CallsRestoreNothing(s, id, user, now, "", None);
    case DoPurgeFolder(id, user) => CallsRestoreNothing(s, id, user, 0, "", None);
    case DoRestoreFile(id, logOk) => RestoreFileRestoresNoFolder(s, id, logOk);
    case DeliverTrash(id, user, now, fs, gs) => TrashRestoresNothing(s, id, user, now, fs, gs);
    case DeliverRestore(id, user, fs, gs) => NoRestorePending(s, id, user);
    case DeliverPurge(id, user, fs, gs) => PurgeRestoresNothing(c.schema, s, id, user, fs, gs);
  }

  lemma NoRestorePending(s: State, id: Id, user: Id)
    requires NothingRestoring(s)
    ensures FolderRestore(id, user) !in s.queue
  {
  }

  lemma CallsRestoreNothing(s: State, id: Id, user: Id, now: nat, name: string, parent: Option<Id>)
    requires NothingRestoring(s)
    ensures NothingRestoring(CreateFolder(s, id, name, parent).0) && NothingRestoring(UpdateFolder(s, id, name).0)
    ensures NothingRestoring(TrashFolder(s, id, user, now).0) && NothingRestoring(PurgeFolder(s, id, user).0)
  {
    hide NameTaken;
  }

  lemma RestoreFileRestoresNoFolder(s: State, id: Id, logOk: bool)
    requires NothingRestoring(s)
    ensures NothingRestoring(RestoreFile(s, id, logOk).0)
  {
    hide NameTaken, MarkerNotices, ParentConflict;
  }

  lemma TrashRestoresNothing(s: State, id: Id, user: Id, now: nat, fs: set<Id>, gs: set<Id>)
    requires NothingRestoring(s)
    ensures NothingRestoring(Handle(FolderTrash(id, user), Trash(s, id, user, now, fs, gs)))
  {
  }

  lemma PurgeRestoresNothing(schema: bool, s: State, id: Id, user: Id, fs: set<Id>, gs: set<Id>)
    requires NothingRestoring(s)
    ensures NothingRestoring(Handle(FolderPurge(id, user), Purge(schema, s, id, fs, gs)))
  {
    var gone := PurgedFolders(schema, s, id, fs, gs);
    var s' := Purge(schema, s, id, fs, gs).0;
    SameQueue(schema, s, id, fs, gs);
    hide Purge;
    assert NothingRestoring(s');
  }

  lemma SameQueue(schema: bool, s: State, id: Id, fs: set<Id>, gs: set<Id>)
    ensures Purge(schema, s, id, fs, gs).0.queue == s.queue
  {
    PurgeIsOneOf(schema, s, id, fs, gs);
    hide Purge, Unlink, MarkerNotices, ObjectNotices;
  }

  lemma {:induction false} WithoutRestores(c: Config, s: State, steps: seq<Step>)
    requires NothingRestoring(s) && Run(c, s, steps) && Guarded(c, s, steps, NoRestoreCall)
    ensures Guarded(c, s, steps, CoverGuardOf(c)) && NothingRestoring(After(c, s, steps))
    decreases |steps|
  {
    if steps != [] {
      assert !steps[0].DeliverRestore? by {
        hide Apply;
      }
      NothingRestoringKept(c, s, steps[0]);
      hide Apply, Enabled, NothingRestoring;
      WithoutRestores(c, Apply(c, s, steps[0]), steps[1..]);
    }
  }

  lemma {:induction false} LastOfThroughout(c: Config, s: State, steps: seq<Step>, p: State -> bool)
    requires Throughout(c, s, steps, p)
    ensures p(After(c, s, steps))
    decreases |steps|
  {
    hide Apply;
    if steps != [] {
      LastOfThroughout(c, Apply(c, s, steps[0]), steps[1..], p);
    }
  }

  // In a new bucket, after any interleaving without RestoreFolder, once no FolderTrash is pending no
  // live folder or file has a trashed ancestor at any depth.
  lemma NothingLiveUnderTrash(c: Config, steps: seq<Step>)
    requires Run(c, EMPTY, steps) && Guarded(c, EMPTY, steps, NoRestoreCall)
    ensures var s := After(c, EMPTY, steps);
            (forall p :: p in s.folders ==> !TrashPending(s.queue, p)) ==>
              && (forall i :: i in s.folders && s.folders[i].Live() ==> LiveAbove(s.folders, s.folders[i].parent))
              && (forall i :: i in s.files && s.files[i].Live() ==> LiveAbove(s.folders, s.files[i].parent))
  {
    var s := After(c, EMPTY, steps);
    assert NothingRestoring(EMPTY);
    WithoutRestores(c, EMPTY, steps);
    assert Covered(s) by {
      hide *;
      EveryRun(c, steps);
      LastOfThroughout(c, EMPTY, steps, Covered);
    }
    hide Run, After, Guarded, Apply, Covered;
    if forall p :: p in s.folders ==> !TrashPending(s.queue, p) {
      assert Quiet(s);
      LiveItemsHaveLiveAncestors(s);
    }
  }
}
