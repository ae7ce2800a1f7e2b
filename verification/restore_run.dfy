// Restoring a subtree that nothing else disturbs: it comes back bottom-up, every delivery changes
// nothing or makes progress, and redelivery ends with everything live if and only if no name is in
// the way.
module RestoreRun {
  import opened Basics
  import opened Tables
  import opened Store
  import opened ParentFolders
  import opened BucketFolder
  import opened FolderRestoreEvent
  import opened Protocol
  import opened Names
  import opened TrashRun

  // ----- the picture during the run
  // `t0` and `g0` are the folder and file tables once everything is back, `d` is the subtree.

  predicate OnItsWay(r: Row) {
    !r.Live() && r.status == Restoring
  }

  ghost function Trashed(t: Table, d: set<Id>): set<Id> {
    set x | x in d && x in t && t[x].Recoverable()
  }

  ghost function OnTheirWay(t: Table, d: set<Id>): set<Id> {
    set x | x in d && x in t && OnItsWay(t[x])
  }

  ghost predicate PartlyRestored(t0: Table, t: Table, d: set<Id>) {
    && t.Keys == t0.Keys
    && forall x :: x in t ==>
         t[x] == t0[x] || (x in d && (t[x].Recoverable() || OnItsWay(t[x])) && t[x].Revive(Unset) == t0[x])
  }

  ghost predicate PartlyRestoredBelow(g0: Table, g: Table, d: set<Id>) {
    && g.Keys == g0.Keys
    && forall f :: f in g ==>
         g[f] == g0[f] || (Below(g0[f], d) && g[f].Recoverable() && g[f].Revive(Uploaded) == g0[f])
  }

  // Nothing directly in folder `x` still has to come back.
  ghost predicate Settled(t: Table, g: Table, x: Id) {
    RecoverableChildren(t, x) == {} && RestoringChildren(t, x) == {} && RecoverableChildren(g, x) == {}
  }

  ghost predicate LiveAreSettled(t: Table, g: Table, d: set<Id>) {
    forall x :: x in d && x in t && t[x].Live() ==> Settled(t, g, x)
  }

  // The tables once everything is back: closed downwards and live.
  ghost predicate Target(t0: Table, g0: Table, root: Id, d: set<Id>) {
    && root in t0 && d == Subtree(t0, root) && Acyclic(t0)
    && (forall x :: x in d ==> t0[x].Live() && t0[x].status == Unset)
    && (forall f :: f in g0 && Below(g0[f], d) ==> g0[f].Live() && g0[f].status == Uploaded)
  }

  ghost predicate Reviving(t0: Table, g0: Table, s: State, root: Id, user: Id, d: set<Id>) {
    && Target(t0, g0, root, d)
    && PartlyRestored(t0, s.folders, d)
    && PartlyRestoredBelow(g0, s.files, d)
    && root !in Trashed(s.folders, d)
    && s.queue == RestoreEvents(OnTheirWay(s.folders, d), user)
    && LiveAreSettled(s.folders, s.files, d)
  }

  // What is left: a trashed folder has two steps to go, one on its way has one, a file has one.
  ghost function ToGo(t: Table, g: Table, d: set<Id>): nat {
    2 * |Trashed(t, d)| + |OnTheirWay(t, d)| + |TrashedBelow(g, d)|
  }

  // ----- what one delivery does to the tables

  lemma FoldersMarked(t0: Table, t: Table, d: set<Id>, fs: set<Id>)
    requires PartlyRestored(t0, t, d) && fs <= Trashed(t, d) && forall x :: x in d && x in t0 ==> t0[x].Live()
    ensures PartlyRestored(t0, MarkRestoring(t, fs), d)
    ensures Trashed(MarkRestoring(t, fs), d) == Trashed(t, d) - fs
    ensures OnTheirWay(MarkRestoring(t, fs), d) == OnTheirWay(t, d) + fs
    ensures fs !! OnTheirWay(t, d)
  {
  }

  lemma FilesRevived(t0: Table, g0: Table, g: Table, root: Id, d: set<Id>, gs: set<Id>)
    requires Target(t0, g0, root, d) && PartlyRestoredBelow(g0, g, d) && gs <= TrashedBelow(g, d)
    ensures PartlyRestoredBelow(g0, ReviveRows(g, gs, Uploaded), d)
    ensures TrashedBelow(ReviveRows(g, gs, Uploaded), d) == TrashedBelow(g, d) - gs
  {
  }

  lemma FolderRevived(t0: Table, g0: Table, t: Table, root: Id, d: set<Id>, x: Id)
    requires Target(t0, g0, root, d) && PartlyRestored(t0, t, d) && x in OnTheirWay(t, d)
    ensures PartlyRestored(t0, t[x := t[x].Revive(Unset)], d)
    ensures Trashed(t[x := t[x].Revive(Unset)], d) == Trashed(t, d)
    ensures OnTheirWay(t[x := t[x].Revive(Unset)], d) == OnTheirWay(t, d) - {x}
  {
  }

  lemma SettledStays(t: Table, g: Table, fs: set<Id>, gs: set<Id>, y: Id)
    requires Settled(t, g, y)
    requires forall i :: i in fs && i in t ==> t[i].parent != Some(y)
    ensures Settled(MarkRestoring(t, fs), ReviveRows(g, gs, Uploaded), y)
  {
  }

  lemma MarkedStaySettled(t: Table, g: Table, d: set<Id>, x: Id, fs: set<Id>, gs: set<Id>)
    requires LiveAreSettled(t, g, d) && x in OnTheirWay(t, d) && fs <= RecoverableChildren(t, x)
    ensures LiveAreSettled(MarkRestoring(t, fs), ReviveRows(g, gs, Uploaded), d)
  {
    var t', g' := MarkRestoring(t, fs), ReviveRows(g, gs, Uploaded);
    forall y | y in d && y in t' && t'[y].Live()
      ensures Settled(t', g', y)
    {
      SettledStays(t, g, fs, gs, y);
    }
  }

  lemma RevivedStaySettled(t: Table, g: Table, d: set<Id>, x: Id)
    requires LiveAreSettled(t, g, d) && x in t && Settled(t, g, x)
    ensures LiveAreSettled(t[x := t[x].Revive(Unset)], g, d)
  {
    var t' := t[x := t[x].Revive(Unset)];
    forall y | y in d && y in t' && t'[y].Live()
      ensures Settled(t', g, y)
    {
      assert Settled(t, g, y);
    }
  }

  lemma RestoreEventsUnion(a: set<Id>, b: set<Id>, user: Id)
    requires a !! b
    ensures RestoreEvents(a, user) + RestoreEvents(b, user) == RestoreEvents(a + b, user)
  {
    var ea, eb := set i | i in a :: FolderRestore(i, user), set i | i in b :: FolderRestore(i, user);
    assert ea !! eb && (set i | i in a + b :: FolderRestore(i, user)) == ea + eb;
  }

  lemma RestoreEventsWithout(a: set<Id>, x: Id, user: Id)
    ensures RestoreEvents(a, user) - multiset{FolderRestore(x, user)} == RestoreEvents(a - {x}, user)
  {
    var ea := set i | i in a :: FolderRestore(i, user);
    assert (set i | i in a - {x} :: FolderRestore(i, user)) == ea - {FolderRestore(x, user)};
  }

  // ----- the outcomes of a delivery

  // The callback fails on a name.
  ghost predicate Blocked(c: Config, s: State, e: Step)
    requires e.DeliverRestore? && e.id in s.folders
  {
    || NameTaken(s.folders, s.folders[e.id].name, s.folders[e.id].parent, e.id)
    || !Fits(c.schema, ReviveRows(s.files, e.fileBatch, Uploaded))
  }

  // Children were taken and some remain to be waited for.
  ghost predicate Advanced(s: State, s': State, e: Step)
    requires e.DeliverRestore?
  {
    s' == Unmark(s.(folders := MarkRestoring(s.folders, e.folderBatch),
                    files := ReviveRows(s.files, e.fileBatch, Uploaded),
                    queue := s.queue + RestoreEvents(e.folderBatch, e.user)), FileMarkers(e.fileBatch))
  }

  // The folder itself came back.
  ghost predicate Finished(s: State, s': State, e: Step)
    requires e.DeliverRestore?
  {
    && e.folderBatch == {} && e.id in s.folders
    && Settled(s.folders, ReviveRows(s.files, e.fileBatch, Uploaded), e.id)
    && s' == Unmark(Unmark(s.(folders := s.folders[e.id := s.folders[e.id].Revive(Unset)],
                              files := ReviveRows(s.files, e.fileBatch, Uploaded),
                              queue := s.queue - multiset{FolderRestore(e.id, e.user)}), FileMarkers(e.fileBatch)),
                    {FolderMarker(e.id)})
  }

  ghost predicate OfRestore(e: Step, user: Id) {
    e.DeliverRestore? && e.user == user
  }

  // No two live folders of one parent will share a name, nor, where the index is in force, two files.
  ghost predicate Clear(c: Config, t0: Table, g0: Table) {
    Distinct(t0) && Fits(c.schema, g0)
  }

  // Then no name is ever in the way.
  lemma NotBlocked(c: Config, t0: Table, g0: Table, s: State, root: Id, d: set<Id>, e: Step)
    requires e.DeliverRestore? && Reviving(t0, g0, s, root, e.user, d) && Clear(c, t0, g0)
    requires e.id in OnTheirWay(s.folders, d) && e.fileBatch <= TrashedBelow(s.files, d)
    ensures e.id in s.folders && !Blocked(c, s, e)
  {
    NoConflict(t0, s.folders, d, e.id);
    FilesRevived(t0, g0, s.files, root, d, e.fileBatch);
    if c.schema {
      LiveFilesAreDistinct(g0, ReviveRows(s.files, e.fileBatch, Uploaded), d);
    }
  }

  lemma NoConflict(t0: Table, t: Table, d: set<Id>, x: Id)
    requires Distinct(t0) && PartlyRestored(t0, t, d) && x in t && x in d && t0[x].Live()
    ensures !NameTaken(t, t[x].name, t[x].parent, x)
  {
    forall i | i in t && i != x && t[i].Live() && t[i].parent == t[x].parent
      ensures t[i].name != t[x].name
    {
      assert t[i] == t0[i];
    }
  }

  lemma LiveFilesAreDistinct(g0: Table, g: Table, d: set<Id>)
    requires Distinct(g0) && PartlyRestoredBelow(g0, g, d)
    ensures Distinct(g)
  {
    forall f | f in g && g[f].Live()
      ensures f in g0 && g[f] == g0[f]
    {
    }
  }

  lemma MarkNone(t: Table)
    ensures MarkRestoring(t, {}) == t
  {
  }

  lemma BlockedChangesNothing(c: Config, s: State, e: Step)
    requires e.DeliverRestore? && e.id in s.folders && s.folders[e.id].status == Restoring && Blocked(c, s, e)
    ensures Apply(c, s, e) == s
  {
    hide NameTaken, Fits, ReviveRows;
  }

  lemma TwoOutcomes(c: Config, s: State, e: Step)
    requires e.DeliverRestore? && Enabled(c, s, e)
    requires e.id in s.folders && s.folders[e.id].status == Restoring && !Blocked(c, s, e)
    ensures if StillLeft(c, s, e) then Advanced(s, Apply(c, s, e), e) else Finished(s, Apply(c, s, e), e)
  {
    hide NameTaken, Fits, MarkerNotices;
    assert Apply(c, s, e)
        == Handle(FolderRestore(e.id, e.user), Restore(c.schema, s, e.id, e.user, e.folderBatch, e.fileBatch));
    if !StillLeft(c, s, e) {
      NoFolderTaken(c, s, e);
      MarkNone(s.folders);
      assert s.queue + RestoreEvents({}, e.user) == s.queue;
    }
    hide ReviveRows, MarkRestoring, RestoringChildren, RecoverableChildren, RestoreEvents;
  }

  lemma NoFolderTaken(c: Config, s: State, e: Step)
    requires e.DeliverRestore? && Enabled(c, s, e)
    requires e.id in s.folders && s.folders[e.id].status == Restoring && !Blocked(c, s, e) && !StillLeft(c, s, e)
    ensures e.folderBatch == {}
  {
    hide NameTaken, Fits, Unmark, ReviveRows;
    var s1 := ProcessChildren(c.schema, s, e.id, e.user, e.folderBatch, e.fileBatch).value;
    assert s1.folders == MarkRestoring(s.folders, e.folderBatch) by {
      UnmarkRows(s.(folders := MarkRestoring(s.folders, e.folderBatch),
                    files := ReviveRows(s.files, e.fileBatch, Uploaded),
                    queue := s.queue + RestoreEvents(e.folderBatch, e.user)), FileMarkers(e.fileBatch));
    }
    forall i | i in e.folderBatch
      ensures i in RestoringChildren(s1.folders, e.id)
    {
    }
  }

  lemma UnmarkRows(s: State, markers: set<Marker>)
    ensures Unmark(s, markers).folders == s.folders && Unmark(s, markers).files == s.files
  {
  }

  // Something in the delivered folder still has to come back.
  ghost predicate StillLeft(c: Config, s: State, e: Step)
    requires e.DeliverRestore?
  {
    var p := ProcessChildren(c.schema, s, e.id, e.user, e.folderBatch, e.fileBatch);
    p.Some? && ChildrenLeft(p.value, e.id)
  }

  // The delivered message belongs to a folder on its way; its batches lie in the subtree.
  lemma RestoreBatchesBelow(c: Config, t0: Table, g0: Table, s: State, root: Id, d: set<Id>, e: Step)
    requires e.DeliverRestore? && Reviving(t0, g0, s, root, e.user, d) && Enabled(c, s, e)
    ensures e.id in OnTheirWay(s.folders, d)
    ensures e.folderBatch <= Trashed(s.folders, d) && e.fileBatch <= TrashedBelow(s.files, d)
  {
    assert FolderRestore(e.id, e.user) in RestoreEvents(OnTheirWay(s.folders, d), e.user);
    forall y | y in e.folderBatch
      ensures y in d
    {
      SubtreeStep(t0, root, y);
    }
  }

  lemma AdvancedKeeps(t0: Table, g0: Table, s: State, s': State, root: Id, d: set<Id>, e: Step)
    requires e.DeliverRestore? && Reviving(t0, g0, s, root, e.user, d) && Advanced(s, s', e)
    requires e.id in OnTheirWay(s.folders, d)
    requires e.folderBatch <= Trashed(s.folders, d) && e.fileBatch <= TrashedBelow(s.files, d)
    requires e.folderBatch <= RecoverableChildren(s.folders, e.id)
    ensures Reviving(t0, g0, s', root, e.user, d)
    ensures ToGo(s'.folders, s'.files, d) == ToGo(s.folders, s.files, d) - |e.folderBatch| - |e.fileBatch|
  {
    FoldersMarked(t0, s.folders, d, e.folderBatch);
    FilesRevived(t0, g0, s.files, root, d, e.fileBatch);
    MarkedStaySettled(s.folders, s.files, d, e.id, e.folderBatch, e.fileBatch);
    RestoreEventsUnion(OnTheirWay(s.folders, d), e.folderBatch, e.user);
  }

  lemma FinishedKeeps(t0: Table, g0: Table, s: State, s': State, root: Id, d: set<Id>, e: Step)
    requires e.DeliverRestore? && Reviving(t0, g0, s, root, e.user, d) && Finished(s, s', e)
    requires e.id in OnTheirWay(s.folders, d) && e.fileBatch <= TrashedBelow(s.files, d)
    ensures Reviving(t0, g0, s', root, e.user, d)
    ensures ToGo(s'.folders, s'.files, d) == ToGo(s.folders, s.files, d) - 1 - |e.fileBatch|
  {
    var t, g := s.folders, s.files;
    hide Acyclic, Settled, RestoreEvents, MarkerNotices, PartlyRestored, PartlyRestoredBelow;
    FilesRevived(t0, g0, g, root, d, e.fileBatch);
    MarkedStaySettled(t, g, d, e.id, {}, e.fileBatch);
    MarkNone(t);
    RevivedStaySettled(t, ReviveRows(g, e.fileBatch, Uploaded), d, e.id);
    FolderRevived(t0, g0, t, root, d, e.id);
    RestoreEventsWithout(OnTheirWay(t, d), e.id, e.user);
  }

  // ----- progress

  // A delivery is blocked, takes children or brings its folder back.
  lemma Outcome(c: Config, t0: Table, g0: Table, s: State, root: Id, d: set<Id>, e: Step)
    requires e.DeliverRestore? && Reviving(t0, g0, s, root, e.user, d) && Enabled(c, s, e)
    ensures e.id in OnTheirWay(s.folders, d) && e.id in s.folders
    ensures e.folderBatch <= Trashed(s.folders, d) && e.fileBatch <= TrashedBelow(s.files, d)
    ensures e.folderBatch <= RecoverableChildren(s.folders, e.id)
    ensures if Blocked(c, s, e) then Apply(c, s, e) == s
            else if StillLeft(c, s, e) then Advanced(s, Apply(c, s, e), e)
            else Finished(s, Apply(c, s, e), e)
  {
    hide Apply, Advanced, Finished, Acyclic, Blocked;
    RestoreBatchesBelow(c, t0, g0, s, root, d, e);
    if Blocked(c, s, e) {
      BlockedChangesNothing(c, s, e);
    } else {
      TwoOutcomes(c, s, e);
    }
  }

  // A delivery changes nothing at all or brings the subtree nearer to the end, whatever names are in
  // the way.
  lemma DeliveryProgress(c: Config, t0: Table, g0: Table, s: State, root: Id, d: set<Id>, e: Step)
    requires e.DeliverRestore? && Reviving(t0, g0, s, root, e.user, d) && Enabled(c, s, e)
    ensures var s' := Apply(c, s, e);
            && Reviving(t0, g0, s', root, e.user, d)
            && (s' == s || ToGo(s'.folders, s'.files, d) < ToGo(s.folders, s.files, d))
  {
    hide *;
    var s' := Apply(c, s, e);
    Outcome(c, t0, g0, s, root, d, e);
    if !Blocked(c, s, e) {
      if StillLeft(c, s, e) {
        AdvancedKeeps(t0, g0, s, s', root, d, e);
        if e.folderBatch == {} && e.fileBatch == {} {
          IdleDelivery(s, s', e);
        }
      } else {
        FinishedKeeps(t0, g0, s, s', root, d, e);
      }
    }
  }

  lemma IdleDelivery(s: State, s': State, e: Step)
    requires e.DeliverRestore? && Advanced(s, s', e) && e.folderBatch == {} && e.fileBatch == {}
    ensures s' == s
  {
    MarkNone(s.folders);
    NothingChosen(s, e.user);
  }

  lemma NothingChosen(s: State, user: Id)
    ensures ReviveRows(s.files, {}, Uploaded) == s.files
    ensures s.queue + RestoreEvents({}, user) == s.queue
    ensures Unmark(s, FileMarkers({})) == s
  {
    assert FileMarkers({}) == {};
    assert {} * s.markers == {} && MarkerNotices({}) == multiset{};
  }

  // A folder on its way none of whose child folders is.
  ghost predicate Deepest(t: Table, d: set<Id>, x: Id) {
    x in OnTheirWay(t, d) && RestoringChildren(t, x) == {}
  }

  // Its delivery always brings the subtree nearer to the end, unless a name is in the way.
  lemma DeepestProgress(c: Config, t0: Table, g0: Table, s: State, root: Id, d: set<Id>, e: Step)
    requires c.limit >= 1
    requires e.DeliverRestore? && Reviving(t0, g0, s, root, e.user, d) && Enabled(c, s, e)
    requires Deepest(s.folders, d, e.id)
    ensures var s' := Apply(c, s, e);
            e.id in s.folders && (ToGo(s'.folders, s'.files, d) < ToGo(s.folders, s.files, d) <==> !Blocked(c, s, e))
  {
    hide *;
    var s' := Apply(c, s, e);
    Outcome(c, t0, g0, s, root, d, e);
    if !Blocked(c, s, e) {
      if StillLeft(c, s, e) {
        AdvancedKeeps(t0, g0, s, s', root, d, e);
        DeepestTakes(c, s, d, e);
      } else {
        FinishedKeeps(t0, g0, s, s', root, d, e);
      }
    }
  }

  lemma DeepestTakes(c: Config, s: State, d: set<Id>, e: Step)
    requires c.limit >= 1 && e.DeliverRestore? && Enabled(c, s, e) && Deepest(s.folders, d, e.id) && StillLeft(c, s, e)
    ensures e.folderBatch != {} || e.fileBatch != {}
  {
    if e.folderBatch == {} && e.fileBatch == {} {
      EmptyBatch(c.limit, RecoverableChildren(s.folders, e.id));
      EmptyBatch(c.limit, RecoverableChildren(s.files, e.id));
      MarkNone(s.folders);
      NothingChosen(s, e.user);
    }
  }

  lemma EmptyBatch(limit: nat, candidates: set<Id>)
    requires limit >= 1 && IsBatch(limit, candidates, {})
    ensures candidates == {}
  {
    assert |candidates| == 0;
  }

  // As long as a folder is on its way there is a deepest one.
  lemma {:induction false} DeepestBelow(t: Table, rank: map<Id, nat>, d: set<Id>, x: Id, left: set<Id>) returns (y: Id)
    requires Ranks(t, rank) && x in OnTheirWay(t, d)
    requires left == set z | z in OnTheirWay(t, d) && rank[z] > rank[x]
    requires forall z :: z in t && t[z].status == Restoring && t[z].parent.Some? && t[z].parent.value in d ==>
               z in OnTheirWay(t, d)
    ensures Deepest(t, d, y)
    decreases left
  {
    if RestoringChildren(t, x) == {} {
      y := x;
    } else {
      var z :| z in RestoringChildren(t, x);
      var deeper := set w | w in OnTheirWay(t, d) && rank[w] > rank[z];
      assert z in left && z !in deeper;
      y := DeepestBelow(t, rank, d, z, deeper);
    }
  }

  lemma SomeDeepest(t0: Table, g0: Table, s: State, root: Id, user: Id, d: set<Id>) returns (y: Id)
    requires Reviving(t0, g0, s, root, user, d) && s.queue != multiset{}
    ensures Deepest(s.folders, d, y) && FolderRestore(y, user) in s.queue
  {
    var t := s.folders;
    var ev :| ev in s.queue;
    assert ev in RestoreEvents(OnTheirWay(t, d), user);
    var x :| x in OnTheirWay(t, d) && ev == FolderRestore(x, user);
    var rank :| Ranks(t0, rank);
    assert Ranks(t, rank);
    forall z | z in t && t[z].status == Restoring && t[z].parent.Some? && t[z].parent.value in d
      ensures z in OnTheirWay(t, d)
    {
      SubtreeStep(t0, root, z);
    }
    y := DeepestBelow(t, rank, d, x, set z | z in OnTheirWay(t, d) && rank[z] > rank[x]);
    assert FolderRestore(y, user) in RestoreEvents(OnTheirWay(t, d), user);
  }

  // ----- runs

  ghost predicate RestoreSteps(steps: seq<Step>, user: Id) {
    forall i :: 0 <= i < |steps| ==> OfRestore(steps[i], user)
  }

  lemma {:induction false} RestoreRunKeeps(c: Config, t0: Table, g0: Table, s: State, root: Id, user: Id, d: set<Id>,
                                           steps: seq<Step>)
    requires Reviving(t0, g0, s, root, user, d) && Run(c, s, steps) && RestoreSteps(steps, user)
    ensures var s' := After(c, s, steps);
            && Reviving(t0, g0, s', root, user, d)
            && (s' == s || ToGo(s'.folders, s'.files, d) < ToGo(s.folders, s.files, d))
    decreases |steps|
  {
    if steps != [] {
      assert OfRestore(steps[0], user);
      DeliveryProgress(c, t0, g0, s, root, d, steps[0]);
      RestoreRunKeeps(c, t0, g0, Apply(c, s, steps[0]), root, user, d, steps[1..]);
    }
  }

  lemma FirstOfRun(c: Config, s: State, steps: seq<Step>, user: Id)
    requires Run(c, s, steps) && RestoreSteps(steps, user) && steps != []
    ensures OfRestore(steps[0], user) && Enabled(c, s, steps[0])
    ensures Run(c, Apply(c, s, steps[0]), steps[1..]) && RestoreSteps(steps[1..], user)
    ensures After(c, s, steps) == After(c, Apply(c, s, steps[0]), steps[1..])
  {
    assert OfRestore(steps[0], user);
  }

  // A run whose first delivery makes progress makes progress.
  lemma ProgressFirst(c: Config, t0: Table, g0: Table, s: State, root: Id, user: Id, d: set<Id>, steps: seq<Step>)
    requires steps != [] && Run(c, s, steps) && RestoreSteps(steps, user)
    requires var s1 := Apply(c, s, steps[0]);
             Reviving(t0, g0, s1, root, user, d) && ToGo(s1.folders, s1.files, d) < ToGo(s.folders, s.files, d)
    ensures var s' := After(c, s, steps);
            ToGo(s'.folders, s'.files, d) < ToGo(s.folders, s.files, d)
  {
    FirstOfRun(c, s, steps, user);
    RestoreRunKeeps(c, t0, g0, Apply(c, s, steps[0]), root, user, d, steps[1..]);
  }

  // Somewhere in the run the message of a deepest folder is delivered.
  lemma {:induction false} DeepestDelivered(c: Config, t0: Table, g0: Table, s: State, root: Id, user: Id, d: set<Id>,
                                            steps: seq<Step>, y: Id, i: nat)
    requires c.limit >= 1
    requires Reviving(t0, g0, s, root, user, d) && Clear(c, t0, g0) && Run(c, s, steps) && RestoreSteps(steps, user)
    requires Deepest(s.folders, d, y) && i < |steps| && steps[i].id == y
    ensures var s' := After(c, s, steps);
            ToGo(s'.folders, s'.files, d) < ToGo(s.folders, s.files, d)
    decreases |steps|
  {
    hide *;
    FirstOfRun(c, s, steps, user);
    DeliveryProgress(c, t0, g0, s, root, d, steps[0]);
    if i == 0 {
      Outcome(c, t0, g0, s, root, d, steps[0]);
      NotBlocked(c, t0, g0, s, root, d, steps[0]);
      DeepestProgress(c, t0, g0, s, root, d, steps[0]);
      ProgressFirst(c, t0, g0, s, root, user, d, steps);
    } else if Apply(c, s, steps[0]) == s {
      DeepestDelivered(c, t0, g0, s, root, user, d, steps[1..], y, i - 1);
    } else {
      ProgressFirst(c, t0, g0, s, root, user, d, steps);
    }
  }

  // Every message pending at the start is delivered at least once.
  ghost predicate Round(s: State, steps: seq<Step>) {
    forall e :: e in s.queue ==> exists i :: 0 <= i < |steps| && Protocol.Delivered(steps[i]) == Some(e)
  }

  lemma RoundProgress(c: Config, t0: Table, g0: Table, s: State, root: Id, user: Id, d: set<Id>, steps: seq<Step>)
    requires c.limit >= 1
    requires Reviving(t0, g0, s, root, user, d) && Clear(c, t0, g0) && Run(c, s, steps) && RestoreSteps(steps, user)
    requires Round(s, steps) && s.queue != multiset{}
    ensures var s' := After(c, s, steps);
            ToGo(s'.folders, s'.files, d) < ToGo(s.folders, s.files, d)
  {
    var y := SomeDeepest(t0, g0, s, root, user, d);
    var i :| 0 <= i < |steps| && Protocol.Delivered(steps[i]) == Some(FolderRestore(y, user));
    assert OfRestore(steps[i], user);
    DeepestDelivered(c, t0, g0, s, root, user, d, steps, y, i);
  }

  ghost predicate FairRun(c: Config, s: State, rounds: seq<seq<Step>>, user: Id)
    decreases |rounds|
  {
    rounds == [] ||
    (Run(c, s, rounds[0]) && RestoreSteps(rounds[0], user) && Round(s, rounds[0])
     && FairRun(c, After(c, s, rounds[0]), rounds[1..], user))
  }

  ghost function AfterRounds(c: Config, s: State, rounds: seq<seq<Step>>): State
    decreases |rounds|
  {
    if rounds == [] then s else AfterRounds(c, After(c, s, rounds[0]), rounds[1..])
  }

  // Fair redelivery drains the queue after at most as many rounds as there was left to do.
  lemma {:induction false} FairRunDrains(c: Config, t0: Table, g0: Table, s: State, root: Id, user: Id, d: set<Id>,
                                         rounds: seq<seq<Step>>)
    requires c.limit >= 1
    requires Reviving(t0, g0, s, root, user, d) && Clear(c, t0, g0) && FairRun(c, s, rounds, user)
    ensures Reviving(t0, g0, AfterRounds(c, s, rounds), root, user, d)
    ensures |rounds| >= ToGo(s.folders, s.files, d) ==> AfterRounds(c, s, rounds).queue == multiset{}
    decreases |rounds|
  {
    if rounds == [] {
      if ToGo(s.folders, s.files, d) == 0 {
        assert OnTheirWay(s.folders, d) == {};
        assert RestoreEvents({}, user) == multiset{};
      }
    } else {
      RestoreRunKeeps(c, t0, g0, s, root, user, d, rounds[0]);
      var s1 := After(c, s, rounds[0]);
      FairRunDrains(c, t0, g0, s1, root, user, d, rounds[1..]);
      if s.queue != multiset{} {
        RoundProgress(c, t0, g0, s, root, user, d, rounds[0]);
      } else {
        NothingToDeliver(c, s, rounds[0], user);
        StaysDrained(c, s, rounds[1..], user);
      }
    }
  }

  lemma NothingToDeliver(c: Config, s: State, steps: seq<Step>, user: Id)
    requires s.queue == multiset{} && Run(c, s, steps) && RestoreSteps(steps, user)
    ensures steps == []
  {
    assert steps == [] || Enabled(c, s, steps[0]);
    assert steps == [] || OfRestore(steps[0], user);
  }

  lemma {:induction false} StaysDrained(c: Config, s: State, rounds: seq<seq<Step>>, user: Id)
    requires s.queue == multiset{} && FairRun(c, s, rounds, user)
    ensures AfterRounds(c, s, rounds) == s
    decreases |rounds|
  {
    if rounds != [] {
      NothingToDeliver(c, s, rounds[0], user);
      StaysDrained(c, s, rounds[1..], user);
    }
  }

  // ----- bottom-up

  // Whatever is live has its whole subtree live: nothing comes back before its contents.
  lemma {:induction false} LiveDownTo(t0: Table, g0: Table, s: State, root: Id, user: Id, d: set<Id>, x: Id, y: Id,
                                      n: nat)
    requires Reviving(t0, g0, s, root, user, d) && x in d && s.folders[x].Live()
    requires y in t0 && Climb(t0, Some(y), n) == Some(x)
    ensures y in d && s.folders[y].Live()
    decreases n
  {
    if n > 0 {
      var p := t0[y].parent.value;
      LiveDownTo(t0, g0, s, root, user, d, x, p, n - 1);
      SubtreeStep(t0, root, y);
      assert Settled(s.folders, s.files, p);
      assert y !in RecoverableChildren(s.folders, p) && y !in RestoringChildren(s.folders, p);
    }
  }

  lemma RestoredBottomUp(t0: Table, g0: Table, s: State, root: Id, user: Id, d: set<Id>, x: Id)
    requires Reviving(t0, g0, s, root, user, d) && x in d && s.folders[x].Live()
    ensures forall y :: y in Subtree(t0, x) ==> s.folders[y].Live()
    ensures forall f :: f in s.files && Below(s.files[f], Subtree(t0, x)) ==> s.files[f].Live()
  {
    forall y | y in Subtree(t0, x)
      ensures y in d && s.folders[y].Live()
    {
      var n: nat :| Climb(t0, Some(y), n) == Some(x);
      LiveDownTo(t0, g0, s, root, user, d, x, y, n);
    }
    forall f | f in s.files && Below(s.files[f], Subtree(t0, x))
      ensures s.files[f].Live()
    {
      var p := s.files[f].parent.value;
      assert Settled(s.folders, s.files, p);
      assert f !in RecoverableChildren(s.files, p);
    }
  }

  lemma PendingWhileOnItsWay(w: set<Id>, x: Id, user: Id)
    ensures x in w ==> FolderRestore(x, user) in RestoreEvents(w, user)
  {
  }

  // With no message left, or as soon as the root is live, everything is back.
  lemma DrainedMeansBack(t0: Table, g0: Table, s: State, root: Id, user: Id, d: set<Id>)
    requires Reviving(t0, g0, s, root, user, d)
    requires s.queue == multiset{} || s.folders[root].Live()
    ensures s.folders == t0 && s.files == g0 && s.queue == multiset{}
  {
    SubtreeStep(t0, root, root);
    PendingWhileOnItsWay(OnTheirWay(s.folders, d), root, user);
    RestoredBottomUp(t0, g0, s, root, user, d, root);
    assert OnTheirWay(s.folders, d) == {};
    assert RestoreEvents({}, user) == multiset{};
  }

  // ----- names in the way

  // What the names are like in every reachable state.
  ghost predicate Tidy(c: Config, s: State) {
    Acyclic(s.folders) && Distinct(s.folders) && Fits(c.schema, s.files)
  }

  lemma TidyStep(c: Config, s: State, step: Step)
    requires Tidy(c, s) && Enabled(c, s, step)
    ensures Tidy(c, Apply(c, s, step))
  {
    hide Apply, Enabled, Acyclic, Distinct;
    LinksKept(c, s, step);
    NamesKept(c, s, step);
    if c.schema {
      FileNamesKept(c, s, step);
    }
  }

  lemma {:induction false} TidyRun(c: Config, s: State, steps: seq<Step>)
    requires Tidy(c, s) && Run(c, s, steps)
    ensures Tidy(c, After(c, s, steps))
    decreases |steps|
  {
    hide Apply, Enabled, Tidy;
    if steps != [] {
      TidyStep(c, s, steps[0]);
      TidyRun(c, Apply(c, s, steps[0]), steps[1..]);
    }
  }

  // When a name will be in the way, no run of deliveries empties the queue or brings the root back.
  lemma NeverDrainsUnlessClear(c: Config, t0: Table, g0: Table, s: State, root: Id, user: Id, d: set<Id>,
                               steps: seq<Step>)
    requires Reviving(t0, g0, s, root, user, d) && Tidy(c, s) && Run(c, s, steps) && RestoreSteps(steps, user)
    ensures var s' := After(c, s, steps);
            root in s'.folders && (s'.queue == multiset{} || s'.folders[root].Live() ==> Clear(c, t0, g0))
  {
    hide Apply, Run, After, Enabled, RestoreSteps;
    RestoreRunKeeps(c, t0, g0, s, root, user, d, steps);
    TidyRun(c, s, steps);
    var s' := After(c, s, steps);
    assert root in s'.folders;
    if s'.queue == multiset{} || s'.folders[root].Live() {
      DrainedMeansBack(t0, g0, s', root, user, d);
    }
  }

  lemma {:induction false} TidyRounds(c: Config, s: State, rounds: seq<seq<Step>>, user: Id)
    requires Tidy(c, s) && FairRun(c, s, rounds, user)
    ensures Tidy(c, AfterRounds(c, s, rounds))
    decreases |rounds|
  {
    hide Tidy, Run, After, RestoreSteps, Round;
    if rounds != [] {
      TidyRun(c, s, rounds[0]);
      TidyRounds(c, After(c, s, rounds[0]), rounds[1..], user);
    }
  }

  lemma {:induction false} RoundsKeep(c: Config, t0: Table, g0: Table, s: State, root: Id, user: Id, d: set<Id>,
                                      rounds: seq<seq<Step>>)
    requires Reviving(t0, g0, s, root, user, d) && FairRun(c, s, rounds, user)
    ensures Reviving(t0, g0, AfterRounds(c, s, rounds), root, user, d)
    decreases |rounds|
  {
    hide Reviving, Run, After, RestoreSteps, Round;
    if rounds != [] {
      RestoreRunKeeps(c, t0, g0, s, root, user, d, rounds[0]);
      RoundsKeep(c, t0, g0, After(c, s, rounds[0]), root, user, d, rounds[1..]);
    }
  }

  // Enough fair rounds empty the queue if and only if no name will be in the way.
  lemma DrainsIfAndOnlyIfClear(c: Config, t0: Table, g0: Table, s: State, root: Id, user: Id, d: set<Id>,
                               rounds: seq<seq<Step>>)
    requires c.limit >= 1 && Reviving(t0, g0, s, root, user, d) && Tidy(c, s)
    requires FairRun(c, s, rounds, user) && |rounds| >= ToGo(s.folders, s.files, d)
    ensures AfterRounds(c, s, rounds).queue == multiset{} <==> Clear(c, t0, g0)
  {
    hide FairRun, AfterRounds, Reviving, ToGo;
    if Clear(c, t0, g0) {
      FairRunDrains(c, t0, g0, s, root, user, d, rounds);
    }
    RoundsKeep(c, t0, g0, s, root, user, d, rounds);
    TidyRounds(c, s, rounds, user);
    var s' := AfterRounds(c, s, rounds);
    if s'.queue == multiset{} {
      RevivingHasRoot(t0, g0, s', root, user, d);
      DrainedMeansBack(t0, g0, s', root, user, d);
    }
  }

  lemma RevivingHasRoot(t0: Table, g0: Table, s: State, root: Id, user: Id, d: set<Id>)
    requires Reviving(t0, g0, s, root, user, d)
    ensures root in s.folders
  {
  }

  // ----- where a restore starts

  ghost function FilesBelow(g: Table, d: set<Id>): set<Id> {
    set f | f in g && Below(g[f], d)
  }

  // Everything at or below `root` is in the trash and none of it is being restored.
  ghost predicate WhollyRecoverable(s: State, root: Id) {
    && root in s.folders
    && (forall x :: x in Subtree(s.folders, root) ==> s.folders[x].Recoverable())
    && (forall f :: f in s.files && Below(s.files[f], Subtree(s.folders, root)) ==> s.files[f].Recoverable())
  }

  // No folder above the root of a subtree is in it.
  lemma AboveIsNotBelow(t: Table, root: Id, a: Id)
    requires Acyclic(t) && root in t && OnChain(t, t[root].parent, a)
    ensures a !in Subtree(t, root)
  {
    if a in Subtree(t, root) {
      var rank :| Ranks(t, rank);
      var m: nat :| Climb(t, t[root].parent, m) == Some(a);
      var n: nat :| Climb(t, Some(a), n) == Some(root);
      ClimbRank(t, rank, t[root].parent.value, m);
      ClimbRank(t, rank, a, n);
    }
  }

  ghost function RestoredFolders(s: State, d: set<Id>): Table {
    ReviveRows(s.folders, d, Unset)
  }

  ghost function RestoredFiles(s: State, d: set<Id>): Table {
    ReviveRows(s.files, FilesBelow(s.files, d), Uploaded)
  }

  // An accepted RestoreFolder on a wholly trashed subtree with nothing in flight starts the run.
  lemma RestoreStarts(s: State, root: Id, user: Id, now: nat, retention: nat)
    requires Acyclic(s.folders) && WhollyRecoverable(s, root) && s.queue == multiset{}
    requires RestoreFolder(s, root, user, now, retention).1.Accepted?
    ensures var s', d := RestoreFolder(s, root, user, now, retention).0, Subtree(s.folders, root);
            Reviving(RestoredFolders(s', d), RestoredFiles(s', d), s', root, user, d)
  {
    var s', d := RestoreFolder(s, root, user, now, retention).0, Subtree(s.folders, root);
    AcceptedRestore(s, root, user, now, retention);
    SubtreeStep(s.folders, root, root);
    SubtreeSame(s.folders, s'.folders, root);
    AcyclicSameLinks(s.folders, s'.folders);
    OneRestoreEvent(root, user);
    hide RestoreFolder, Reviving, Acyclic, Subtree, SameLinks;
    StartReviving(s', root, user, d);
  }

  lemma StartReviving(s: State, root: Id, user: Id, d: set<Id>)
    requires root in s.folders && d == Subtree(s.folders, root) && root in d && OnItsWay(s.folders[root])
    requires forall x :: x in d ==> x in s.folders && (x == root || s.folders[x].Recoverable())
    requires forall f :: f in s.files && Below(s.files[f], d) ==> s.files[f].Recoverable()
    requires s.queue == RestoreEvents({root}, user)
    requires Acyclic(s.folders)
    ensures Reviving(RestoredFolders(s, d), RestoredFiles(s, d), s, root, user, d)
  {
    StartPicture(s.folders, s.files, root, d);
    SubtreeSame(s.folders, RestoredFolders(s, d), root);
    AcyclicSameLinks(s.folders, RestoredFolders(s, d));
  }

  // What an accepted RestoreFolder leaves in the subtree.
  lemma AcceptedRestore(s: State, root: Id, user: Id, now: nat, retention: nat)
    requires Acyclic(s.folders) && root in s.folders
    requires RestoreFolder(s, root, user, now, retention).1.Accepted?
    ensures var s' := RestoreFolder(s, root, user, now, retention).0;
            && SameLinks(s.folders, s'.folders) && s'.files == s.files
            && s'.queue == s.queue + multiset{FolderRestore(root, user)}
            && s'.folders[root] == s.folders[root].(status := Restoring)
            && forall x :: x in Subtree(s.folders, root) && x != root ==> s'.folders[x] == s.folders[x]
  {
    forall x | x in Subtree(s.folders, root)
      ensures x !in TrashedAncestors(s.folders, s.folders[root].parent)
    {
      if OnChain(s.folders, s.folders[root].parent, x) {
        AboveIsNotBelow(s.folders, root, x);
      }
    }
  }

  lemma OneRestoreEvent(x: Id, user: Id)
    ensures RestoreEvents({x}, user) == multiset{FolderRestore(x, user)}
  {
    assert (set i | i in {x} :: FolderRestore(i, user)) == {FolderRestore(x, user)};
  }

  lemma StartPicture(t: Table, g: Table, root: Id, d: set<Id>)
    requires root in d && root in t && OnItsWay(t[root])
    requires forall x :: x in d ==> x in t && (x == root || t[x].Recoverable())
    requires forall f :: f in g && Below(g[f], d) ==> g[f].Recoverable()
    ensures PartlyRestored(ReviveRows(t, d, Unset), t, d)
    ensures PartlyRestoredBelow(ReviveRows(g, FilesBelow(g, d), Uploaded), g, d)
    ensures OnTheirWay(t, d) == {root} && root !in Trashed(t, d) && LiveAreSettled(t, g, d)
  {
  }

  // ----- whether a restore will end

  // No two rows directly in the same folder of the subtree share a name, wherever they are now.
  ghost predicate SiblingsDiffer(t: Table, d: set<Id>) {
    forall i, j :: i in t && j in t && i != j && Below(t[i], d) && t[i].parent == t[j].parent ==> t[i].name != t[j].name
  }

  // What a caller can check before restoring `root`.
  ghost predicate SubtreeClear(c: Config, s: State, root: Id) {
    && SiblingsDiffer(s.folders, Subtree(s.folders, root))
    && (c.schema ==> SiblingsDiffer(s.files, Subtree(s.folders, root)))
  }

  lemma FoldersClear(t: Table, root: Id, d: set<Id>)
    requires Distinct(t) && root in t && d == Subtree(t, root)
    requires !NameTaken(t, t[root].name, t[root].parent, root)
    ensures Distinct(ReviveRows(t, d, Unset)) <==> SiblingsDiffer(t, d)
  {
    var u := ReviveRows(t, d, Unset);
    forall i | i in t
      ensures i in d <==> i == root || Below(t[i], d)
    {
      SubtreeStep(t, root, i);
    }
    hide Subtree;
    if Distinct(u) {
      forall i, j | i in t && j in t && i != j && Below(t[i], d) && t[i].parent == t[j].parent
        ensures t[i].name != t[j].name
      {
        assert u[i].Live() && u[j].Live();
      }
    }
    if SiblingsDiffer(t, d) {
      forall i, j | i in u && j in u && i != j && u[i].Live() && u[j].Live() && u[i].parent == u[j].parent
        ensures u[i].name != u[j].name
      {
        assert Below(t[i], d) || i == root || j == root || (t[i].Live() && t[j].Live());
      }
    }
  }

  lemma FilesClear(g: Table, d: set<Id>)
    requires Distinct(g)
    ensures Distinct(ReviveRows(g, FilesBelow(g, d), Uploaded)) <==> SiblingsDiffer(g, d)
  {
    var u := ReviveRows(g, FilesBelow(g, d), Uploaded);
    if Distinct(u) {
      forall i, j | i in g && j in g && i != j && Below(g[i], d) && g[i].parent == g[j].parent
        ensures g[i].name != g[j].name
      {
        assert u[i].Live() && u[j].Live();
      }
    }
    if SiblingsDiffer(g, d) {
      forall i, j | i in u && j in u && i != j && u[i].Live() && u[j].Live() && u[i].parent == u[j].parent
        ensures u[i].name != u[j].name
      {
        assert Below(g[i], d) || (g[i].Live() && g[j].Live());
      }
    }
  }

  lemma ClearAfterCall(c: Config, s: State, root: Id, user: Id, now: nat, retention: nat)
    requires Tidy(c, s) && Tidy(c, RestoreFolder(s, root, user, now, retention).0)
    requires root in s.folders && RestoreFolder(s, root, user, now, retention).1.Accepted?
    ensures var s', d := RestoreFolder(s, root, user, now, retention).0, Subtree(s.folders, root);
            Clear(c, RestoredFolders(s', d), RestoredFiles(s', d)) <==> SubtreeClear(c, s, root)
  {
    var s', d := RestoreFolder(s, root, user, now, retention).0, Subtree(s.folders, root);
    AcceptedRestore(s, root, user, now, retention);
    SameNames(s, root, user, now, retention);
    SubtreeSame(s.folders, s'.folders, root);
    hide RestoreFolder, Subtree, Acyclic, Distinct, NameTaken, ReviveRows;
    FoldersClear(s'.folders, root, d);
    if c.schema {
      FilesClear(s'.files, d);
    }
  }

  lemma SameNames(s: State, root: Id, user: Id, now: nat, retention: nat)
    requires root in s.folders && RestoreFolder(s, root, user, now, retention).1.Accepted?
    ensures var t, t' := s.folders, RestoreFolder(s, root, user, now, retention).0.folders;
            && t.Keys == t'.Keys && (forall x :: x in t ==> t'[x].name == t[x].name && t'[x].parent == t[x].parent)
            && !NameTaken(t', t[root].name, t[root].parent, root)
  {
    hide TrashedAncestors, ParentConflict;
  }

  // Restoring a wholly trashed subtree in an otherwise idle system: once the call is accepted, enough
  // fair rounds of deliveries empty the queue, with all of the subtree back, if and only if no two
  // rows that belong into the same folder of it share a name.
  lemma RestoreDrainsExactly(c: Config, s: State, root: Id, user: Id, now: nat, rounds: seq<seq<Step>>)
    requires c.limit >= 1 && Tidy(c, s) && WhollyRecoverable(s, root) && s.queue == multiset{}
    requires RestoreFolder(s, root, user, now, c.retention).1.Accepted?
    requires var s' := RestoreFolder(s, root, user, now, c.retention).0;
             FairRun(c, s', rounds, user) && |rounds| >= ToGo(s'.folders, s'.files, Subtree(s.folders, root))
    ensures var s', d := RestoreFolder(s, root, user, now, c.retention).0, Subtree(s.folders, root);
            var end := AfterRounds(c, s', rounds);
            && (end.queue == multiset{} <==> SubtreeClear(c, s, root))
            && (end.queue == multiset{} ==> end.folders == RestoredFolders(s', d) && end.files == RestoredFiles(s', d))
  {
    hide FairRun, AfterRounds, RestoreFolder, Reviving, ToGo, Clear, SubtreeClear, Tidy, WhollyRecoverable, Subtree;
    var s', d := RestoreFolder(s, root, user, now, c.retention).0, Subtree(s.folders, root);
    CallKeepsTidy(c, s, root, user, now);
    CallStarts(c, s, root, user, now);
    var t0, g0 := RestoredFolders(s', d), RestoredFiles(s', d);
    DrainsIfAndOnlyIfClear(c, t0, g0, s', root, user, d, rounds);
    RoundsKeep(c, t0, g0, s', root, user, d, rounds);
    var end := AfterRounds(c, s', rounds);
    RevivingHasRoot(t0, g0, end, root, user, d);
    if end.queue == multiset{} {
      DrainedMeansBack(t0, g0, end, root, user, d);
    }
  }

  lemma CallKeepsTidy(c: Config, s: State, root: Id, user: Id, now: nat)
    requires Tidy(c, s)
    ensures Tidy(c, RestoreFolder(s, root, user, now, c.retention).0)
  {
    hide Tidy, RestoreFolder;
    TidyStep(c, s, DoRestoreFolder(root, user, now));
  }

  lemma CallStarts(c: Config, s: State, root: Id, user: Id, now: nat)
    requires Tidy(c, s) && WhollyRecoverable(s, root) && s.queue == multiset{}
    requires RestoreFolder(s, root, user, now, c.retention).1.Accepted?
    ensures var s', d := RestoreFolder(s, root, user, now, c.retention).0, Subtree(s.folders, root);
            && Reviving(RestoredFolders(s', d), RestoredFiles(s', d), s', root, user, d)
            && (Clear(c, RestoredFolders(s', d), RestoredFiles(s', d)) <==> SubtreeClear(c, s, root))
  {
    hide RestoreFolder, Reviving, Clear, SubtreeClear, RestoredFolders, RestoredFiles, Subtree, Acyclic, Distinct, Fits;
    CallKeepsTidy(c, s, root, user, now);
    RestoreStarts(s, root, user, now, c.retention);
    ClearAfterCall(c, s, root, user, now, c.retention);
  }

  // In no other run of deliveries either does the queue become empty, or the root live, with a name in
  // the way.
  lemma RestoreNeverEnds(c: Config, s: State, root: Id, user: Id, now: nat, steps: seq<Step>)
    requires Tidy(c, s) && WhollyRecoverable(s, root) && s.queue == multiset{}
    requires RestoreFolder(s, root, user, now, c.retention).1.Accepted? && !SubtreeClear(c, s, root)
    requires Run(c, RestoreFolder(s, root, user, now, c.retention).0, steps) && RestoreSteps(steps, user)
    ensures var end := After(c, RestoreFolder(s, root, user, now, c.retention).0, steps);
            end.queue != multiset{} && root in end.folders && !end.folders[root].Live()
  {
    hide Run, After, RestoreSteps, RestoreFolder, Reviving, Clear, SubtreeClear, Tidy, WhollyRecoverable, Subtree;
    var s', d := RestoreFolder(s, root, user, now, c.retention).0, Subtree(s.folders, root);
    CallKeepsTidy(c, s, root, user, now);
    CallStarts(c, s, root, user, now);
    NeverDrainsUnlessClear(c, RestoredFolders(s', d), RestoredFiles(s', d), s', root, user, d, steps);
  }

  // ----- trash markers during the run

  ghost predicate MarkersFollow(base: set<Marker>, s: State, root: Id, d: set<Id>) {
    s.markers == base + MarkersOf(TrashedIn(s.folders, d) - {root}, TrashedBelow(s.files, d) * s.objects)
  }

  ghost predicate Unmarked(base: set<Marker>, g: Table, d: set<Id>) {
    && (forall x :: x in d ==> FolderMarker(x) !in base)
    && (forall f :: f in g && Below(g[f], d) ==> FileMarker(f) !in base)
  }

  lemma FileMarkersRemoved(base: set<Marker>, folders: set<Id>, files: set<Id>, gs: set<Id>)
    requires forall f :: f in gs ==> FileMarker(f) !in base
    ensures base + MarkersOf(folders, files) - FileMarkers(gs) == base + MarkersOf(folders, files - gs)
  {
  }

  lemma FolderMarkerRemoved(base: set<Marker>, folders: set<Id>, files: set<Id>, x: Id)
    requires FolderMarker(x) !in base
    ensures base + MarkersOf(folders, files) - {FolderMarker(x)} == base + MarkersOf(folders - {x}, files)
  {
  }

  lemma LivenessOfMarked(t: Table, d: set<Id>, fs: set<Id>)
    ensures TrashedIn(MarkRestoring(t, fs), d) == TrashedIn(t, d)
  {
  }

  lemma LivenessOfRevived(t: Table, d: set<Id>, x: Id)
    requires x in t
    ensures TrashedIn(t[x := t[x].Revive(Unset)], d) == TrashedIn(t, d) - {x}
  {
  }

  lemma AdvancedMarkers(base: set<Marker>, s: State, s': State, root: Id, d: set<Id>, e: Step)
    requires e.DeliverRestore? && Advanced(s, s', e) && MarkersFollow(base, s, root, d)
    requires TrashedBelow(s'.files, d) == TrashedBelow(s.files, d) - e.fileBatch
    requires forall f :: f in e.fileBatch ==> FileMarker(f) !in base
    ensures MarkersFollow(base, s', root, d) && s'.objects == s.objects
  {
    var folders, files := TrashedIn(s.folders, d) - {root}, TrashedBelow(s.files, d) * s.objects;
    FileMarkersRemoved(base, folders, files, e.fileBatch);
    LivenessOfMarked(s.folders, d, e.folderBatch);
    assert (TrashedBelow(s.files, d) - e.fileBatch) * s.objects == files - e.fileBatch;
  }

  lemma FinishedMarkers(base: set<Marker>, s: State, s': State, root: Id, d: set<Id>, e: Step)
    requires e.DeliverRestore? && Finished(s, s', e) && MarkersFollow(base, s, root, d)
    requires TrashedBelow(s'.files, d) == TrashedBelow(s.files, d) - e.fileBatch
    requires forall f :: f in e.fileBatch ==> FileMarker(f) !in base
    requires FolderMarker(e.id) !in base
    ensures MarkersFollow(base, s', root, d) && s'.objects == s.objects
  {
    var folders, files := TrashedIn(s.folders, d) - {root}, TrashedBelow(s.files, d) * s.objects;
    FileMarkersRemoved(base, folders, files, e.fileBatch);
    FolderMarkerRemoved(base, folders, files - e.fileBatch, e.id);
    LivenessOfRevived(s.folders, d, e.id);
    assert TrashedIn(s.folders, d) - {e.id} - {root} == folders - {e.id};
    assert (TrashedBelow(s.files, d) - e.fileBatch) * s.objects == files - e.fileBatch;
  }

  lemma MarkersStep(c: Config, t0: Table, g0: Table, base: set<Marker>, s: State, root: Id, d: set<Id>, e: Step)
    requires e.DeliverRestore? && Reviving(t0, g0, s, root, e.user, d) && Enabled(c, s, e)
    requires MarkersFollow(base, s, root, d) && Unmarked(base, g0, d)
    ensures MarkersFollow(base, Apply(c, s, e), root, d) && Apply(c, s, e).objects == s.objects
  {
    hide Apply, MarkersFollow, Advanced, Finished, Blocked;
    var s' := Apply(c, s, e);
    Outcome(c, t0, g0, s, root, d, e);
    FilesRevived(t0, g0, s.files, root, d, e.fileBatch);
    RevivedFilesOf(c, s, e);
    if !Blocked(c, s, e) {
      if StillLeft(c, s, e) {
        AdvancedMarkers(base, s, s', root, d, e);
      } else {
        FinishedMarkers(base, s, s', root, d, e);
      }
    }
  }

  // A marker that goes is reported.
  lemma LedgerStep(c: Config, t0: Table, g0: Table, s: State, root: Id, d: set<Id>, e: Step)
    requires e.DeliverRestore? && Reviving(t0, g0, s, root, e.user, d) && Enabled(c, s, e)
    ensures Ledger(Apply(c, s, e)) == Ledger(s)
  {
    Outcome(c, t0, g0, s, root, d, e);
    hide Apply, Blocked, Ledger, Unmark;
    if !Blocked(c, s, e) {
      if StillLeft(c, s, e) {
        var mid := s.(folders := MarkRestoring(s.folders, e.folderBatch),
                      files := ReviveRows(s.files, e.fileBatch, Uploaded),
                      queue := s.queue + RestoreEvents(e.folderBatch, e.user));
        SameLedger(s, mid);
        UnmarkKeepsLedger(mid, FileMarkers(e.fileBatch));
      } else {
        var mid := s.(folders := s.folders[e.id := s.folders[e.id].Revive(Unset)],
                      files := ReviveRows(s.files, e.fileBatch, Uploaded),
                      queue := s.queue - multiset{FolderRestore(e.id, e.user)});
        SameLedger(s, mid);
        UnmarkKeepsLedger(mid, FileMarkers(e.fileBatch));
        UnmarkKeepsLedger(Unmark(mid, FileMarkers(e.fileBatch)), {FolderMarker(e.id)});
      }
    }
  }

  lemma SameLedger(s: State, s': State)
    requires s'.markers == s.markers && s'.notices == s.notices
    ensures Ledger(s') == Ledger(s)
  {
  }

  lemma RevivedFilesOf(c: Config, s: State, e: Step)
    requires e.DeliverRestore?
    ensures Advanced(s, Apply(c, s, e), e) || Finished(s, Apply(c, s, e), e)
            ==> Apply(c, s, e).files == ReviveRows(s.files, e.fileBatch, Uploaded)
  {
    hide Apply;
  }

  lemma {:induction false} MarkersRun(c: Config, t0: Table, g0: Table, base: set<Marker>, s: State, root: Id,
                                      user: Id, d: set<Id>, steps: seq<Step>)
    requires Reviving(t0, g0, s, root, user, d) && Run(c, s, steps) && RestoreSteps(steps, user)
    requires MarkersFollow(base, s, root, d) && Unmarked(base, g0, d)
    ensures MarkersFollow(base, After(c, s, steps), root, d) && After(c, s, steps).objects == s.objects
    ensures Ledger(After(c, s, steps)) == Ledger(s)
    decreases |steps|
  {
    hide Apply, MarkersFollow, Unmarked, Ledger, Enabled;
    if steps != [] {
      FirstOfRun(c, s, steps, user);
      DeliveryProgress(c, t0, g0, s, root, d, steps[0]);
      MarkersStep(c, t0, g0, base, s, root, d, steps[0]);
      LedgerStep(c, t0, g0, s, root, d, steps[0]);
      MarkersRun(c, t0, g0, base, Apply(c, s, steps[0]), root, user, d, steps[1..]);
    }
  }
}
