// Trashing a subtree and restoring it gives back the state there was before.
module RoundTrip {
  import opened Basics
  import opened Tables
  import opened Store
  import opened ParentFolders
  import opened BucketFolder
  import opened Protocol
  import opened Invariants
  import opened TrashCover
  import opened TrashRun
  import opened RestoreRun

  // A wholly live, uploaded subtree below live ancestors in an idle system, without stray markers.
  ghost predicate Ready(s: State, root: Id) {
    && Acyclic(s.folders) && Distinct(s.folders) && WellFormed(s) && s.queue == multiset{}
    && WhollyLive(s, root)
    && (forall f :: f in s.files && Below(s.files[f], Subtree(s.folders, root)) ==> s.files[f].status == Uploaded)
    && LiveAbove(s.folders, s.folders[root].parent)
    && Unmarked(s.markers, s.files, Subtree(s.folders, root))
  }

  ghost predicate TrashSteps(steps: seq<Step>, user: Id) {
    forall i :: 0 <= i < |steps| ==> OfRun(steps[i], user)
  }

  // The root keeps the row it got from TrashFolder.
  lemma RootRowStep(c: Config, s0: State, s: State, root: Id, e: Step)
    requires e.DeliverTrash? && Cascading(s0, s, root, e.user) && Enabled(c, s, e)
    ensures root in s.folders && root in Apply(c, s, e).folders
    ensures Apply(c, s, e).folders[root] == s.folders[root]
  {
    hide Apply;
    assert root in TrashedIn(s.folders, Subtree(s0.folders, root));
    BatchesBelow(c, s0, s, root, e);
    DeliveryMoves(c, s, e);
  }

  lemma FirstTrashStep(c: Config, s: State, steps: seq<Step>, user: Id)
    requires Run(c, s, steps) && TrashSteps(steps, user) && steps != []
    ensures OfRun(steps[0], user) && Enabled(c, s, steps[0])
    ensures Run(c, Apply(c, s, steps[0]), steps[1..]) && TrashSteps(steps[1..], user)
    ensures After(c, s, steps) == After(c, Apply(c, s, steps[0]), steps[1..])
  {
    hide Apply;
  }

  lemma {:induction false} RootRowKept(c: Config, s0: State, s: State, root: Id, user: Id, steps: seq<Step>)
    requires c.limit >= 1 && Cascading(s0, s, root, user)
    requires Run(c, s, steps) && TrashSteps(steps, user)
    ensures root in s.folders && root in After(c, s, steps).folders
    ensures After(c, s, steps).folders[root] == s.folders[root]
    decreases |steps|
  {
    assert root in TrashedIn(s.folders, Subtree(s0.folders, root));
    hide Apply, Cascading, Enabled;
    if steps != [] {
      FirstTrashStep(c, s, steps, user);
      RootRowStep(c, s0, s, root, steps[0]);
      CascadeStep(c, s0, s, root, steps[0]);
      RootRowKept(c, s0, Apply(c, s, steps[0]), root, user, steps[1..]);
    }
  }

  // The folders above the root are as they were, so RestoreFolder has none to bring back.
  lemma NothingAboveToRestore(s0: State, s: State, root: Id, user: Id)
    requires Ready(s0, root) && WhollyTrashed(s0, s, root, user)
    ensures root in s.folders && s.folders[root].parent == s0.folders[root].parent
    ensures TrashedAncestors(s.folders, s.folders[root].parent) == {}
    ensures WithParents(s.folders, s.folders[root].parent) == s.folders
  {
    var start := s0.folders[root].parent;
    SubtreeStep(s0.folders, root, root);
    forall a | a in s.folders && OnChain(s.folders, start, a)
      ensures s.folders[a].Live()
    {
      var n: nat :| Climb(s.folders, start, n) == Some(a);
      ClimbSame(s.folders, s0.folders, start, n);
      assert OnChain(s0.folders, start, a);
      AboveIsNotBelow(s0.folders, root, a);
    }
    assert TrashedAncestors(s.folders, start) == {};
  }

  // RestoreFolder takes the trashed subtree back.
  lemma RestoreAccepted(c: Config, s0: State, s: State, root: Id, user: Id, user2: Id, now2: nat)
    requires Ready(s0, root) && WhollyTrashed(s0, s, root, user)
    requires root in s.folders && s.folders[root].deletedAt.Some?
    requires now2 - s.folders[root].deletedAt.value <= c.retention
    ensures var r := RestoreFolder(s, root, user2, now2, c.retention);
            && r.1 == Accepted
            && r.0 == Unmark(s, {FolderMarker(root)}).(
                        folders := s.folders[root := s.folders[root].(status := Restoring)],
                        queue := multiset{FolderRestore(root, user2)})
  {
    NothingAboveToRestore(s0, s, root, user);
    SubtreeStep(s0.folders, root, root);
    var row := s.folders[root];
    forall i | i in s.folders && i != root && s.folders[i].Live() && s.folders[i].parent == row.parent
      ensures s.folders[i].name != row.name
    {
      assert s.folders[i] == s0.folders[i];
    }
    assert FolderMarkers({}) + {FolderMarker(root)} == {FolderMarker(root)};
  }

  // Once everything is revived, the tables are those from before.
  lemma RevivedFolders(t0: Table, t: Table, d: set<Id>, user: Id)
    requires PartlyTrashed(t0, t, d, user) && GoodFolders(t0) && forall x :: x in d ==> x in t0 && t0[x].Live()
    ensures ReviveRows(t, d, Unset) == t0
  {
    forall x | x in t
      ensures ReviveRows(t, d, Unset)[x] == t0[x]
    {
      assert GoodFolder(t0[x]);
    }
  }

  lemma RevivedFiles(g0: Table, g: Table, d: set<Id>, user: Id)
    requires PartlyTrashedBelow(g0, g, d, user) && GoodFiles(g0)
    requires forall f :: f in g0 && Below(g0[f], d) ==> g0[f].Live() && g0[f].status == Uploaded
    ensures ReviveRows(g, FilesBelow(g, d), Uploaded) == g0
  {
    forall f | f in g
      ensures ReviveRows(g, FilesBelow(g, d), Uploaded)[f] == g0[f]
    {
      assert GoodFile(g0[f]);
    }
  }

  lemma MarkedThenRevived(t: Table, d: set<Id>, root: Id)
    requires root in d && root in t
    ensures ReviveRows(t[root := t[root].(status := Restoring)], d, Unset) == ReviveRows(t, d, Unset)
  {
  }

  // The start of the restore, seen from the state before the trash.
  lemma RestoreOfTrashed(c: Config, s0: State, s: State, root: Id, user: Id, user2: Id, now2: nat)
    requires Ready(s0, root) && WhollyTrashed(s0, s, root, user)
    requires root in s.folders && s.folders[root].deletedAt.Some?
    requires now2 - s.folders[root].deletedAt.value <= c.retention
    ensures var s', d := RestoreFolder(s, root, user2, now2, c.retention).0, Subtree(s0.folders, root);
            && Reviving(s0.folders, s0.files, s', root, user2, d)
            && MarkersFollow(s0.markers, s', root, d) && s'.objects == s0.objects && Ledger(s') == Ledger(s)
  {
    var d := Subtree(s0.folders, root);
    SubtreeStep(s0.folders, root, root);
    assert SameLinks(s0.folders, s.folders);
    SubtreeSame(s0.folders, s.folders, root);
    AcyclicSameLinks(s0.folders, s.folders);
    RestoreAccepted(c, s0, s, root, user, user2, now2);
    RevivedFolders(s0.folders, s.folders, d, user);
    MarkedThenRevived(s.folders, d, root);
    RevivedFiles(s0.files, s.files, d, user);
    TrashedIsRecoverable(s0, s, root, user);
    var files := TrashedBelow(s.files, d) * s0.objects;
    FolderMarkerRemoved(s0.markers, d, files, root);
    MarkedStayTrashed(s, root, d);
    UnmarkKeepsLedger(s, {FolderMarker(root)});
    SameLedger(Unmark(s, {FolderMarker(root)}), RestoreFolder(s, root, user2, now2, c.retention).0);
    hide RestoreFolder, Reviving, Ready, WhollyTrashed, Subtree, Acyclic, SameLinks, ReviveRows, WhollyRecoverable,
      Ledger, MarkerNotices;
    RestoreStarts(s, root, user2, now2, c.retention);
  }

  lemma TrashedIsRecoverable(s0: State, s: State, root: Id, user: Id)
    requires Ready(s0, root) && WhollyTrashed(s0, s, root, user)
             && Subtree(s.folders, root) == Subtree(s0.folders, root)
    requires root in s.folders
    ensures WhollyRecoverable(s, root)
  {
  }

  lemma MarkedStayTrashed(s: State, root: Id, d: set<Id>)
    requires root in s.folders && !s.folders[root].Live()
    requires forall x :: x in d ==> x in s.folders && !s.folders[x].Live()
    ensures TrashedIn(s.folders[root := s.folders[root].(status := Restoring)], d) == d
  {
  }

  lemma FirstHalf(c: Config, s0: State, s1: State, s2: State, root: Id, user: Id, now: nat, steps: seq<Step>)
    requires c.limit >= 1 && Ready(s0, root)
    requires s1 == TrashFolder(s0, root, user, now).0
    requires Run(c, s1, steps) && TrashSteps(steps, user) && s2 == After(c, s1, steps) && s2.queue == multiset{}
    ensures WhollyTrashed(s0, s2, root, user)
    ensures root in s2.folders && s2.folders[root].deletedAt == Some(now)
  {
    SubtreeStep(s0.folders, root, root);
    assert GoodFolder(s0.folders[root]) && s0.folders[root].Live();
    assert s1.folders[root].deletedAt == Some(now);
    hide Apply, Run, After, Cascading;
    CascadeStarts(c.limit, s0, root, user, now);
    TrashDrainsExactly(c, s0, root, user, now, steps);
    RootRowKept(c, s0, s1, root, user, steps);
  }

  lemma SecondHalf(c: Config, s0: State, s2: State, s3: State, s4: State, root: Id, user: Id,
                   user2: Id, now2: nat, steps: seq<Step>)
    requires Ready(s0, root) && WhollyTrashed(s0, s2, root, user)
    requires root in s2.folders && s2.folders[root].deletedAt.Some?
    requires now2 - s2.folders[root].deletedAt.value <= c.retention
    requires s3 == RestoreFolder(s2, root, user2, now2, c.retention).0
    requires Run(c, s3, steps) && RestoreSteps(steps, user2) && s4 == After(c, s3, steps) && s4.queue == multiset{}
    ensures s4 == s0.(notices := s4.notices) && Ledger(s4) == Ledger(s2)
  {
    var d := Subtree(s0.folders, root);
    NothingTrashed(s0, root);
    assert Unmarked(s0.markers, s0.files, d);
    hide *;
    RestoreOfTrashed(c, s0, s2, root, user, user2, now2);
    RestoreRunKeeps(c, s0.folders, s0.files, s3, root, user2, d, steps);
    MarkersRun(c, s0.folders, s0.files, s0.markers, s3, root, user2, d, steps);
    DrainedMeansBack(s0.folders, s0.files, s4, root, user2, d);
    NoMarkersLeft(s0.markers, s4, root, d);
  }

  lemma NothingTrashed(s: State, root: Id)
    requires Ready(s, root)
    ensures s.queue == multiset{}
    ensures var d := Subtree(s.folders, root);
            TrashedIn(s.folders, d) == {} && TrashedBelow(s.files, d) == {}
  {
  }

  lemma NoMarkersLeft(base: set<Marker>, s: State, root: Id, d: set<Id>)
    requires MarkersFollow(base, s, root, d)
    requires TrashedIn(s.folders, d) == {} && TrashedBelow(s.files, d) == {}
    ensures s.markers == base
  {
  }

  // The markers that the trash puts.
  ghost function MarkersPut(s: State, root: Id): set<Marker> {
    var d := Subtree(s.folders, root);
    MarkersOf(d, FilesBelow(s.files, d) * s.objects)
  }

  // The reports about them are all that is left of the trip.
  lemma ReportsLeft(s0: State, s2: State, s4: State, root: Id, user: Id)
    requires Ready(s0, root) && WhollyTrashed(s0, s2, root, user)
    requires s4.markers == s0.markers && Ledger(s4) == Ledger(s2)
    ensures s4.notices == s0.notices + MarkerNotices(MarkersPut(s0, root))
  {
    var d := Subtree(s0.folders, root);
    assert TrashedBelow(s2.files, d) == FilesBelow(s0.files, d);
    MarkersApart(s0, root);
    hide Ready, WhollyTrashed, MarkersPut, MarkerNotices;
    NoticesOfUnion(s0.markers, MarkersPut(s0, root));
    assert MarkerNotices(s0.markers) + s4.notices
        == MarkerNotices(s0.markers) + (s0.notices + MarkerNotices(MarkersPut(s0, root)));
    Cancel(MarkerNotices(s0.markers), s4.notices, s0.notices + MarkerNotices(MarkersPut(s0, root)));
  }

  lemma Cancel<T>(a: multiset<T>, b: multiset<T>, c: multiset<T>)
    requires a + b == a + c
    ensures b == c
  {
    forall x
      ensures b[x] == c[x]
    {
      assert (a + b)[x] == (a + c)[x];
    }
  }

  lemma MarkersApart(s: State, root: Id)
    requires Ready(s, root)
    ensures s.markers !! MarkersPut(s, root)
  {
  }

  // TrashFolder, any complete run of its cascade, RestoreFolder within the retention period, any
  // complete run of that cascade: rows, objects, markers and queue are what they were, and each
  // marker put in between is going to be reported once.
  lemma TrashThenRestore(c: Config, s0: State, s1: State, s2: State, s3: State, s4: State, root: Id,
                         user: Id, now: nat, trashSteps: seq<Step>, user2: Id, now2: nat, restoreSteps: seq<Step>)
    requires c.limit >= 1 && Ready(s0, root) && now2 - now <= c.retention
    requires s1 == TrashFolder(s0, root, user, now).0
    requires Run(c, s1, trashSteps) && TrashSteps(trashSteps, user)
    requires s2 == After(c, s1, trashSteps) && s2.queue == multiset{}
    requires s3 == RestoreFolder(s2, root, user2, now2, c.retention).0
    requires Run(c, s3, restoreSteps) && RestoreSteps(restoreSteps, user2)
    requires s4 == After(c, s3, restoreSteps) && s4.queue == multiset{}
    ensures RestoreFolder(s2, root, user2, now2, c.retention).1 == Accepted
    ensures s4 == s0.(notices := s0.notices + MarkerNotices(MarkersPut(s0, root)))
  {
    hide *;
    FirstHalf(c, s0, s1, s2, root, user, now, trashSteps);
    RestoreAccepted(c, s0, s2, root, user, user2, now2);
    SecondHalf(c, s0, s2, s3, s4, root, user, user2, now2, restoreSteps);
    ReportsLeft(s0, s2, s4, root, user);
  }
}
