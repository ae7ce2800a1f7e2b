// Purging a folder that nothing else disturbs: whether it ever ends, how many deliveries it takes,
// and what is gone then.
module PurgeRun {
  import opened Basics
  import opened Tables
  import opened Store
  import opened BucketFolder
  import opened FolderPurgeEvent
  import opened Protocol
  import opened Names
  import opened TrashRun
  import opened RestoreRun

  // ----- names in the way

  // Detaching the rows below `gone` moves a live one to the top level next to a namesake.
  ghost predicate DetachClash(t: Table, gone: set<Id>) {
    exists i, j :: i in t && j in t && i != j && t[i].Live() && t[j].Live() && t[i].name == t[j].name
                   && t[i].parent.Some? && t[i].parent.value in gone
                   && (t[j].parent.Some? ==> t[j].parent.value in gone)
  }

  lemma UnlinkNames(t: Table, removed: set<Id>, gone: set<Id>)
    requires Distinct(t) && forall i :: i in removed && i in t ==> !t[i].Live()
    ensures Distinct(Unlink(t - removed, gone, true)) <==> !DetachClash(t, gone)
  {
    var u := Unlink(t - removed, gone, true);
    if DetachClash(t, gone) {
      var i, j :| i in t && j in t && i != j && t[i].Live() && t[j].Live() && t[i].name == t[j].name
                  && t[i].parent.Some? && t[i].parent.value in gone
                  && (t[j].parent.Some? ==> t[j].parent.value in gone);
      assert u[i].parent == u[j].parent && u[i].name == u[j].name;
    }
  }

  // No live row will be moved next to a namesake: asked of the folders that go and of all that is
  // below them.
  ghost predicate PurgeClear(schema: bool, s: State, id: Id) {
    var gone := TrashedChildren(s.folders, id) + {id};
    schema ==> !DetachClash(s.folders, gone) && !DetachClash(s.files, gone)
  }

  // ----- the state during the run

  // The state without these folders and files.
  ghost function Removed(s: State, folders: set<Id>, files: set<Id>, schema: bool): State {
    RemoveObjects(s.(folders := Unlink(s.folders - folders, folders, schema),
                     files := Unlink(s.files - files, folders, schema)), files)
  }

  lemma UnlinkFiles(g: Table, a: set<Id>, b: set<Id>, x: set<Id>, y: set<Id>, schema: bool)
    ensures Unlink(Unlink(g - x, a, schema), b, schema) - y == Unlink(g - (x + y), a + b, schema)
  {
  }

  lemma ObjectsRemovedTwice(s: State, a: set<Id>, b: set<Id>)
    ensures RemoveObjects(RemoveObjects(s, a), b) == RemoveObjects(s, a + b)
  {
    var first, second := a * s.objects, b * (s.objects - a);
    var na, nb := set i | i in first :: ObjectRemoved(i), set i | i in second :: ObjectRemoved(i);
    assert (set i | i in first + second :: ObjectRemoved(i)) == na + nb && na !! nb;
    assert first + second == (a + b) * s.objects;
    assert s.objects - a - b == s.objects - (a + b);
  }

  lemma RemovedMore(s0: State, folders: set<Id>, files: set<Id>, more: set<Id>, moreFiles: set<Id>, schema: bool)
    ensures var s1 := DropFolders(Removed(s0, folders, files, schema), more, schema);
            RemoveObjects(s1.(files := s1.files - moreFiles), moreFiles)
            == Removed(s0, folders + more, files + moreFiles, schema)
  {
    UnlinkTwice(s0.folders, folders, more, schema);
    UnlinkFiles(s0.files, folders, more, files, moreFiles, schema);
    ObjectsRemovedTwice(s0, files, moreFiles);
    hide Unlink, ObjectNotices;
  }

  lemma ChildrenStillThere(t: Table, gone: set<Id>, folders: set<Id>, id: Id, schema: bool)
    requires id !in folders
    ensures TrashedChildren(Unlink(t - gone, folders, schema), id) == TrashedChildren(t, id) - gone
  {
  }

  lemma NotItsOwnChild(t: Table, id: Id)
    requires Acyclic(t) && id in t
    ensures id !in TrashedChildren(t, id)
  {
    var rank :| Ranks(t, rank);
  }

  // A purge of `id` on the way: these children are gone from the tables.
  ghost predicate Purging(s0: State, s: State, id: Id, user: Id, folders: set<Id>, files: set<Id>, schema: bool) {
    && id in s0.folders && !s0.folders[id].Live()
    && folders <= TrashedChildren(s0.folders, id) && files <= TrashedChildren(s0.files, id)
    && s.folders == Removed(s0, folders, files, schema).folders && s.files == Removed(s0, folders, files, schema).files
    && s.queue == multiset{FolderPurge(id, user)}
  }

  // Objects, markers and reports, too, are what they should be.
  ghost predicate Exactly(s0: State, s: State, folders: set<Id>, files: set<Id>, schema: bool) {
    s == Removed(s0, folders, files, schema).(queue := s.queue)
  }

  ghost predicate OfPurge(e: Step, user: Id) {
    e.DeliverPurge? && e.user == user
  }

  // The folder, its trashed children, their objects and its marker are gone, and nothing else; no
  // message is left.
  ghost predicate Purged(s0: State, s: State, id: Id, schema: bool) {
    s == Unmark(Removed(s0, TrashedChildren(s0.folders, id) + {id}, TrashedChildren(s0.files, id), schema),
                {FolderMarker(id)}).(queue := multiset{})
  }

  // The rows that a delivery sees.
  lemma PurgingSees(s0: State, s: State, id: Id, user: Id, folders: set<Id>, files: set<Id>, schema: bool)
    requires Acyclic(s0.folders) && Purging(s0, s, id, user, folders, files, schema)
    ensures id !in folders && id in s.folders && !s.folders[id].Live()
    ensures TrashedChildren(s.folders, id) == TrashedChildren(s0.folders, id) - folders
    ensures TrashedChildren(s.files, id) == TrashedChildren(s0.files, id) - files
  {
    NotItsOwnChild(s0.folders, id);
    ChildrenStillThere(s0.folders, folders, folders, id, schema);
    ChildrenStillThere(s0.files, files, folders, id, schema);
  }

  // What the indexes say to removing more folders, in terms of the state before.
  lemma MayDropExactly(c: Config, s0: State, s: State, id: Id, user: Id, folders: set<Id>, files: set<Id>,
                       more: set<Id>)
    requires Tidy(c, s0) && Purging(s0, s, id, user, folders, files, c.schema)
    requires more <= TrashedChildren(s0.folders, id) + {id}
    ensures MayDrop(s, more, c.schema)
            <==> (c.schema ==> !DetachClash(s0.folders, folders + more) && !DetachClash(s0.files, folders + more))
  {
    hide Unlink, DetachClash, Distinct, Acyclic;
    if c.schema {
      UnlinkTwice(s0.folders, folders, more, true);
      UnlinkFiles(s0.files, folders, more, files, {}, true);
      LiveStay(s0, id);
      UnlinkNames(s0.folders, folders + more, folders + more);
      UnlinkNames(s0.files, files, folders + more);
      assert files + {} == files;
      var g := Unlink(s.files, more, true);
      assert g - {} == g;
    }
  }

  lemma LiveStay(s: State, id: Id)
    requires id in s.folders && !s.folders[id].Live()
    ensures forall i :: i in TrashedChildren(s.folders, id) + {id} ==> !s.folders[i].Live()
    ensures forall i :: i in TrashedChildren(s.files, id) ==> !s.files[i].Live()
  {
  }

  lemma FewerClashes(t: Table, few: set<Id>, many: set<Id>)
    requires few <= many && !DetachClash(t, many)
    ensures !DetachClash(t, few)
  {
  }

  // ----- one delivery

  // The delivered message is the one that is pending.
  lemma PurgeDelivered(c: Config, s: State, id: Id, user: Id, e: Step)
    requires OfPurge(e, user) && Enabled(c, s, e) && s.queue == multiset{FolderPurge(id, user)}
    ensures e.id == id && IsBatch(c.limit, TrashedChildren(s.folders, id), e.folderBatch)
            && IsBatch(c.limit, TrashedChildren(s.files, id), e.fileBatch)
  {
    assert FolderPurge(e.id, user) in s.queue;
  }

  lemma NothingRemoved(s: State, schema: bool)
    ensures Removed(s, {}, {}, schema) == s && s.files - {} == s.files && RemoveObjects(s, {}) == s
  {
    assert Unlink(s.folders - {}, {}, schema) == s.folders && Unlink(s.files - {}, {}, schema) == s.files;
    assert {} * s.objects == {} && s.objects - {} == s.objects && ObjectNotices({}) == multiset{};
    assert s.files - {} == s.files;
  }

  // The tables after the transaction.
  lemma ChildrenPurged(schema: bool, s0: State, s: State, folders: set<Id>, files: set<Id>, more: set<Id>,
                       moreFiles: set<Id>)
    requires s.folders == Removed(s0, folders, files, schema).folders
             && s.files == Removed(s0, folders, files, schema).files
    ensures var s1, mid := DropFolders(s, more, schema), Removed(s0, folders + more, files + moreFiles, schema);
            s1.folders == mid.folders && s1.files - moreFiles == mid.files
    ensures Exactly(s0, s, folders, files, schema) ==>
              var s1 := DropFolders(s, more, schema);
              Exactly(s0, RemoveObjects(s1.(files := s1.files - moreFiles), moreFiles), folders + more,
                      files + moreFiles, schema)
  {
    RemovedMore(s0, folders, files, more, moreFiles, schema);
    hide Unlink, ObjectNotices;
  }

  lemma SetsApart(all: set<Id>, gone: set<Id>, more: set<Id>)
    ensures all - (gone + more) == all - gone - more
    ensures gone <= all && more <= all && all - gone - more == {} ==> gone + more == all
  {
    if gone <= all && more <= all && all - gone - more == {} {
      forall x | x in all
        ensures x in gone + more
      {
        assert x !in all - gone - more;
      }
      assert gone + more == all;
    }
  }

  // The state between the transaction and the rest of the callback.
  ghost function Midway(s: State, e: Step, schema: bool): State
    requires e.DeliverPurge?
  {
    var s1 := DropFolders(s, e.folderBatch, schema);
    RemoveObjects(s1.(files := s1.files - e.fileBatch), e.fileBatch)
  }

  lemma MidwayPurging(c: Config, s0: State, s: State, id: Id, user: Id, folders: set<Id>, files: set<Id>, e: Step)
    requires Acyclic(s0.folders) && Purging(s0, s, id, user, folders, files, c.schema)
    requires OfPurge(e, user) && Enabled(c, s, e)
    ensures var mid := Midway(s, e, c.schema);
            && Purging(s0, mid, id, user, folders + e.folderBatch, files + e.fileBatch, c.schema)
            && (Exactly(s0, s, folders, files, c.schema) ==>
                  Exactly(s0, mid, folders + e.folderBatch, files + e.fileBatch, c.schema))
            && TrashedChildren(mid.folders, id) == TrashedChildren(s0.folders, id) - folders - e.folderBatch
            && TrashedChildren(mid.files, id) == TrashedChildren(s0.files, id) - files - e.fileBatch
    ensures e.id == id && id in s.folders && !s.folders[id].Live()
    ensures IsBatch(c.limit, TrashedChildren(s0.folders, id) - folders, e.folderBatch)
    ensures IsBatch(c.limit, TrashedChildren(s0.files, id) - files, e.fileBatch)
  {
    PurgeDelivered(c, s, id, user, e);
    PurgingSees(s0, s, id, user, folders, files, c.schema);
    ChildrenPurged(c.schema, s0, s, folders, files, e.folderBatch, e.fileBatch);
    hide Removed, TrashedChildren, Unlink, Acyclic, ObjectNotices, Enabled, Exactly;
    var mid := Midway(s, e, c.schema);
    assert Purging(s0, mid, id, user, folders + e.folderBatch, files + e.fileBatch, c.schema);
    PurgingSees(s0, mid, id, user, folders + e.folderBatch, files + e.fileBatch, c.schema);
    SetsApart(TrashedChildren(s0.folders, id), folders, e.folderBatch);
    SetsApart(TrashedChildren(s0.files, id), files, e.fileBatch);
  }

  // The four ways a delivery can go.
  lemma PurgeApplied(c: Config, s: State, e: Step)
    requires e.DeliverPurge? && e.id in s.folders && !s.folders[e.id].Live()
    requires s.queue == multiset{FolderPurge(e.id, e.user)}
    ensures var mid := Midway(s, e, c.schema);
            var unmarked := Unmark(mid, {FolderMarker(e.id)});
            Apply(c, s, e) ==
              if !MayDrop(s, e.folderBatch, c.schema) then s
              else if TrashedChildren(mid.folders, e.id) != {} || TrashedChildren(mid.files, e.id) != {} then mid
              else if !MayDrop(unmarked, {e.id}, c.schema) then unmarked
              else DropFolders(unmarked, {e.id}, c.schema).(queue := multiset{})
  {
    hide MayDrop, TrashedChildren, Unlink, ObjectNotices, MarkerNotices;
  }

  lemma MayDropUnmarked(s: State, marker: Marker, gone: set<Id>, schema: bool)
    ensures MayDrop(Unmark(s, {marker}), gone, schema) <==> MayDrop(s, gone, schema)
  {
  }

  // Whatever happens, the purge is still on its way, or over because no name was in the way.
  lemma PurgeGoesOn(c: Config, s0: State, s: State, id: Id, user: Id, folders: set<Id>, files: set<Id>, e: Step)
    returns (folders': set<Id>, files': set<Id>)
    requires Tidy(c, s0) && Purging(s0, s, id, user, folders, files, c.schema) && OfPurge(e, user) && Enabled(c, s, e)
    ensures var s' := Apply(c, s, e);
            && (s'.queue == multiset{} ==> PurgeClear(c.schema, s0, id))
            && (s'.queue != multiset{} ==> Purging(s0, s', id, user, folders', files', c.schema))
  {
    var mid := Midway(s, e, c.schema);
    var cf, cg := TrashedChildren(s0.folders, id), TrashedChildren(s0.files, id);
    MidwayPurging(c, s0, s, id, user, folders, files, e);
    PurgeApplied(c, s, e);
    MayDropUnmarked(mid, FolderMarker(id), {id}, c.schema);
    MayDropExactly(c, s0, mid, id, user, folders + e.folderBatch, files + e.fileBatch, {id});
    SetsApart(cf, folders, e.folderBatch);
    StillThere(s0, mid, id, user, folders + e.folderBatch, files + e.fileBatch, c.schema);
    hide Apply, Midway, Enabled, MayDrop, DetachClash, TrashedChildren, Tidy, Purging, MarkerNotices;
    if MayDrop(s, e.folderBatch, c.schema) {
      folders', files' := folders + e.folderBatch, files + e.fileBatch;
    } else {
      folders', files' := folders, files;
    }
    QueueStays(s0, s, id, user, folders, files, c.schema);
  }

  lemma QueueStays(s0: State, s: State, id: Id, user: Id, folders: set<Id>, files: set<Id>, schema: bool)
    requires Purging(s0, s, id, user, folders, files, schema)
    ensures s.queue != multiset{}
  {
  }

  // Removing the marker does not matter to the picture.
  lemma StillThere(s0: State, s: State, id: Id, user: Id, folders: set<Id>, files: set<Id>, schema: bool)
    requires Purging(s0, s, id, user, folders, files, schema)
    ensures Purging(s0, Unmark(s, {FolderMarker(id)}), id, user, folders, files, schema)
    ensures s.queue == multiset{FolderPurge(id, user)} && Unmark(s, {FolderMarker(id)}).queue == s.queue
  {
    hide Removed, MarkerNotices;
  }

  // ----- one delivery is one round, unless a name is in the way

  function RoundsLeft(limit: nat, s0: State, id: Id, folders: set<Id>, files: set<Id>): nat
    requires limit >= 1
  {
    Rounds(limit, |TrashedChildren(s0.folders, id) - folders|, |TrashedChildren(s0.files, id) - files|)
  }

  lemma RoundsDrop(limit: nat, a: set<Id>, b: set<Id>, x: set<Id>, y: set<Id>)
    requires limit >= 1 && IsBatch(limit, a, x) && IsBatch(limit, b, y)
    ensures a - x == {} && b - y == {} ==> Rounds(limit, |a|, |b|) == 1
    ensures !(a - x == {} && b - y == {}) ==> Rounds(limit, |a - x|, |b - y|) == Rounds(limit, |a|, |b|) - 1
    ensures Rounds(limit, |a|, |b|) >= 1 && Rounds(limit, |a - x|, |b - y|) >= 1
  {
    BatchLeaves(limit, a, x);
    BatchLeaves(limit, b, y);
    RoundsStep(limit, |a|, |b|);
  }

  // With no name in the way nothing is refused.
  lemma NothingRefused(c: Config, s0: State, s: State, id: Id, user: Id, folders: set<Id>, files: set<Id>,
                       more: set<Id>)
    requires Tidy(c, s0) && Purging(s0, s, id, user, folders, files, c.schema) && PurgeClear(c.schema, s0, id)
    requires more <= TrashedChildren(s0.folders, id) + {id}
    ensures MayDrop(s, more, c.schema)
  {
    MayDropExactly(c, s0, s, id, user, folders, files, more);
    if c.schema {
      FewerClashes(s0.folders, folders + more, TrashedChildren(s0.folders, id) + {id});
      FewerClashes(s0.files, folders + more, TrashedChildren(s0.folders, id) + {id});
    }
  }

  // The last delivery.
  lemma PurgeEnds(schema: bool, s0: State, mid: State, id: Id, user: Id)
    requires Exactly(s0, mid, TrashedChildren(s0.folders, id), TrashedChildren(s0.files, id), schema)
    ensures Purged(s0, DropFolders(Unmark(mid, {FolderMarker(id)}), {id}, schema).(queue := multiset{}), id, schema)
  {
    var cf, cg := TrashedChildren(s0.folders, id), TrashedChildren(s0.files, id);
    RemovedMore(s0, cf, cg, {id}, {}, schema);
    assert cg + {} == cg;
    NothingRemoved(DropFolders(Removed(s0, cf, cg, schema), {id}, schema), schema);
    hide TrashedChildren, Unlink, ObjectNotices, MarkerNotices;
  }

  lemma PurgeStep(c: Config, s0: State, s: State, id: Id, user: Id, folders: set<Id>, files: set<Id>, e: Step)
    requires c.limit >= 1 && Tidy(c, s0) && PurgeClear(c.schema, s0, id) && OfPurge(e, user) && Enabled(c, s, e)
    requires Purging(s0, s, id, user, folders, files, c.schema) && Exactly(s0, s, folders, files, c.schema)
    ensures var s', n := Apply(c, s, e), RoundsLeft(c.limit, s0, id, folders, files);
            if n == 1 then Purged(s0, s', id, c.schema)
            else Purging(s0, s', id, user, folders + e.folderBatch, files + e.fileBatch, c.schema)
                 && Exactly(s0, s', folders + e.folderBatch, files + e.fileBatch, c.schema)
                 && RoundsLeft(c.limit, s0, id, folders + e.folderBatch, files + e.fileBatch) == n - 1
  {
    var mid, fs, gs := Midway(s, e, c.schema), folders + e.folderBatch, files + e.fileBatch;
    var cf, cg := TrashedChildren(s0.folders, id), TrashedChildren(s0.files, id);
    MidwayPurging(c, s0, s, id, user, folders, files, e);
    PurgeApplied(c, s, e);
    NothingRefused(c, s0, s, id, user, folders, files, e.folderBatch);
    NothingRefused(c, s0, mid, id, user, fs, gs, {id});
    MayDropUnmarked(mid, FolderMarker(id), {id}, c.schema);
    RoundsDrop(c.limit, cf - folders, cg - files, e.folderBatch, e.fileBatch);
    SetsApart(cf, folders, e.folderBatch);
    SetsApart(cg, files, e.fileBatch);
    hide Apply, Midway, Enabled, MayDrop, TrashedChildren, Tidy, MarkerNotices, Rounds, PurgeClear, Removed, Exactly,
      Purged;
    if cf - folders - e.folderBatch == {} && cg - files - e.fileBatch == {} {
      PurgeEnds(c.schema, s0, mid, id, user);
    }
  }

  // ----- runs

  ghost predicate PurgeSteps(steps: seq<Step>, user: Id) {
    forall i :: 0 <= i < |steps| ==> OfPurge(steps[i], user)
  }

  lemma FirstPurgeStep(c: Config, s: State, steps: seq<Step>, user: Id)
    requires Run(c, s, steps) && PurgeSteps(steps, user) && steps != []
    ensures OfPurge(steps[0], user) && Enabled(c, s, steps[0])
    ensures Run(c, Apply(c, s, steps[0]), steps[1..]) && PurgeSteps(steps[1..], user)
    ensures After(c, s, steps) == After(c, Apply(c, s, steps[0]), steps[1..])
    ensures s.queue != multiset{}
  {
    assert Protocol.Delivered(steps[0]).Some?;
    hide Apply;
  }

  lemma {:induction false} PurgeSequence(c: Config, s0: State, s: State, id: Id, user: Id, folders: set<Id>,
                                         files: set<Id>, steps: seq<Step>)
    requires c.limit >= 1 && Tidy(c, s0) && PurgeClear(c.schema, s0, id)
    requires Purging(s0, s, id, user, folders, files, c.schema) && Exactly(s0, s, folders, files, c.schema)
    requires Run(c, s, steps) && PurgeSteps(steps, user)
    ensures var n, s' := RoundsLeft(c.limit, s0, id, folders, files), After(c, s, steps);
            && |steps| <= n && (s'.queue == multiset{} <==> |steps| == n)
            && (s'.queue == multiset{} ==> Purged(s0, s', id, c.schema))
    decreases |steps|
  {
    var n := RoundsLeft(c.limit, s0, id, folders, files);
    QueueStays(s0, s, id, user, folders, files, c.schema);
    assert n >= 1;
    hide Apply, Enabled, Purging, Exactly, Purged, RoundsLeft, PurgeSteps, Tidy, PurgeClear;
    if steps != [] {
      FirstPurgeStep(c, s, steps, user);
      var e, s1 := steps[0], Apply(c, s, steps[0]);
      PurgeStep(c, s0, s, id, user, folders, files, e);
      if n == 1 {
        PurgedIsIdle(s0, s1, id, c.schema);
        if steps[1..] != [] {
          FirstPurgeStep(c, s1, steps[1..], user);
        }
      } else {
        PurgeSequence(c, s0, s1, id, user, folders + e.folderBatch, files + e.fileBatch, steps[1..]);
      }
    }
  }

  lemma PurgedIsIdle(s0: State, s: State, id: Id, schema: bool)
    requires Purged(s0, s, id, schema)
    ensures s.queue == multiset{}
  {
  }

  lemma {:induction false} PurgeNeverEnds(c: Config, s0: State, s: State, id: Id, user: Id, folders: set<Id>,
                                          files: set<Id>, steps: seq<Step>)
    requires Tidy(c, s0) && !PurgeClear(c.schema, s0, id) && Purging(s0, s, id, user, folders, files, c.schema)
    requires Run(c, s, steps) && PurgeSteps(steps, user)
    ensures After(c, s, steps).queue != multiset{}
    decreases |steps|
  {
    QueueStays(s0, s, id, user, folders, files, c.schema);
    hide Apply, Enabled, Purging, PurgeSteps, Tidy, PurgeClear;
    if steps != [] {
      FirstPurgeStep(c, s, steps, user);
      var folders', files' := PurgeGoesOn(c, s0, s, id, user, folders, files, steps[0]);
      PurgeNeverEnds(c, s0, Apply(c, s, steps[0]), id, user, folders', files', steps[1..]);
    }
  }

  // Purging a trashed folder in an otherwise idle system. When no live row would be moved next to a
  // namesake, the queue is empty after exactly max(1, ceil(max(trashed child folders, trashed child
  // files) / limit)) deliveries, whatever batches the database picks, and not before; by then the
  // folder and its trashed children are gone, with the objects of those files, and nothing below the
  // children is. Otherwise the queue is never empty.
  lemma PurgeDrainsExactly(c: Config, s0: State, id: Id, user: Id, steps: seq<Step>)
    requires c.limit >= 1 && Tidy(c, s0) && s0.queue == multiset{} && id in s0.folders && !s0.folders[id].Live()
    requires Run(c, PurgeFolder(s0, id, user).0, steps) && PurgeSteps(steps, user)
    ensures var s := After(c, PurgeFolder(s0, id, user).0, steps);
            var n := Rounds(c.limit, |TrashedChildren(s0.folders, id)|, |TrashedChildren(s0.files, id)|);
            if PurgeClear(c.schema, s0, id) then
              && |steps| <= n && (s.queue == multiset{} <==> |steps| == n)
              && (s.queue == multiset{} ==> Purged(s0, s, id, c.schema))
            else s.queue != multiset{}
  {
    var s1 := PurgeFolder(s0, id, user).0;
    PurgeStarts(s0, id, user, c.schema);
    var cf, cg := TrashedChildren(s0.folders, id), TrashedChildren(s0.files, id);
    assert cf - {} == cf && cg - {} == cg;
    hide Apply, Enabled, Run, After, Purging, Exactly, Purged, PurgeFolder, PurgeClear, Tidy;
    if PurgeClear(c.schema, s0, id) {
      PurgeSequence(c, s0, s1, id, user, {}, {}, steps);
    } else {
      PurgeNeverEnds(c, s0, s1, id, user, {}, {}, steps);
    }
  }

  lemma PurgeStarts(s0: State, id: Id, user: Id, schema: bool)
    requires s0.queue == multiset{} && id in s0.folders && !s0.folders[id].Live()
    ensures var s := PurgeFolder(s0, id, user).0;
            Purging(s0, s, id, user, {}, {}, schema) && Exactly(s0, s, {}, {}, schema)
  {
    NothingRemoved(s0, schema);
    assert s0.queue + multiset{FolderPurge(id, user)} == multiset{FolderPurge(id, user)};
    hide Removed;
  }
}
