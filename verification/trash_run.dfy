// Trashing a subtree that nothing else disturbs: how many deliveries it takes, and where it ends.
module TrashRun {
  import opened Basics
  import opened Tables
  import opened Store
  import opened BucketFolder
  import opened FolderTrashEvent
  import opened Protocol

  // ----- counting

  function CeilDiv(m: nat, limit: nat): nat
    requires limit >= 1
    decreases m
  {
    if m == 0 then 0 else 1 + CeilDiv(if m > limit then m - limit else 0, limit)
  }

  // CeilDiv is m / limit rounded up.
  lemma {:induction false} CeilDivBounds(m: nat, limit: nat)
    requires limit >= 1
    ensures m <= CeilDiv(m, limit) * limit < m + limit
    decreases m
  {
    if m > limit {
      CeilDivBounds(m - limit, limit);
      assert CeilDiv(m, limit) * limit == limit + CeilDiv(m - limit, limit) * limit;
    } else if m > 0 {
      assert CeilDiv(m, limit) == 1 + CeilDiv(0, limit) == 1;
    }
  }

  function Max(a: nat, b: nat): nat {
    if a < b then b else a
  }

  // Deliveries needed by a folder with this many child folders and files.
  function Rounds(limit: nat, folders: nat, files: nat): nat
    requires limit >= 1
  {
    Max(1, CeilDiv(Max(folders, files), limit))
  }

  // What is left to do for folder `x`: nothing once it is trashed and its message is gone.
  ghost function Cost(limit: nat, t: Table, g: Table, waiting: set<Id>, x: Id): nat
    requires limit >= 1
  {
    if x in t && !t[x].Live() && x !in waiting then 0
    else Rounds(limit, |LiveChildren(t, x)|, |LiveChildren(g, x)|)
  }

  ghost function Work(limit: nat, t: Table, g: Table, waiting: set<Id>, d: set<Id>): nat
    requires limit >= 1
  {
    if d == {} then 0
    else
      var x :| x in d;
      Cost(limit, t, g, waiting, x) + Work(limit, t, g, waiting, d - {x})
  }

  lemma {:induction false} WorkTake(limit: nat, t: Table, g: Table, w: set<Id>, d: set<Id>, x: Id)
    requires limit >= 1 && x in d
    ensures Work(limit, t, g, w, d) == Cost(limit, t, g, w, x) + Work(limit, t, g, w, d - {x})
    decreases |d|
  {
    var y :| y in d && Work(limit, t, g, w, d) == Cost(limit, t, g, w, y) + Work(limit, t, g, w, d - {y});
    if y != x {
      WorkTake(limit, t, g, w, d - {y}, x);
      WorkTake(limit, t, g, w, d - {x}, y);
      assert d - {y} - {x} == d - {x} - {y};
    }
  }

  lemma {:induction false} WorkSame(limit: nat, t: Table, g: Table, w: set<Id>, t': Table, g': Table, w': set<Id>,
                                    d: set<Id>)
    requires limit >= 1
    requires forall x :: x in d ==> Cost(limit, t, g, w, x) == Cost(limit, t', g', w', x)
    ensures Work(limit, t, g, w, d) == Work(limit, t', g', w', d)
    decreases |d|
  {
    if d != {} {
      var x :| x in d;
      WorkTake(limit, t, g, w, d, x);
      WorkTake(limit, t', g', w', d, x);
      WorkSame(limit, t, g, w, t', g', w', d - {x});
    }
  }

  // ----- the subtree and its state during the run

  ghost predicate WhollyLive(s: State, root: Id) {
    && root in s.folders
    && (forall x :: x in Subtree(s.folders, root) ==> s.folders[x].Live())
    && (forall f :: f in s.files && Below(s.files[f], Subtree(s.folders, root)) ==> s.files[f].Live())
  }

  // The row sits directly in one of these folders.
  predicate Below(r: Row, d: set<Id>) {
    r.parent.Some? && r.parent.value in d
  }

  predicate TrashedBy(user: Id, was: Row, now: Row) {
    now.deletedAt.Some? && now == was.Trash(user, now.deletedAt.value)
  }

  ghost function TrashedIn(t: Table, d: set<Id>): set<Id> {
    set x | x in d && x in t && !t[x].Live()
  }

  ghost function TrashedBelow(g: Table, d: set<Id>): set<Id> {
    set f | f in g && Below(g[f], d) && !g[f].Live()
  }

  ghost function Waiting(q: multiset<Event>, user: Id, d: set<Id>): set<Id> {
    set x | x in d && FolderTrash(x, user) in q
  }

  // How the tables stand to those before the run.
  ghost predicate PartlyTrashed(t0: Table, t: Table, d: set<Id>, user: Id) {
    && t.Keys == t0.Keys
    && forall x :: x in t ==> t[x] == t0[x] || (x in d && TrashedBy(user, t0[x], t[x]))
  }

  ghost predicate PartlyTrashedBelow(g0: Table, g: Table, d: set<Id>, user: Id) {
    && g.Keys == g0.Keys
    && forall f :: f in g ==> g[f] == g0[f] || (Below(g0[f], d) && TrashedBy(user, g0[f], g[f]))
  }

  ghost predicate DoneHaveNoLiveChildren(t: Table, g: Table, done: set<Id>) {
    forall x :: x in done ==> LiveChildren(t, x) == {} && LiveChildren(g, x) == {}
  }

  ghost function MarkersOf(folders: set<Id>, files: set<Id>): set<Marker> {
    FolderMarkers(folders) + FileMarkers(files)
  }

  ghost predicate Cascading(s0: State, s: State, root: Id, user: Id) {
    var d := Subtree(s0.folders, root);
    var waiting := Waiting(s.queue, user, d);
    && PartlyTrashed(s0.folders, s.folders, d, user)
    && PartlyTrashedBelow(s0.files, s.files, d, user)
    && root in TrashedIn(s.folders, d)
    && s.queue == TrashEvents(waiting, user)
    && waiting <= TrashedIn(s.folders, d)
    && DoneHaveNoLiveChildren(s.folders, s.files, TrashedIn(s.folders, d) - waiting)
    && s.objects == s0.objects && s.notices == s0.notices
    && s.markers == s0.markers + MarkersOf(TrashedIn(s.folders, d), TrashedBelow(s.files, d) * s0.objects)
  }

  // ----- one delivery

  lemma FoldersAfter(t0: Table, t: Table, d: set<Id>, fs: set<Id>, user: Id, now: nat)
    requires PartlyTrashed(t0, t, d, user)
    requires fs <= d && forall x :: x in fs ==> x in t && t[x].Live()
    ensures PartlyTrashed(t0, TrashRows(t, fs, user, now), d, user)
    ensures TrashedIn(TrashRows(t, fs, user, now), d) == TrashedIn(t, d) + fs
  {
  }

  lemma FilesAfter(g0: Table, g: Table, d: set<Id>, gs: set<Id>, user: Id, now: nat)
    requires PartlyTrashedBelow(g0, g, d, user)
    requires forall f :: f in gs ==> f in g && g[f].Live() && Below(g[f], d)
    ensures PartlyTrashedBelow(g0, TrashRows(g, gs, user, now), d, user)
    ensures TrashedBelow(TrashRows(g, gs, user, now), d) == TrashedBelow(g, d) + gs
  {
  }

  lemma ChildrenAfter(t: Table, ids: set<Id>, user: Id, now: nat, y: Id)
    ensures LiveChildren(TrashRows(t, ids, user, now), y) == LiveChildren(t, y) - ids
  {
  }

  lemma DoneAfter(t: Table, g: Table, done: set<Id>, fs: set<Id>, gs: set<Id>, user: Id, now: nat)
    requires DoneHaveNoLiveChildren(t, g, done)
    ensures DoneHaveNoLiveChildren(TrashRows(t, fs, user, now), TrashRows(g, gs, user, now), done)
  {
    forall y | y in done
      ensures LiveChildren(TrashRows(t, fs, user, now), y) == {} && LiveChildren(TrashRows(g, gs, user, now), y) == {}
    {
      ChildrenAfter(t, fs, user, now, y);
      ChildrenAfter(g, gs, user, now, y);
    }
  }

  lemma EventsOfUnion(a: set<Id>, b: set<Id>, user: Id)
    requires a !! b
    ensures TrashEvents(a, user) + TrashEvents(b, user) == TrashEvents(a + b, user)
  {
    var ea, eb := set i | i in a :: FolderTrash(i, user), set i | i in b :: FolderTrash(i, user);
    assert ea !! eb && (set i | i in a + b :: FolderTrash(i, user)) == ea + eb;
  }

  lemma EventsWithout(a: set<Id>, x: Id, user: Id)
    ensures TrashEvents(a, user) - multiset{FolderTrash(x, user)} == TrashEvents(a - {x}, user)
  {
    var ea := set i | i in a :: FolderTrash(i, user);
    assert (set i | i in a - {x} :: FolderTrash(i, user)) == ea - {FolderTrash(x, user)};
  }

  lemma WaitingIs(user: Id, d: set<Id>, w: set<Id>)
    requires w <= d
    ensures Waiting(TrashEvents(w, user), user, d) == w
  {
    var es := set i | i in w :: FolderTrash(i, user);
    forall x | x in d
      ensures FolderTrash(x, user) in TrashEvents(w, user) <==> x in w
    {
      assert FolderTrash(x, user) in multiset(es) <==> FolderTrash(x, user) in es;
    }
  }

  ghost function StillWaiting(w: set<Id>, fs: set<Id>, x: Id, acked: bool): set<Id> {
    w + fs - (if acked then {x} else {})
  }

  lemma QueueAfter(w: set<Id>, fs: set<Id>, x: Id, user: Id)
    requires w !! fs
    ensures TrashEvents(w, user) + TrashEvents(fs, user) == TrashEvents(StillWaiting(w, fs, x, false), user)
    ensures TrashEvents(w, user) + TrashEvents(fs, user) - multiset{FolderTrash(x, user)}
            == TrashEvents(StillWaiting(w, fs, x, true), user)
  {
    EventsOfUnion(w, fs, user);
    EventsWithout(w + fs, x, user);
    assert w + fs - {} == w + fs;
  }

  lemma MarkersOfUnion(a: set<Id>, b: set<Id>, e: set<Id>, f: set<Id>)
    ensures MarkersOf(a + b, e + f) == MarkersOf(a, e) + FolderMarkers(b) + FileMarkers(f)
  {
  }

  // ----- one delivery is one unit of work

  function Less(n: nat, limit: nat): nat {
    if n < limit then 0 else n - limit
  }

  lemma RoundsStep(limit: nat, n: nat, m: nat)
    requires limit >= 1
    ensures Max(n, m) <= limit ==> Rounds(limit, n, m) == 1
    ensures Max(n, m) > limit ==> Rounds(limit, Less(n, limit), Less(m, limit)) == Rounds(limit, n, m) - 1
  {
    var k := Max(n, m);
    if k > limit {
      assert Max(Less(n, limit), Less(m, limit)) == k - limit;
      assert CeilDiv(k, limit) == 1 + CeilDiv(k - limit, limit);
      assert CeilDiv(k - limit, limit) >= 1;
    } else {
      assert CeilDiv(k, limit) <= 1 + CeilDiv(0, limit);
    }
  }

  lemma BatchLeaves(limit: nat, candidates: set<Id>, batch: set<Id>)
    requires IsBatch(limit, candidates, batch)
    ensures |candidates - batch| == Less(|candidates|, limit)
    ensures limit >= 1 ==> (candidates - batch == {} <==> |candidates| <= limit)
  {
    assert candidates - batch == {} <==> |candidates - batch| == 0;
  }

  lemma OwnCost(limit: nat, t: Table, g: Table, w: set<Id>, w': set<Id>, x: Id, fs: set<Id>, gs: set<Id>, user: Id,
                now: nat)
    requires limit >= 1
    requires x in t && !t[x].Live() && x in w && x !in fs
    requires IsBatch(limit, LiveChildren(t, x), fs) && IsBatch(limit, LiveChildren(g, x), gs)
    requires var t', g' := TrashRows(t, fs, user, now), TrashRows(g, gs, user, now);
             x in w' <==> !(LiveChildren(t', x) == {} && LiveChildren(g', x) == {})
    ensures Cost(limit, TrashRows(t, fs, user, now), TrashRows(g, gs, user, now), w', x) == Cost(limit, t, g, w, x) - 1
  {
    ChildrenAfter(t, fs, user, now, x);
    ChildrenAfter(g, gs, user, now, x);
    BatchLeaves(limit, LiveChildren(t, x), fs);
    BatchLeaves(limit, LiveChildren(g, x), gs);
    RoundsStep(limit, |LiveChildren(t, x)|, |LiveChildren(g, x)|);
  }

  lemma OtherCost(limit: nat, t: Table, g: Table, w: set<Id>, w': set<Id>, x: Id, fs: set<Id>, gs: set<Id>, user: Id,
                  now: nat, y: Id)
    requires limit >= 1 && y != x
    requires fs <= LiveChildren(t, x) && gs <= LiveChildren(g, x)
    requires y in w' <==> y in w || y in fs
    ensures Cost(limit, TrashRows(t, fs, user, now), TrashRows(g, gs, user, now), w', y) == Cost(limit, t, g, w, y)
  {
    ChildrenAfter(t, fs, user, now, y);
    ChildrenAfter(g, gs, user, now, y);
    assert LiveChildren(t, y) - fs == LiveChildren(t, y) && LiveChildren(g, y) - gs == LiveChildren(g, y);
  }

  lemma WorkAfter(limit: nat, t: Table, g: Table, w: set<Id>, x: Id, fs: set<Id>, gs: set<Id>, user: Id, now: nat,
                  d: set<Id>)
    requires limit >= 1
    requires x in d && x in t && !t[x].Live() && x in w
    requires IsBatch(limit, LiveChildren(t, x), fs) && IsBatch(limit, LiveChildren(g, x), gs)
    ensures var t', g' := TrashRows(t, fs, user, now), TrashRows(g, gs, user, now);
            var w' := StillWaiting(w, fs, x, LiveChildren(t', x) == {} && LiveChildren(g', x) == {});
            Work(limit, t', g', w', d) == Work(limit, t, g, w, d) - 1
  {
    var t', g' := TrashRows(t, fs, user, now), TrashRows(g, gs, user, now);
    var w' := StillWaiting(w, fs, x, LiveChildren(t', x) == {} && LiveChildren(g', x) == {});
    WorkTake(limit, t, g, w, d, x);
    WorkTake(limit, t', g', w', d, x);
    OwnCost(limit, t, g, w, w', x, fs, gs, user, now);
    forall y | y in d - {x}
      ensures Cost(limit, t, g, w, y) == Cost(limit, t', g', w', y)
    {
      OtherCost(limit, t, g, w, w', x, fs, gs, user, now, y);
    }
    WorkSame(limit, t, g, w, t', g', w', d - {x});
  }

  // ----- a delivery keeps the picture and takes one unit of work

  ghost function WorkLeft(limit: nat, s0: State, s: State, root: Id, user: Id): nat
    requires limit >= 1
  {
    var d := Subtree(s0.folders, root);
    Work(limit, s.folders, s.files, Waiting(s.queue, user, d), d)
  }

  ghost predicate OfRun(e: Step, user: Id) {
    e.DeliverTrash? && e.user == user
  }

  lemma BatchesBelow(c: Config, s0: State, s: State, root: Id, e: Step)
    requires e.DeliverTrash? && Cascading(s0, s, root, e.user) && Enabled(c, s, e)
    ensures var d := Subtree(s0.folders, root);
            && e.id in d && e.id in s.folders && !s.folders[e.id].Live() && e.id in Waiting(s.queue, e.user, d)
            && e.folderBatch <= d
            && (forall x :: x in e.folderBatch ==> x in s.folders && s.folders[x].Live())
            && (forall f :: f in e.fileBatch ==> f in s.files && s.files[f].Live() && Below(s.files[f], d))
  {
    var d := Subtree(s0.folders, root);
    var w := Waiting(s.queue, e.user, d);
    assert FolderTrash(e.id, e.user) in TrashEvents(w, e.user);
    assert e.id in w;
    forall y | y in e.folderBatch
      ensures y in d
    {
      SubtreeStep(s0.folders, root, y);
    }
  }

  // What such a delivery does.
  ghost predicate Moved(s: State, s': State, e: Step)
    requires e.DeliverTrash?
  {
    && s'.folders == TrashRows(s.folders, e.folderBatch, e.user, e.now)
    && s'.files == TrashRows(s.files, e.fileBatch, e.user, e.now)
    && s'.objects == s.objects && s'.notices == s.notices
    && s'.markers == s.markers + FolderMarkers(e.folderBatch) + FileMarkers(e.fileBatch * s.objects)
    && s'.queue == s.queue + TrashEvents(e.folderBatch, e.user)
                   - (if ChildrenGone(s', e.id) then multiset{FolderTrash(e.id, e.user)} else multiset{})
  }

  ghost predicate ChildrenGone(s: State, x: Id) {
    LiveChildren(s.folders, x) == {} && LiveChildren(s.files, x) == {}
  }

  lemma DeliveryMoves(c: Config, s: State, e: Step)
    requires e.DeliverTrash? && e.id in s.folders && !s.folders[e.id].Live()
    ensures Moved(s, Apply(c, s, e), e)
  {
    assert Apply(c, s, e)
        == Handle(FolderTrash(e.id, e.user), Trash(s, e.id, e.user, e.now, e.folderBatch, e.fileBatch));
  }

  lemma QueueMoves(s: State, s': State, e: Step, d: set<Id>)
    requires e.DeliverTrash? && Moved(s, s', e)
    requires var w := Waiting(s.queue, e.user, d);
             s.queue == TrashEvents(w, e.user) && w !! e.folderBatch && e.folderBatch <= d
    ensures var w' := StillWaiting(Waiting(s.queue, e.user, d), e.folderBatch, e.id, ChildrenGone(s', e.id));
            Waiting(s'.queue, e.user, d) == w' && s'.queue == TrashEvents(w', e.user)
  {
    var w := Waiting(s.queue, e.user, d);
    QueueAfter(w, e.folderBatch, e.id, e.user);
    WaitingIs(e.user, d, StillWaiting(w, e.folderBatch, e.id, ChildrenGone(s', e.id)));
  }

  lemma MarkersMove(s0: State, s: State, s': State, e: Step, d: set<Id>)
    requires e.DeliverTrash? && Moved(s, s', e) && s.objects == s0.objects
    requires s.markers == s0.markers + MarkersOf(TrashedIn(s.folders, d), TrashedBelow(s.files, d) * s0.objects)
    requires TrashedIn(s'.folders, d) == TrashedIn(s.folders, d) + e.folderBatch
    requires TrashedBelow(s'.files, d) == TrashedBelow(s.files, d) + e.fileBatch
    ensures s'.markers == s0.markers + MarkersOf(TrashedIn(s'.folders, d), TrashedBelow(s'.files, d) * s0.objects)
  {
    var f, o := TrashedBelow(s.files, d), s0.objects;
    MarkersOfUnion(TrashedIn(s.folders, d), e.folderBatch, f * o, e.fileBatch * o);
    assert (f + e.fileBatch) * o == f * o + e.fileBatch * o;
  }

  lemma CascadeStep(c: Config, s0: State, s: State, root: Id, e: Step)
    requires c.limit >= 1
    requires e.DeliverTrash? && Cascading(s0, s, root, e.user) && Enabled(c, s, e)
    ensures var s', d := Apply(c, s, e), Subtree(s0.folders, root);
            && Cascading(s0, s', root, e.user)
            && WorkLeft(c.limit, s0, s', root, e.user) == WorkLeft(c.limit, s0, s, root, e.user) - 1
            && e.folderBatch !! TrashedIn(s.folders, d)
            && TrashedIn(s'.folders, d) == TrashedIn(s.folders, d) + e.folderBatch
  {
    BatchesBelow(c, s0, s, root, e);
    DeliveryMoves(c, s, e);
    CascadeMoved(c.limit, s0, s, Apply(c, s, e), root, e);
  }

  lemma CascadeMoved(limit: nat, s0: State, s: State, s': State, root: Id, e: Step)
    requires limit >= 1
    requires e.DeliverTrash? && Cascading(s0, s, root, e.user) && Moved(s, s', e)
    requires TrashPicks(limit, s, e.id, e.folderBatch, e.fileBatch)
    requires var d := Subtree(s0.folders, root);
             && e.id in d && e.id in s.folders && !s.folders[e.id].Live() && e.id in Waiting(s.queue, e.user, d)
             && e.folderBatch <= d
             && (forall x :: x in e.folderBatch ==> x in s.folders && s.folders[x].Live())
             && (forall f :: f in e.fileBatch ==> f in s.files && s.files[f].Live() && Below(s.files[f], d))
    ensures var d := Subtree(s0.folders, root);
            && Cascading(s0, s', root, e.user)
            && WorkLeft(limit, s0, s', root, e.user) == WorkLeft(limit, s0, s, root, e.user) - 1
            && e.folderBatch !! TrashedIn(s.folders, d)
            && TrashedIn(s'.folders, d) == TrashedIn(s.folders, d) + e.folderBatch
  {
    var d := Subtree(s0.folders, root);
    var w := Waiting(s.queue, e.user, d);
    FoldersAfter(s0.folders, s.folders, d, e.folderBatch, e.user, e.now);
    FilesAfter(s0.files, s.files, d, e.fileBatch, e.user, e.now);
    QueueMoves(s, s', e, d);
    DoneMoves(s, s', e, TrashedIn(s.folders, d), w);
    MarkersMove(s0, s, s', e, d);
    WorkMoves(limit, s, s', e, d);
  }

  lemma DoneMoves(s: State, s': State, e: Step, trashed: set<Id>, w: set<Id>)
    requires e.DeliverTrash? && Moved(s, s', e)
    requires DoneHaveNoLiveChildren(s.folders, s.files, trashed - w) && w <= trashed && e.id in trashed
    ensures var w' := StillWaiting(w, e.folderBatch, e.id, ChildrenGone(s', e.id));
            && w' <= trashed + e.folderBatch
            && DoneHaveNoLiveChildren(s'.folders, s'.files, trashed + e.folderBatch - w')
  {
    DoneAfter(s.folders, s.files, trashed - w, e.folderBatch, e.fileBatch, e.user, e.now);
    var w' := StillWaiting(w, e.folderBatch, e.id, ChildrenGone(s', e.id));
    forall y | y in trashed + e.folderBatch - w'
      ensures y in trashed - w || (y == e.id && ChildrenGone(s', e.id))
    {
    }
  }

  lemma WorkMoves(limit: nat, s: State, s': State, e: Step, d: set<Id>)
    requires limit >= 1
    requires e.DeliverTrash? && Moved(s, s', e) && TrashPicks(limit, s, e.id, e.folderBatch, e.fileBatch)
    requires e.id in d && e.id in s.folders && !s.folders[e.id].Live()
    requires e.id in Waiting(s.queue, e.user, d)
    requires Waiting(s'.queue, e.user, d)
             == StillWaiting(Waiting(s.queue, e.user, d), e.folderBatch, e.id, ChildrenGone(s', e.id))
    ensures Work(limit, s'.folders, s'.files, Waiting(s'.queue, e.user, d), d)
            == Work(limit, s.folders, s.files, Waiting(s.queue, e.user, d), d) - 1
  {
    WorkAfter(limit, s.folders, s.files, Waiting(s.queue, e.user, d), e.id, e.folderBatch, e.fileBatch, e.user, e.now,
              d);
  }

  // ----- the whole run

  function Children(t: Table, p: Id): set<Id> {
    set i | i in t && t[i].parent == Some(p)
  }

  // Sum of the rounds of these folders.
  ghost function Deliveries(limit: nat, s: State, d: set<Id>): nat
    requires limit >= 1
  {
    if d == {} then 0
    else
      var x :| x in d;
      Rounds(limit, |Children(s.folders, x)|, |Children(s.files, x)|) + Deliveries(limit, s, d - {x})
  }

  lemma {:induction false} WorkIsDeliveries(limit: nat, s: State, t: Table, w: set<Id>, d: set<Id>)
    requires limit >= 1
    requires forall x :: x in d ==> x !in t || t[x].Live() || x in w
    requires forall x :: x in d ==> LiveChildren(t, x) == Children(s.folders, x)
                                    && LiveChildren(s.files, x) == Children(s.files, x)
    ensures Work(limit, t, s.files, w, d) == Deliveries(limit, s, d)
    decreases |d|
  {
    hide Rounds;
    if d != {} {
      var x :| x in d
        && Deliveries(limit, s, d)
           == Rounds(limit, |Children(s.folders, x)|, |Children(s.files, x)|) + Deliveries(limit, s, d - {x});
      WorkTake(limit, t, s.files, w, d, x);
      WorkIsDeliveries(limit, s, t, w, d - {x});
    }
  }

  // The state right after TrashFolder on the root of a wholly live subtree.
  lemma CascadeStarts(limit: nat, s0: State, root: Id, user: Id, now: nat)
    requires limit >= 1 && Acyclic(s0.folders) && WhollyLive(s0, root) && s0.queue == multiset{}
    requires s0.folders[root].status != Restoring
    ensures var s, d := TrashFolder(s0, root, user, now).0, Subtree(s0.folders, root);
            && Cascading(s0, s, root, user)
            && WorkLeft(limit, s0, s, root, user) == Deliveries(limit, s0, d)
            && TrashedIn(s.folders, d) == {root}
  {
    var s, d := TrashFolder(s0, root, user, now).0, Subtree(s0.folders, root);
    SubtreeStep(s0.folders, root, root);
    OneEvent(root, user);
    WaitingIs(user, d, {root});
    assert s.queue == TrashEvents({root}, user);
    assert TrashedIn(s.folders, d) == {root};
    assert TrashedBelow(s.files, d) == {};
    assert MarkersOf({root}, {}) == {FolderMarker(root)};
    FirstWork(limit, s0, root, user, now);
  }

  lemma OneEvent(x: Id, user: Id)
    ensures TrashEvents({x}, user) == multiset{FolderTrash(x, user)}
  {
    assert (set i | i in {x} :: FolderTrash(i, user)) == {FolderTrash(x, user)};
  }

  lemma FirstWork(limit: nat, s0: State, root: Id, user: Id, now: nat)
    requires limit >= 1 && Acyclic(s0.folders) && WhollyLive(s0, root)
    ensures var t, d := s0.folders[root := s0.folders[root].Trash(user, now)], Subtree(s0.folders, root);
            Work(limit, t, s0.files, {root}, d) == Deliveries(limit, s0, d)
  {
    var t, d := s0.folders[root := s0.folders[root].Trash(user, now)], Subtree(s0.folders, root);
    RootHasNoParentBelow(s0.folders, root);
    forall x | x in d
      ensures LiveChildren(t, x) == Children(s0.folders, x)
      ensures LiveChildren(s0.files, x) == Children(s0.files, x)
    {
      forall y | y in Children(s0.folders, x)
        ensures t[y].Live()
      {
        SubtreeStep(s0.folders, root, y);
      }
    }
    WorkIsDeliveries(limit, s0, t, {root}, d);
  }

  lemma RootHasNoParentBelow(t: Table, root: Id)
    requires Acyclic(t) && root in t
    ensures !Below(t[root], Subtree(t, root))
  {
    if Below(t[root], Subtree(t, root)) {
      var rank :| Ranks(t, rank);
      var p := t[root].parent.value;
      var n: nat :| Climb(t, Some(p), n) == Some(root);
      ClimbRank(t, rank, p, n);
    }
  }

  ghost function Published(steps: seq<Step>): multiset<Id>
    decreases |steps|
  {
    if steps == [] then multiset{}
    else (if steps[0].DeliverTrash? then multiset(steps[0].folderBatch) else multiset{}) + Published(steps[1..])
  }

  lemma {:induction false} CascadeRun(c: Config, s0: State, s: State, root: Id, user: Id, steps: seq<Step>)
    requires c.limit >= 1 && Cascading(s0, s, root, user)
    requires Run(c, s, steps) && forall i :: 0 <= i < |steps| ==> OfRun(steps[i], user)
    ensures var s', d := After(c, s, steps), Subtree(s0.folders, root);
            && Cascading(s0, s', root, user)
            && WorkLeft(c.limit, s0, s', root, user) + |steps| == WorkLeft(c.limit, s0, s, root, user)
            && multiset(TrashedIn(s.folders, d)) + Published(steps) == multiset(TrashedIn(s'.folders, d))
    decreases |steps|
  {
    hide Apply, Cascading, Enabled, WorkLeft;
    if steps != [] {
      var d := Subtree(s0.folders, root);
      assert OfRun(steps[0], user);
      CascadeStep(c, s0, s, root, steps[0]);
      var s1 := Apply(c, s, steps[0]);
      assert multiset(TrashedIn(s1.folders, d)) == multiset(TrashedIn(s.folders, d)) + multiset(steps[0].folderBatch);
      CascadeRun(c, s0, s1, root, user, steps[1..]);
    }
  }

  // Everything at or below `root` is in the trash, the rest is as before, and no message is left.
  ghost predicate WhollyTrashed(s0: State, s: State, root: Id, user: Id) {
    var d := Subtree(s0.folders, root);
    && PartlyTrashed(s0.folders, s.folders, d, user)
    && PartlyTrashedBelow(s0.files, s.files, d, user)
    && (forall x :: x in d ==> !s.folders[x].Live())
    && (forall f :: f in s.files && Below(s.files[f], d) ==> !s.files[f].Live())
    && s.objects == s0.objects && s.notices == s0.notices
    && s.markers == s0.markers + MarkersOf(d, TrashedBelow(s.files, d) * s0.objects)
    && s.queue == multiset{}
  }

  // With no message left, a live folder would have a live parent, all the way up to the root.
  lemma {:induction false} TrashedDownFrom(s0: State, s: State, root: Id, user: Id, x: Id, n: nat)
    requires Cascading(s0, s, root, user) && s.queue == multiset{}
    requires x in s0.folders && Climb(s0.folders, Some(x), n) == Some(root)
    ensures !s.folders[x].Live()
    decreases n
  {
    if n > 0 {
      var d := Subtree(s0.folders, root);
      var p := s0.folders[x].parent.value;
      assert Climb(s0.folders, Some(p), n - 1) == Some(root);
      TrashedDownFrom(s0, s, root, user, p, n - 1);
      assert p in d;
      assert p in TrashedIn(s.folders, d);
      assert p !in Waiting(s.queue, user, d);
      assert x !in LiveChildren(s.folders, p);
    }
  }

  lemma DrainedMeansTrashed(s0: State, s: State, root: Id, user: Id)
    requires Cascading(s0, s, root, user) && s.queue == multiset{}
    ensures WhollyTrashed(s0, s, root, user)
    ensures TrashedIn(s.folders, Subtree(s0.folders, root)) == Subtree(s0.folders, root)
  {
    var d := Subtree(s0.folders, root);
    forall x | x in d
      ensures !s.folders[x].Live()
    {
      var n: nat :| Climb(s0.folders, Some(x), n) == Some(root);
      TrashedDownFrom(s0, s, root, user, x, n);
    }
    assert TrashedIn(s.folders, d) == d;
    forall f | f in s.files && Below(s.files[f], d)
      ensures !s.files[f].Live()
    {
      assert f !in LiveChildren(s.files, s.files[f].parent.value);
    }
  }

  // No message is left exactly when no work is left.
  lemma DrainedMeansNoWork(limit: nat, s0: State, s: State, root: Id, user: Id)
    requires limit >= 1 && Cascading(s0, s, root, user)
    ensures s.queue == multiset{} <==> WorkLeft(limit, s0, s, root, user) == 0
  {
    var d := Subtree(s0.folders, root);
    var w := Waiting(s.queue, user, d);
    if s.queue == multiset{} {
      DrainedMeansTrashed(s0, s, root, user);
      NothingToDo(limit, s.folders, s.files, w, d);
    } else {
      var e :| e in s.queue;
      assert e in TrashEvents(w, user);
      var x :| x in w && e == FolderTrash(x, user);
      WorkTake(limit, s.folders, s.files, w, d, x);
    }
  }

  lemma {:induction false} NothingToDo(limit: nat, t: Table, g: Table, w: set<Id>, d: set<Id>)
    requires limit >= 1
    requires forall x :: x in d ==> x in t && !t[x].Live() && x !in w
    ensures Work(limit, t, g, w, d) == 0
    decreases |d|
  {
    if d != {} {
      var x :| x in d;
      WorkTake(limit, t, g, w, d, x);
      NothingToDo(limit, t, g, w, d - {x});
    }
  }

  lemma {:induction false} SomeBatch(limit: nat, candidates: set<Id>) returns (batch: set<Id>)
    ensures IsBatch(limit, candidates, batch)
    decreases |candidates|
  {
    if |candidates| <= limit {
      batch := candidates;
    } else {
      var x :| x in candidates;
      batch := SomeBatch(limit, candidates - {x});
    }
  }

  // A pending message can always be delivered: the run never gets stuck before it is drained.
  lemma CanDeliver(c: Config, s: State, x: Id, user: Id) returns (e: Step)
    requires FolderTrash(x, user) in s.queue
    ensures OfRun(e, user) && e.id == x && Enabled(c, s, e)
  {
    var fs := SomeBatch(c.limit, LiveChildren(s.folders, x));
    var gs := SomeBatch(c.limit, LiveChildren(s.files, x));
    e := DeliverTrash(x, user, 0, fs, gs);
  }

  // Trashing a wholly live subtree in an otherwise idle system: whatever the delivery order and
  // whatever batches the database picks, the queue is empty after exactly the sum of
  // max(1, ceil(max(child folders, child files) / limit)) over the folders of the subtree, and not
  // before; by then everything in it is in the trash and each of its folders has been published once.
  lemma TrashDrainsExactly(c: Config, s0: State, root: Id, user: Id, now: nat, steps: seq<Step>)
    requires c.limit >= 1 && Acyclic(s0.folders) && WhollyLive(s0, root) && s0.queue == multiset{}
    requires s0.folders[root].status != Restoring
    requires var s1 := TrashFolder(s0, root, user, now).0;
             Run(c, s1, steps) && forall i :: 0 <= i < |steps| ==> OfRun(steps[i], user)
    ensures var s := After(c, TrashFolder(s0, root, user, now).0, steps);
            var d := Subtree(s0.folders, root);
            && |steps| <= Deliveries(c.limit, s0, d)
            && (s.queue == multiset{} <==> |steps| == Deliveries(c.limit, s0, d))
            && (s.queue == multiset{} ==> WhollyTrashed(s0, s, root, user))
            && (s.queue == multiset{} ==> multiset{root} + Published(steps) == multiset(d))
  {
    var s1 := TrashFolder(s0, root, user, now).0;
    CascadeStarts(c.limit, s0, root, user, now);
    CascadeRun(c, s0, s1, root, user, steps);
    var s := After(c, s1, steps);
    DrainedMeansNoWork(c.limit, s0, s, root, user);
    if s.queue == multiset{} {
      DrainedMeansTrashed(s0, s, root, user);
    }
  }
}
