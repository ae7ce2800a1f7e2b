// Redelivery until nothing is pending: the loops terminate, and trashing a folder, letting the
// worker finish, restoring it and letting the worker finish changes no row, object, marker or message.
module Drain {
  import opened Basics
  import opened Tables
  import opened Store
  import opened BackendStore
  import opened Protocol
  import opened TrashRun
  import opened RestoreRun
  import opened RoundTrip
  import opened Worker
  import Services
  import BucketFolder

  // The pending messages in some order.
  method InSomeOrder(q: multiset<Event>) returns (messages: seq<Event>)
    ensures multiset(messages) == q
  {
    messages := [];
    var left := q;
    while left != multiset{}
      invariant multiset(messages) + left == q
      decreases |left|
    {
      var e :| e in left;
      messages := messages + [e];
      left := left - multiset{e};
    }
  }

  // The steps deliver these messages and no other.
  ghost predicate Delivers(steps: seq<Step>, q: multiset<Event>) {
    forall i :: 0 <= i < |steps| ==> Protocol.Delivered(steps[i]).Some? && Protocol.Delivered(steps[i]).value in q
  }

  // One round: every message that is pending now is delivered once.
  method DeliverRound(db: Backend, c: Config, now: nat) returns (ghost steps: seq<Step>)
    modifies db
    ensures Run(c, old(db.View()), steps) && db.View() == After(c, old(db.View()), steps)
    ensures |steps| == |old(db.queue)|
    ensures Delivers(steps, old(db.queue)) && Round(old(db.View()), steps)
  {
    ghost var s := db.View();
    assert s.queue == db.queue;
    hide *;
    var messages := InSomeOrder(db.queue);
    assert |multiset(messages)| == |messages|;
    var known := AllKnown(messages);
    var times := seq(|known|, _ => now);
    steps := HandleEvents(db, c, known, times);
    forall i | 0 <= i < |steps|
      ensures Protocol.Delivered(steps[i]).value in old(db.queue)
    {
      assert messages[i] in multiset(messages);
    }
    forall e | e in old(db.queue)
      ensures exists i :: 0 <= i < |steps| && Protocol.Delivered(steps[i]) == Some(e)
    {
      var i :| 0 <= i < |messages| && messages[i] == e;
      assert Protocol.Delivered(steps[i]) == Some(e);
    }
    IsRound(s, steps);
  }

  method AllKnown(events: seq<Event>) returns (messages: seq<Message>)
    ensures EventsOf(messages) == events
  {
    messages := [];
    for k := 0 to |events|
      invariant EventsOf(messages) == events[..k]
    {
      assert (messages + [Known(events[k])])[..|messages|] == messages;
      messages := messages + [Known(events[k])];
    }
    assert events[..|events|] == events;
  }

  lemma IsRound(s: State, steps: seq<Step>)
    requires forall i :: 0 <= i < |steps| ==>
               Protocol.Delivered(steps[i]).Some? && Protocol.Delivered(steps[i]).value in s.queue
    requires forall e :: e in s.queue ==> exists i :: 0 <= i < |steps| && Protocol.Delivered(steps[i]) == Some(e)
    ensures Delivers(steps, s.queue) && Round(s, steps)
  {
  }

  lemma TrashRound(s0: State, s: State, root: Id, user: Id, steps: seq<Step>)
    requires Cascading(s0, s, root, user) && Delivers(steps, s.queue)
    ensures TrashSteps(steps, user)
  {
    var w := Waiting(s.queue, user, Subtree(s0.folders, root));
    forall i | 0 <= i < |steps|
      ensures OfRun(steps[i], user)
    {
      assert Protocol.Delivered(steps[i]).value in TrashEvents(w, user);
    }
  }

  lemma RestoreRound(t0: Table, g0: Table, s: State, root: Id, user: Id, d: set<Id>, steps: seq<Step>)
    requires Reviving(t0, g0, s, root, user, d) && Delivers(steps, s.queue)
    ensures RestoreSteps(steps, user)
  {
    forall i | 0 <= i < |steps|
      ensures OfRestore(steps[i], user)
    {
      assert Protocol.Delivered(steps[i]).value in RestoreEvents(OnTheirWay(s.folders, d), user);
    }
  }

  lemma StepsTogether(a: seq<Step>, b: seq<Step>, user: Id)
    ensures TrashSteps(a, user) && TrashSteps(b, user) ==> TrashSteps(a + b, user)
    ensures RestoreSteps(a, user) && RestoreSteps(b, user) ==> RestoreSteps(a + b, user)
    ensures TrashSteps([], user) && RestoreSteps([], user)
  {
  }

  method DrainTrash(db: Backend, c: Config, now: nat, ghost s0: State, ghost root: Id, ghost user: Id)
    returns (ghost steps: seq<Step>)
    requires c.limit >= 1 && Cascading(s0, db.View(), root, user)
    modifies db
    ensures Run(c, old(db.View()), steps) && db.View() == After(c, old(db.View()), steps)
    ensures TrashSteps(steps, user) && db.queue == multiset{}
  {
    hide *;
    steps := [];
    RunNothing(c, db.View());
    StepsTogether([], [], user);
    QueueOf(db);
    while db.queue != multiset{}
      invariant Run(c, old(db.View()), steps) && db.View() == After(c, old(db.View()), steps)
      invariant TrashSteps(steps, user) && Cascading(s0, db.View(), root, user)
      invariant db.queue == db.View().queue
      decreases WorkLeft(c.limit, s0, db.View(), root, user)
    {
      ghost var s := db.View();
      ghost var round := DeliverRound(db, c, now);
      TrashRound(s0, s, root, user, round);
      CascadeRun(c, s0, s, root, user, round);
      RunOneAfterTheOther(c, old(db.View()), steps, round);
      StepsTogether(steps, round, user);
      steps := steps + round;
      QueueOf(db);
    }
  }

  method DrainRestore(db: Backend, c: Config, now: nat, ghost t0: Table, ghost g0: Table, ghost root: Id,
                      ghost user: Id, ghost d: set<Id>) returns (ghost steps: seq<Step>)
    requires c.limit >= 1 && Reviving(t0, g0, db.View(), root, user, d) && Clear(c, t0, g0)
    modifies db
    ensures Run(c, old(db.View()), steps) && db.View() == After(c, old(db.View()), steps)
    ensures RestoreSteps(steps, user) && db.queue == multiset{}
    ensures db.folders == t0 && db.files == g0
  {
    hide *;
    steps := [];
    RunNothing(c, db.View());
    StepsTogether([], [], user);
    QueueOf(db);
    while db.queue != multiset{}
      invariant Run(c, old(db.View()), steps) && db.View() == After(c, old(db.View()), steps)
      invariant RestoreSteps(steps, user) && Reviving(t0, g0, db.View(), root, user, d)
      invariant db.queue == db.View().queue
      decreases ToGo(db.View().folders, db.View().files, d)
    {
      ghost var s := db.View();
      ghost var round := DeliverRound(db, c, now);
      RestoreRound(t0, g0, s, root, user, d, round);
      RestoreRunKeeps(c, t0, g0, s, root, user, d, round);
      RoundProgress(c, t0, g0, s, root, user, d, round);
      RunOneAfterTheOther(c, old(db.View()), steps, round);
      StepsTogether(steps, round, user);
      steps := steps + round;
      QueueOf(db);
    }
    DrainedMeansBack(t0, g0, db.View(), root, user, d);
    TablesOf(db);
  }

  lemma TablesOf(db: Backend)
    ensures db.View().folders == db.folders && db.View().files == db.files
  {
  }

  // The round trip as a program: it terminates in the state it started from, but for the reports
  // about the markers it put.
  method TrashAndRestore(db: Backend, c: Config, root: Id, user: Id, now: nat, user2: Id, now2: nat)
    requires c.limit >= 1 && Ready(db.View(), root) && Fits(c.schema, db.files) && now2 - now <= c.retention
    modifies db
    ensures db.View() == old(db.View()).(notices := old(db.notices) + MarkerNotices(MarkersPut(old(db.View()), root)))
  {
    ghost var s0, d := db.View(), Subtree(db.View().folders, root);
    ReadyToTrash(c, s0, root, user, now);
    assert Clear(c, s0.folders, s0.files) && s0.notices == db.notices;
    hide *;
    var folders := new Services.BucketFolderService(db, c.retention);
    var reply := folders.TrashFolder(root, user, now);
    ghost var s1 := db.View();
    ghost var trashSteps := DrainTrash(db, c, now, s0, root, user);
    ghost var s2 := db.View();
    QueueOf(db);
    FirstHalf(c, s0, s1, s2, root, user, now, trashSteps);
    AcyclicAgain(s0, s2, root, user);
    TablesOf(db);
    reply := folders.RestoreFolder(root, user2, now2);
    ghost var s3 := db.View();
    RestoreOfTrashed(c, s0, s2, root, user, user2, now2);
    ghost var restoreSteps := DrainRestore(db, c, now2, s0.folders, s0.files, root, user2, d);
    QueueOf(db);
    TrashThenRestore(c, s0, s1, s2, s3, db.View(), root, user, now, trashSteps, user2, now2, restoreSteps);
  }

  lemma ReadyToTrash(c: Config, s0: State, root: Id, user: Id, now: nat)
    requires c.limit >= 1 && Ready(s0, root)
    ensures Cascading(s0, BucketFolder.TrashFolder(s0, root, user, now).0, root, user)
  {
    SubtreeStep(s0.folders, root, root);
    CascadeStarts(c.limit, s0, root, user, now);
  }

  lemma AcyclicAgain(s0: State, s: State, root: Id, user: Id)
    requires Ready(s0, root) && WhollyTrashed(s0, s, root, user)
    ensures Acyclic(s.folders)
  {
    AcyclicSameLinks(s0.folders, s.folders);
  }
}
