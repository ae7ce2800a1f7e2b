// The event callbacks and the acknowledgement loop as they change the store.
module Worker {
  import opened Basics
  import opened Tables
  import opened Store
  import opened BackendStore
  import opened BucketFile
  import opened FolderTrashEvent
  import opened FolderRestoreEvent
  import opened FolderPurgeEvent
  import opened TrashExpirationEvent
  import opened Protocol
  import opened TrashRun

  // ----- FolderTrash

  method MarkTrashedFolders(db: Backend, rows: seq<Id>)
    modifies db`markers
    ensures db.markers == old(db.markers) + FolderMarkers(Ids(rows))
  {
    for k := 0 to |rows|
      invariant db.markers == old(db.markers) + FolderMarkers(Ids(rows[..k]))
    {
      assert rows[..k + 1] == rows[..k] + [rows[k]];
      db.MarkFolder(rows[k]);
    }
    assert rows[..|rows|] == rows;
  }

  method MarkTrashedFiles(db: Backend, rows: seq<Id>)
    modifies db`markers
    ensures db.markers == old(db.markers) + FileMarkers(Ids(rows) * db.objects)
  {
    for k := 0 to |rows|
      invariant db.markers == old(db.markers) + FileMarkers(Ids(rows[..k]) * db.objects)
    {
      assert rows[..k + 1] == rows[..k] + [rows[k]];
      var _ := db.MarkFile(rows[k]);
    }
    assert rows[..|rows|] == rows;
  }

  method PublishTrash(db: Backend, rows: seq<Id>, user: Id)
    requires NoRepeats(rows)
    modifies db`queue
    ensures db.queue == old(db.queue) + TrashEvents(Ids(rows), user)
  {
    for k := 0 to |rows|
      invariant db.queue == old(db.queue) + TrashEvents(Ids(rows[..k]), user)
    {
      OneMoreTrash(rows, k, user);
      db.Publish(FolderTrash(rows[k], user));
    }
    assert rows[..|rows|] == rows;
  }

  method TrashCallback(db: Backend, limit: nat, id: Id, user: Id, now: nat)
    returns (ok: bool, ghost folderBatch: set<Id>, ghost fileBatch: set<Id>)
    modifies db
    ensures TrashPicks(limit, old(db.View()), id, folderBatch, fileBatch)
    ensures (db.View(), ok) == Trash(old(db.View()), id, user, now, folderBatch, fileBatch)
  {
    folderBatch := SomeBatch(limit, LiveChildren(db.folders, id));
    fileBatch := SomeBatch(limit, LiveChildren(db.files, id));
    if id !in db.folders || db.folders[id].Live() {
      return false, folderBatch, fileBatch;
    }
    var childFolders := Find(LiveChildren(db.folders, id), limit);
    MarkTrashedFolders(db, childFolders);
    db.folders := TrashRows(db.folders, Ids(childFolders), user, now);
    var childFiles := Find(LiveChildren(db.files, id), limit);
    MarkTrashedFiles(db, childFiles);
    db.files := TrashRows(db.files, Ids(childFiles), user, now);
    PublishTrash(db, childFolders, user);
    folderBatch, fileBatch := Ids(childFolders), Ids(childFiles);
    ok := LiveChildren(db.folders, id) == {} && LiveChildren(db.files, id) == {};
  }

  // ----- FolderRestore

  method PublishRestore(db: Backend, rows: seq<Id>, user: Id)
    requires NoRepeats(rows)
    modifies db`queue
    ensures db.queue == old(db.queue) + RestoreEvents(Ids(rows), user)
  {
    for k := 0 to |rows|
      invariant db.queue == old(db.queue) + RestoreEvents(Ids(rows[..k]), user)
    {
      OneMoreRestore(rows, k, user);
      db.Publish(FolderRestore(rows[k], user));
    }
    assert rows[..|rows|] == rows;
  }

  method ProcessChildrenInTransaction(db: Backend, c: Config, id: Id, user: Id)
    returns (ok: bool, ghost folderBatch: set<Id>, ghost fileBatch: set<Id>)
    modifies db
    ensures RestorePicks(c.limit, old(db.View()), id, folderBatch, fileBatch)
    ensures ok <==> ProcessChildren(c.schema, old(db.View()), id, user, folderBatch, fileBatch).Some?
    ensures db.View() == if ok then ProcessChildren(c.schema, old(db.View()), id, user, folderBatch, fileBatch).value
                         else old(db.View())
  {
    hide MarkRestoring, ReviveRows, RestoreEvents, FileMarkers, RecoverableChildren, IsBatch, Fits, Store.Unmark;
    folderBatch := SomeBatch(c.limit, RecoverableChildren(db.folders, id));
    fileBatch := SomeBatch(c.limit, RecoverableChildren(db.files, id));
    if id !in db.folders {
      return false, folderBatch, fileBatch;
    }
    if db.folders[id].status != Restoring {
      return true, folderBatch, fileBatch;
    }
    if NameTaken(db.folders, db.folders[id].name, db.folders[id].parent, id) {
      // The status is set back to `deleted` in a transaction that is then rolled back.
      return false, folderBatch, fileBatch;
    }
    var childFolders := Find(RecoverableChildren(db.folders, id), c.limit);
    var childFiles := Find(RecoverableChildren(db.files, id), c.limit);
    folderBatch, fileBatch := Ids(childFolders), Ids(childFiles);
    var folders := MarkRestoring(db.folders, Ids(childFolders));
    var files := MarkRestoring(db.files, Ids(childFiles));
    files := ReviveRows(files, Ids(childFiles), Uploaded);
    RestoringIsPassing(db.files, Ids(childFiles));
    if !Fits(c.schema, files) {
      // The unique index refuses the update, and the transaction is rolled back.
      return false, folderBatch, fileBatch;
    }
    db.folders, db.files := folders, files;
    PublishRestore(db, childFolders, user);
    db.UnmarkFiles(childFiles);
    ok := true;
  }

  // Files are `restoring` only between the two updates of one transaction.
  lemma RestoringIsPassing(t: Table, ids: set<Id>)
    ensures ReviveRows(MarkRestoring(t, ids), ids, Uploaded) == ReviveRows(t, ids, Uploaded)
  {
  }

  method RestoreCallback(db: Backend, c: Config, id: Id, user: Id)
    returns (ok: bool, ghost folderBatch: set<Id>, ghost fileBatch: set<Id>)
    modifies db
    ensures RestorePicks(c.limit, old(db.View()), id, folderBatch, fileBatch)
    ensures (db.View(), ok) == Restore(c.schema, old(db.View()), id, user, folderBatch, fileBatch)
  {
    hide Fits, MarkerNotices;
    ok, folderBatch, fileBatch := ProcessChildrenInTransaction(db, c, id, user);
    if !ok {
      return;
    }
    if RecoverableChildren(db.folders, id) != {} || RecoverableChildren(db.files, id) != {} {
      return false, folderBatch, fileBatch;
    }
    if RestoringChildren(db.folders, id) != {} {
      return false, folderBatch, fileBatch;
    }
    if db.folders[id].status == Restoring {
      db.folders := db.folders[id := db.folders[id].Revive(Unset)];
      db.Unmark(FolderMarker(id));
    }
  }

  // ----- FolderPurge

  // A DELETE of folder rows with what the schema makes of it.
  method DropRows(db: Backend, gone: set<Id>, schema: bool) returns (ok: bool)
    modifies db`folders, db`files
    ensures ok <==> MayDrop(old(db.View()), gone, schema)
    ensures db.View() == if ok then DropFolders(old(db.View()), gone, schema) else old(db.View())
  {
    var folders, files := Unlink(db.folders - gone, gone, schema), Unlink(db.files, gone, schema);
    ok := Fits(schema, folders) && Fits(schema, files);
    if ok {
      db.folders, db.files := folders, files;
    }
  }

  method PurgeCallback(db: Backend, c: Config, id: Id)
    returns (ok: bool, ghost folderBatch: set<Id>, ghost fileBatch: set<Id>)
    modifies db
    ensures PurgePicks(c.limit, old(db.View()), id, folderBatch, fileBatch)
    ensures (db.View(), ok) == Purge(c.schema, old(db.View()), id, folderBatch, fileBatch)
  {
    hide MayDrop, DropFolders, Store.Unmark, ObjectNotices, TrashedChildren, IsBatch;
    folderBatch := SomeBatch(c.limit, TrashedChildren(db.folders, id));
    fileBatch := SomeBatch(c.limit, TrashedChildren(db.files, id));
    if id !in db.folders || db.folders[id].Live() {
      return false, folderBatch, fileBatch;
    }
    var childFolders := Find(TrashedChildren(db.folders, id), c.limit);
    var childFiles := Find(TrashedChildren(db.files, id), c.limit);
    folderBatch, fileBatch := Ids(childFolders), Ids(childFiles);
    ok := DropRows(db, Ids(childFolders), c.schema);
    if !ok {
      return;
    }
    db.RemoveObjects(Ids(childFiles));
    db.files := db.files - Ids(childFiles);
    if TrashedChildren(db.folders, id) != {} || TrashedChildren(db.files, id) != {} {
      return false, folderBatch, fileBatch;
    }
    db.Unmark(FolderMarker(id));
    ok := DropRows(db, {id}, c.schema);
  }

  // ----- the storage notices

  method ExpirationCallback(db: Backend, notice: Notice)
    modifies db
    ensures db.View() == Expire(old(db.View()), notice)
  {
    var id := IdOf(notice);
    if id !in db.files || db.files[id].Live() {
      return;
    }
    if notice.MarkerRemoved? {
      db.RemoveObjects({id});
    }
    db.files := db.files - {id};
  }

  method UploadedCallback(db: Backend, id: Id)
    modifies db
    ensures db.View() == ObjectCreated(old(db.View()), id)
  {
    if id !in db.objects || id !in db.files || !db.files[id].Live() {
      return;
    }
    db.files := db.files[id := db.files[id].(status := Uploaded)];
  }

  // ----- HandleEvents

  // One message: the callback that its type names, then Ack or Nack.
  method HandleEvent(db: Backend, c: Config, e: Event, now: nat) returns (ghost step: Step)
    requires e in db.queue
    modifies db
    ensures Protocol.Delivered(step) == Some(e) && Enabled(c, old(db.View()), step)
    ensures db.View() == Apply(c, old(db.View()), step)
  {
    hide Trash, Restore, Purge, TrashPicks, RestorePicks, PurgePicks;
    var ok;
    ghost var fs, gs;
    match e {
      case FolderTrash(id, user) =>
        ok, fs, gs := TrashCallback(db, c.limit, id, user, now);
        step := DeliverTrash(id, user, now, fs, gs);
      case FolderRestore(id, user) =>
        ok, fs, gs := RestoreCallback(db, c, id, user);
        step := DeliverRestore(id, user, fs, gs);
      case FolderPurge(id, user) =>
        ok, fs, gs := PurgeCallback(db, c, id);
        step := DeliverPurge(id, user, fs, gs);
    }
    if ok {
      db.queue := db.queue - multiset{e};
    }
  }

  // A delivery removes no message but its own.
  lemma OthersStayPending(c: Config, s: State, step: Step)
    requires Protocol.Delivered(step).Some?
    ensures s.queue - multiset{Protocol.Delivered(step).value} <= Apply(c, s, step).queue
  {
    match step
    case DeliverTrash(id, user, now, fs, gs) =>
      HandleKeepsOthers(s, FolderTrash(id, user), Trash(s, id, user, now, fs, gs));
    case DeliverRestore(id, user, fs, gs) =>
      RestoreOnlyPublishes(c.schema, s, id, user, fs, gs);
      HandleKeepsOthers(s, FolderRestore(id, user), Restore(c.schema, s, id, user, fs, gs));
    case DeliverPurge(id, user, fs, gs) =>
      HandleKeepsOthers(s, FolderPurge(id, user), Purge(c.schema, s, id, fs, gs));
  }

  lemma RestoreOnlyPublishes(schema: bool, s: State, id: Id, user: Id, fs: set<Id>, gs: set<Id>)
    ensures s.queue <= Restore(schema, s, id, user, fs, gs).0.queue
  {
    hide Fits, MarkRestoring, ReviveRows, RestoreEvents, FileMarkers, ChildrenLeft, NameTaken;
  }

  lemma HandleKeepsOthers(s: State, e: Event, result: (State, bool))
    requires s.queue <= result.0.queue
    ensures s.queue - multiset{e} <= Handle(e, result).queue
  {
  }

  lemma RunNothing(c: Config, s: State)
    ensures Run(c, s, []) && After(c, s, []) == s
  {
  }

  lemma QueueOf(db: Backend)
    ensures db.View().queue == db.queue
  {
  }

  // A message with a type and payload that the registry knows, or one without.
  datatype Message = Known(event: Event) | Misconfigured

  function EventsOf(messages: seq<Message>): seq<Event> {
    if messages == [] then []
    else EventsOf(messages[..|messages| - 1])
         + (match messages[|messages| - 1] case Known(e) => [e] case Misconfigured => [])
  }

  lemma OneMoreMessage(messages: seq<Message>, k: nat)
    requires k < |messages|
    ensures EventsOf(messages[..k + 1])
            == EventsOf(messages[..k]) + (match messages[k] case Known(e) => [e] case Misconfigured => [])
  {
    assert messages[..k + 1][..k] == messages[..k];
  }

  // Those that can be read, in the order of the messages; `at` says which.
  lemma {:induction false} EventsInOrder(messages: seq<Message>) returns (at: seq<nat>)
    ensures Rising(at, |messages|)
    ensures forall k :: 0 <= k < |messages| ==> (k in at <==> messages[k].Known?)
    ensures |EventsOf(messages)| == |at|
    ensures forall j :: 0 <= j < |at| ==> messages[at[j]] == Known(EventsOf(messages)[j])
    decreases |messages|
  {
    at := [];
    if messages != [] {
      var last := |messages| - 1;
      at := EventsInOrder(messages[..last]);
      if messages[last].Known? {
        at := at + [last];
      }
    }
  }

  lemma {:induction false} EventsOfRest(messages: seq<Message>, k: nat)
    requires k <= |messages|
    ensures EventsOf(messages) == EventsOf(messages[..k]) + EventsOf(messages[k..])
    decreases |messages|
  {
    if k == |messages| {
      assert messages[..k] == messages && messages[k..] == [];
    } else {
      var last := |messages| - 1;
      EventsOfRest(messages[..last], k);
      assert messages[..last][..k] == messages[..k] && messages[k..][..last - k] == messages[..last][k..];
    }
  }

  // Handling the first of the remaining messages leaves the others pending.
  lemma RestStaysPending(messages: seq<Message>, k: nat, before: multiset<Event>, after: multiset<Event>)
    requires k < |messages| && multiset(EventsOf(messages[k..])) <= before
    requires match messages[k] case Known(e) => before - multiset{e} <= after case Misconfigured => after == before
    ensures messages[k].Known? ==> messages[k].event in before
    ensures multiset(EventsOf(messages[k + 1..])) <= after
  {
    EventsOfRest(messages[k..], 1);
    assert messages[k..][..1] == [messages[k]] && messages[k..][1..] == messages[k + 1..];
    OneMoreMessage([messages[k]], 0);
    assert [messages[k]][..1] == [messages[k]] && EventsOf([messages[k]][..0]) == [];
    var first, rest := EventsOf([messages[k]]), EventsOf(messages[k + 1..]);
    assert multiset(first + rest) == multiset(first) + multiset(rest);
    if messages[k].Known? {
      assert first == [messages[k].event];
      assert messages[k].event in multiset(first);
    }
  }

  // The messages of one subscription, one after the other; one that is misconfigured is acknowledged
  // unread. Nothing else runs meanwhile.
  method HandleEvents(db: Backend, c: Config, messages: seq<Message>, times: seq<nat>)
    returns (ghost steps: seq<Step>)
    requires multiset(EventsOf(messages)) <= db.queue && |times| == |messages|
    modifies db
    ensures |steps| == |EventsOf(messages)|
    ensures forall k :: 0 <= k < |steps| ==> Protocol.Delivered(steps[k]) == Some(EventsOf(messages)[k])
    ensures Run(c, old(db.View()), steps) && db.View() == After(c, old(db.View()), steps)
  {
    hide *;
    RunNothing(c, db.View());
    NoEvents(messages);
    steps := [];
    for k := 0 to |messages|
      invariant |steps| == |EventsOf(messages[..k])|
      invariant forall j :: 0 <= j < |steps| ==> Protocol.Delivered(steps[j]) == Some(EventsOf(messages[..k])[j])
      invariant Run(c, old(db.View()), steps) && db.View() == After(c, old(db.View()), steps)
      invariant multiset(EventsOf(messages[k..])) <= db.queue
    {
      OneMoreMessage(messages, k);
      ghost var before, queue := db.View(), db.queue;
      QueueOf(db);
      match messages[k] {
        case Misconfigured =>
        case Known(e) =>
          FirstIsPending(messages, k, queue);
          var step := HandleEvent(db, c, e, times[k]);
          QueueOf(db);
          OthersStayPending(c, before, step);
          RunOneMore(c, old(db.View()), steps, step);
          steps := steps + [step];
      }
      RestStaysPending(messages, k, queue, db.queue);
    }
    assert messages[..|messages|] == messages;
  }

  lemma FirstIsPending(messages: seq<Message>, k: nat, queue: multiset<Event>)
    requires k < |messages| && messages[k].Known? && multiset(EventsOf(messages[k..])) <= queue
    ensures messages[k].event in queue
  {
    RestStaysPending(messages, k, queue, queue - multiset{messages[k].event});
  }

  lemma NoEvents(messages: seq<Message>)
    ensures EventsOf(messages[..0]) == [] && messages[0..] == messages
  {
  }

  // ----- HandleBucketEvents

  // A parsed report of the storage; one about a removed key may come again.
  datatype Report = Created(id: Id) | Removed(notice: Notice, again: bool)

  function StepOf(report: Report): Step {
    match report
    case Created(id) => NotifyCreated(id)
    case Removed(notice, again) => NotifyRemoved(notice, again)
  }

  function StepsOf(reports: seq<Report>): seq<Step> {
    seq(|reports|, k requires 0 <= k < |reports| => StepOf(reports[k]))
  }

  // Report by report.
  lemma StepsAreReports(reports: seq<Report>, k: nat)
    requires k < |reports|
    ensures |StepsOf(reports)| == |reports|
    ensures match reports[k]
            case Created(id) => StepsOf(reports)[k] == NotifyCreated(id)
            case Removed(notice, again) => StepsOf(reports)[k] == NotifyRemoved(notice, again)
  {
  }

  lemma NoSteps(reports: seq<Report>)
    ensures StepsOf(reports[..0]) == [] && reports[0..] == reports
  {
  }

  lemma OneMoreReport(reports: seq<Report>, k: nat)
    requires k < |reports|
    ensures StepsOf(reports[..k + 1]) == StepsOf(reports[..k]) + [StepOf(reports[k])]
  {
  }

  // The reports about removed keys.
  function NoticesOf(reports: seq<Report>): multiset<Notice> {
    if reports == [] then multiset{}
    else (if reports[0].Removed? then multiset{reports[0].notice} else multiset{}) + NoticesOf(reports[1..])
  }

  lemma NextReport(reports: seq<Report>, k: nat)
    requires k < |reports|
    ensures NoticesOf(reports[k..])
            == (if reports[k].Removed? then multiset{reports[k].notice} else multiset{}) + NoticesOf(reports[k + 1..])
  {
    assert reports[k..][0] == reports[k] && reports[k..][1..] == reports[k + 1..];
  }

  method HandleReport(db: Backend, c: Config, report: Report)
    requires report.Removed? ==> report.notice in db.notices
    modifies db
    ensures Enabled(c, old(db.View()), StepOf(report)) && db.View() == Apply(c, old(db.View()), StepOf(report))
    ensures old(db.notices) - (if report.Removed? then multiset{report.notice} else multiset{}) <= db.notices
  {
    match report {
      case Created(id) => UploadedCallback(db, id);
      case Removed(notice, again) =>
        ghost var before := db.View();
        ExpirationCallback(db, notice);
        ExpireOnlyReports(before, notice);
        if !again {
          db.notices := db.notices - multiset{notice};
        }
    }
  }

  lemma ExpireOnlyReports(s: State, notice: Notice)
    ensures s.notices <= Expire(s, notice).notices
  {
  }

  method HandleBucketEvents(db: Backend, c: Config, reports: seq<Report>)
    requires NoticesOf(reports) <= db.notices
    modifies db
    ensures Run(c, old(db.View()), StepsOf(reports))
    ensures db.View() == After(c, old(db.View()), StepsOf(reports))
  {
    hide *;
    RunNothing(c, db.View());
    NoSteps(reports);
    for k := 0 to |reports|
      invariant Run(c, old(db.View()), StepsOf(reports[..k]))
      invariant db.View() == After(c, old(db.View()), StepsOf(reports[..k]))
      invariant NoticesOf(reports[k..]) <= db.notices
    {
      NextReport(reports, k);
      if reports[k].Removed? {
        assert reports[k].notice in NoticesOf(reports[k..]);
      }
      HandleReport(db, c, reports[k]);
      OneMoreReport(reports, k);
      RunOneMore(c, old(db.View()), StepsOf(reports[..k]), StepOf(reports[k]));
    }
    assert reports[..|reports|] == reports;
  }
}
