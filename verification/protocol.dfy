// The whole system as a transition system: service calls, event deliveries and what the
// object storage does on its own. Every step is atomic.
module Protocol {
  import opened Basics
  import opened Store
  import opened BucketFolder
  import opened BucketFile
  import opened FolderTrashEvent
  import opened FolderRestoreEvent
  import opened FolderPurgeEvent
  import opened TrashExpirationEvent

  // BulkActionsLimit, the retention period, and whether the database enforces what its schema says
  // about folders and files: ON DELETE SET NULL and the unique indexes on live names.
  datatype Config = Config(limit: nat, retention: nat, schema: bool)

  datatype Step =
    // users
    | DoCreateFolder(id: Id, name: string, parent: Option<Id>)
    | DoUpdateFolder(id: Id, name: string)
    | DoTrashFolder(id: Id, user: Id, now: nat)
    | DoRestoreFolder(id: Id, user: Id, now: nat)
    | DoPurgeFolder(id: Id, user: Id)
    | DoUploadFile(id: Id, name: string, parent: Option<Id>)
    | DoTrashFile(id: Id, user: Id, now: nat, logOk: bool)
    | DoRestoreFile(id: Id, logOk: bool)
    | DoPurgeFile(id: Id, logOk: bool)
    // the event worker
    | DeliverTrash(id: Id, user: Id, now: nat, folderBatch: set<Id>, fileBatch: set<Id>)
    | DeliverRestore(id: Id, user: Id, folderBatch: set<Id>, fileBatch: set<Id>)
    | DeliverPurge(id: Id, user: Id, folderBatch: set<Id>, fileBatch: set<Id>)
    // the object storage
    | StoreObject(id: Id)
    | NotifyCreated(id: Id)
    | MarkerExpires(marker: Marker)
    | NotifyRemoved(notice: Notice, again: bool)

  // The event a delivery step consumes.
  function Delivered(step: Step): Option<Event> {
    match step
    case DeliverTrash(id, user, _, _, _) => Some(FolderTrash(id, user))
    case DeliverRestore(id, user, _, _) => Some(FolderRestore(id, user))
    case DeliverPurge(id, user, _, _) => Some(FolderPurge(id, user))
    case _ => None
  }

  // A uuid that occurs nowhere in the database yet, nor in a marker.
  ghost predicate Fresh(s: State, id: Id) {
    && id !in s.folders && id !in s.files
    && (forall i :: i in s.folders ==> s.folders[i].parent != Some(id))
    && (forall i :: i in s.files ==> s.files[i].parent != Some(id))
    && FileMarker(id) !in s.markers && FolderMarker(id) !in s.markers
    && MarkerRemoved(FileMarker(id)) !in s.notices && MarkerRemoved(FolderMarker(id)) !in s.notices
  }

  // Deliveries need their event pending and a batch the database may return; a notice of the
  // storage has a cause.
  ghost predicate Enabled(c: Config, s: State, step: Step) {
    && (Delivered(step).Some? ==> Delivered(step).value in s.queue)
    && match step
       case DoCreateFolder(id, _, _) => Fresh(s, id)
       case DoUploadFile(id, _, _) => Fresh(s, id)
       case DeliverTrash(id, _, _, fs, gs) => TrashPicks(c.limit, s, id, fs, gs)
       case DeliverRestore(id, _, fs, gs) => RestorePicks(c.limit, s, id, fs, gs)
       case DeliverPurge(id, _, fs, gs) => PurgePicks(c.limit, s, id, fs, gs)
       case NotifyRemoved(notice, _) => notice in s.notices
       case _ => true
  }

  // HandleEvents: a callback without error is acknowledged, any other stays pending.
  ghost function Handle(e: Event, result: (State, bool)): State {
    if result.1 then result.0.(queue := result.0.queue - multiset{e}) else result.0
  }

  // A notice may come again.
  ghost function Notified(s: State, notice: Notice, again: bool): State {
    var s' := Expire(s, notice);
    if again then s' else s'.(notices := s'.notices - multiset{notice})
  }

  ghost function Apply(c: Config, s: State, step: Step): State {
    match step
    case DoCreateFolder(id, name, parent) => CreateFolder(s, id, name, parent).0
    case DoUpdateFolder(id, name) => UpdateFolder(s, id, name).0
    case DoTrashFolder(id, user, now) => TrashFolder(s, id, user, now).0
    case DoRestoreFolder(id, user, now) => RestoreFolder(s, id, user, now, c.retention).0
    case DoPurgeFolder(id, user) => PurgeFolder(s, id, user).0
    case DoUploadFile(id, name, parent) => UploadFile(s, id, name, parent).0
    case DoTrashFile(id, user, now, logOk) => TrashFile(s, id, user, now, logOk).0
    case DoRestoreFile(id, logOk) => RestoreFile(s, id, logOk).0
    case DoPurgeFile(id, logOk) => PurgeFile(s, id, logOk).0
    case DeliverTrash(id, user, now, fs, gs) => Handle(FolderTrash(id, user), Trash(s, id, user, now, fs, gs))
    case DeliverRestore(id, user, fs, gs) => Handle(FolderRestore(id, user), Restore(c.schema, s, id, user, fs, gs))
    case DeliverPurge(id, user, fs, gs) => Handle(FolderPurge(id, user), Purge(c.schema, s, id, fs, gs))
    case StoreObject(id) => PutObject(s, id)
    case NotifyCreated(id) => ObjectCreated(s, id)
    case MarkerExpires(marker) => Unmark(s, {marker})
    case NotifyRemoved(notice, again) => Notified(s, notice, again)
  }

  // The state after a run, and whether every step of it could happen.
  ghost function After(c: Config, s: State, steps: seq<Step>): State
    decreases |steps|
  {
    if steps == [] then s else After(c, Apply(c, s, steps[0]), steps[1..])
  }

  ghost predicate Run(c: Config, s: State, steps: seq<Step>)
    decreases |steps|
  {
    steps == [] || (Enabled(c, s, steps[0]) && Run(c, Apply(c, s, steps[0]), steps[1..]))
  }

  lemma {:induction false} RunOneMore(c: Config, s: State, steps: seq<Step>, last: Step)
    ensures Run(c, s, steps + [last]) <==> Run(c, s, steps) && Enabled(c, After(c, s, steps), last)
    ensures After(c, s, steps + [last]) == Apply(c, After(c, s, steps), last)
    decreases |steps|
  {
    hide Enabled, Apply;
    if steps != [] {
      assert (steps + [last])[1..] == steps[1..] + [last];
      RunOneMore(c, Apply(c, s, steps[0]), steps[1..], last);
    }
  }

  lemma {:induction false} RunOneAfterTheOther(c: Config, s: State, a: seq<Step>, b: seq<Step>)
    ensures Run(c, s, a + b) <==> Run(c, s, a) && Run(c, After(c, s, a), b)
    ensures After(c, s, a + b) == After(c, After(c, s, a), b)
    decreases |a|
  {
    hide Enabled, Apply;
    if a == [] {
      assert a + b == b;
    } else {
      assert (a + b)[1..] == a[1..] + b;
      RunOneAfterTheOther(c, Apply(c, s, a[0]), a[1..], b);
    }
  }

  const EMPTY := State(map[], map[], {}, {}, multiset{}, multiset{})
}
