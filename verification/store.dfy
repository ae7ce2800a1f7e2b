// Database, object storage and message queue of one bucket.
module Store {
  import opened Basics
  import opened Tables

  // The three folder events; the other event types do not touch this state.
  datatype Event =
    | FolderTrash(folder: Id, user: Id)
    | FolderRestore(folder: Id, user: Id)
    | FolderPurge(folder: Id, user: Id)

  // trash/{bucket}/files/{id} and trash/{bucket}/folders/{id}
  datatype Marker = FileMarker(id: Id) | FolderMarker(id: Id)

  // What the object storage reports when a key has gone, and has not been handled yet.
  datatype Notice = MarkerRemoved(marker: Marker) | ObjectRemoved(object: Id)

  datatype State = State(folders: Table, files: Table, objects: set<Id>, markers: set<Marker>,
                         queue: multiset<Event>, notices: multiset<Notice>)

  function FileMarkers(ids: set<Id>): set<Marker> {
    set i | i in ids :: FileMarker(i)
  }

  function FolderMarkers(ids: set<Id>): set<Marker> {
    set i | i in ids :: FolderMarker(i)
  }

  function TrashEvents(ids: set<Id>, user: Id): multiset<Event> {
    multiset(set i | i in ids :: FolderTrash(i, user))
  }

  function RestoreEvents(ids: set<Id>, user: Id): multiset<Event> {
    multiset(set i | i in ids :: FolderRestore(i, user))
  }

  function MarkerNotices(markers: set<Marker>): multiset<Notice> {
    multiset(set m | m in markers :: MarkerRemoved(m))
  }

  function ObjectNotices(ids: set<Id>): multiset<Notice> {
    multiset(set i | i in ids :: ObjectRemoved(i))
  }

  // Removes markers; the storage reports those that were there.
  function Unmark(s: State, markers: set<Marker>): State {
    s.(markers := s.markers - markers, notices := s.notices + MarkerNotices(markers * s.markers))
  }

  // Removes objects; the storage reports those that were there.
  function RemoveObjects(s: State, ids: set<Id>): State {
    s.(objects := s.objects - ids, notices := s.notices + ObjectNotices(ids * s.objects))
  }

  lemma UnmarkTwice(s: State, a: set<Marker>, b: set<Marker>)
    ensures Unmark(Unmark(s, a), b) == Unmark(s, a + b)
  {
    var first, second := a * s.markers, b * (s.markers - a);
    NoticesOfUnion(first, second);
    assert first + second == (a + b) * s.markers;
    assert s.markers - a - b == s.markers - (a + b);
  }

  lemma NoticesOfUnion(a: set<Marker>, b: set<Marker>)
    requires a !! b
    ensures MarkerNotices(a + b) == MarkerNotices(a) + MarkerNotices(b)
  {
    var na, nb := set m | m in a :: MarkerRemoved(m), set m | m in b :: MarkerRemoved(m);
    assert (set m | m in a + b :: MarkerRemoved(m)) == na + nb && na !! nb;
  }

  // Every marker will be reported once: the markers that are there and the reports about those that
  // have gone.
  ghost function Ledger(s: State): multiset<Notice> {
    MarkerNotices(s.markers) + s.notices
  }

  lemma UnmarkKeepsLedger(s: State, markers: set<Marker>)
    ensures Ledger(Unmark(s, markers)) == Ledger(s)
  {
    NoticesOfUnion(s.markers - markers, markers * s.markers);
    assert s.markers - markers + markers * s.markers == s.markers;
  }

  // What a service call answers; the numbers are the HTTP codes of the error.
  datatype Reply =
    | Accepted
    | NotFound         // 404
    | Conflict         // 409
    | Expired          // 410
    | Failed           // 500
}
