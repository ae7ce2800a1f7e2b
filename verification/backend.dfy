// The mutable store that the services and the event worker share.
module BackendStore {
  import opened Basics
  import opened Tables
  import opened Store

  function Ids(rows: seq<Id>): set<Id> {
    set i | i in rows
  }

  class Backend {
    var folders: Table
    var files: Table
    var objects: set<Id>
    var markers: set<Marker>
    var queue: multiset<Event>
    var notices: multiset<Notice>

    ghost function View(): State
      reads this
    {
      State(folders, files, objects, markers, queue, notices)
    }

    constructor ()
      ensures View() == State(map[], map[], {}, {}, multiset{}, multiset{})
    {
      folders, files, objects, markers, queue, notices := map[], map[], {}, {}, multiset{}, multiset{};
    }

    // MarkAsTrashed on a folder: folders exist in the database only, so there is nothing to check.
    method MarkFolder(id: Id)
      modifies this`markers
      ensures markers == old(markers) + {FolderMarker(id)}
    {
      markers := markers + {FolderMarker(id)};
    }

    // MarkAsTrashed on a file refuses when the object does not exist.
    method MarkFile(id: Id) returns (ok: bool)
      modifies this`markers
      ensures ok <==> id in objects
      ensures markers == if ok then old(markers) + {FileMarker(id)} else old(markers)
    {
      ok := id in objects;
      if ok {
        markers := markers + {FileMarker(id)};
      }
    }

    // UnmarkAsTrashed.
    method Unmark(marker: Marker)
      modifies this`markers, this`notices
      ensures View() == Store.Unmark(old(View()), {marker})
    {
      if marker in markers {
        notices := notices + multiset{MarkerRemoved(marker)};
        assert {marker} * markers == {marker};
        assert (set m | m in {marker} :: MarkerRemoved(m)) == {MarkerRemoved(marker)};
      } else {
        assert {marker} * markers == {};
        assert MarkerNotices({}) == multiset{};
      }
      markers := markers - {marker};
    }

    method UnmarkFolders(ids: seq<Id>)
      modifies this`markers, this`notices
      ensures View() == Store.Unmark(old(View()), FolderMarkers(Ids(ids)))
    {
      hide Store.Unmark;
      UnmarkNothing(View());
      assert FolderMarkers(Ids(ids[..0])) == {};
      for k := 0 to |ids|
        invariant View() == Store.Unmark(old(View()), FolderMarkers(Ids(ids[..k])))
        invariant folders == old(folders) && files == old(files) && objects == old(objects) && queue == old(queue)
      {
        assert ids[..k + 1] == ids[..k] + [ids[k]];
        assert FolderMarkers(Ids(ids[..k + 1])) == FolderMarkers(Ids(ids[..k])) + {FolderMarker(ids[k])};
        UnmarkTwice(old(View()), FolderMarkers(Ids(ids[..k])), {FolderMarker(ids[k])});
        Unmark(FolderMarker(ids[k]));
      }
      assert ids[..|ids|] == ids;
    }

    method UnmarkFiles(ids: seq<Id>)
      modifies this`markers, this`notices
      ensures View() == Store.Unmark(old(View()), FileMarkers(Ids(ids)))
    {
      hide Store.Unmark;
      UnmarkNothing(View());
      assert FileMarkers(Ids(ids[..0])) == {};
      for k := 0 to |ids|
        invariant View() == Store.Unmark(old(View()), FileMarkers(Ids(ids[..k])))
        invariant folders == old(folders) && files == old(files) && objects == old(objects) && queue == old(queue)
      {
        assert ids[..k + 1] == ids[..k] + [ids[k]];
        assert FileMarkers(Ids(ids[..k + 1])) == FileMarkers(Ids(ids[..k])) + {FileMarker(ids[k])};
        UnmarkTwice(old(View()), FileMarkers(Ids(ids[..k])), {FileMarker(ids[k])});
        Unmark(FileMarker(ids[k]));
      }
      assert ids[..|ids|] == ids;
    }

    method RemoveObjects(ids: set<Id>)
      modifies this`objects, this`notices
      ensures View() == Store.RemoveObjects(old(View()), ids)
    {
      notices := notices + ObjectNotices(ids * objects);
      objects := objects - ids;
    }

    method Publish(e: Event)
      modifies this`queue
      ensures queue == old(queue) + multiset{e}
    {
      queue := queue + multiset{e};
    }
  }

  lemma UnmarkNothing(s: State)
    ensures Store.Unmark(s, {}) == s
  {
    assert {} * s.markers == {} && MarkerNotices({}) == multiset{};
  }

  // SELECT ... LIMIT without ORDER BY.
  method Find(candidates: set<Id>, limit: nat) returns (rows: seq<Id>)
    ensures NoRepeats(rows) && IsBatch(limit, candidates, Ids(rows))
  {
    rows := [];
    var left := candidates;
    while |rows| < limit && left != {}
      invariant NoRepeats(rows) && left == candidates - Ids(rows) && Ids(rows) <= candidates
      invariant |Ids(rows)| == |rows| <= limit
      decreases left
    {
      var i :| i in left;
      assert Ids(rows + [i]) == Ids(rows) + {i};
      rows := rows + [i];
      left := left - {i};
    }
    assert |left| == |candidates| - |Ids(rows)|;
  }

  lemma OneMoreTrash(rows: seq<Id>, k: nat, user: Id)
    requires NoRepeats(rows) && k < |rows|
    ensures TrashEvents(Ids(rows[..k + 1]), user)
            == TrashEvents(Ids(rows[..k]), user) + multiset{FolderTrash(rows[k], user)}
  {
    OneMoreId(rows, k);
    var a, e := Ids(rows[..k]), FolderTrash(rows[k], user);
    var events := set i | i in a :: FolderTrash(i, user);
    assert (set i | i in a + {rows[k]} :: FolderTrash(i, user)) == events + {e} && e !in events;
  }

  lemma OneMoreRestore(rows: seq<Id>, k: nat, user: Id)
    requires NoRepeats(rows) && k < |rows|
    ensures RestoreEvents(Ids(rows[..k + 1]), user)
            == RestoreEvents(Ids(rows[..k]), user) + multiset{FolderRestore(rows[k], user)}
  {
    OneMoreId(rows, k);
    var a, e := Ids(rows[..k]), FolderRestore(rows[k], user);
    var events := set i | i in a :: FolderRestore(i, user);
    assert (set i | i in a + {rows[k]} :: FolderRestore(i, user)) == events + {e} && e !in events;
  }

  lemma OneMoreId(rows: seq<Id>, k: nat)
    requires NoRepeats(rows) && k < |rows|
    ensures Ids(rows[..k + 1]) == Ids(rows[..k]) + {rows[k]} && rows[k] !in Ids(rows[..k])
  {
    assert rows[..k + 1] == rows[..k] + [rows[k]];
  }
}
