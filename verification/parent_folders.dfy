// internal/helpers/folder.go: bringing the trashed ancestors of a restored item back.
module ParentFolders {
  import opened Basics
  import opened Tables

  // The folders that RestoreParentFolders has to revive.
  ghost function TrashedAncestors(t: Table, start: Option<Id>): set<Id> {
    set a | a in t && !t[a].Live() && t[a].status != Restoring && OnChain(t, start, a)
  }

  // One of them would come back next to a live folder of the same name.
  ghost predicate ParentConflict(t: Table, start: Option<Id>) {
    exists a :: a in TrashedAncestors(t, start) && NameTaken(t, t[a].name, t[a].parent, a)
  }

  ghost function WithParents(t: Table, start: Option<Id>): Table {
    ReviveRows(t, TrashedAncestors(t, start), Unset)
  }

  // `outer` is reached from `inner` by at least one step to the parent.
  ghost predicate ProperAncestor(t: Table, outer: Id, inner: Id) {
    inner in t && OnChain(t, t[inner].parent, outer)
  }

  // Every later entry lies below every earlier one.
  ghost predicate RootFirst(t: Table, s: seq<Id>) {
    forall i, j :: 0 <= i < j < |s| ==> ProperAncestor(t, s[i], s[j])
  }

  // The climb: the trashed folders on the chain, nearest first.
  method CollectTrashed(tx: Table, folderID: Option<Id>) returns (trashed: seq<Id>)
    requires Acyclic(tx)
    ensures TrashedChain(tx, folderID, trashed)
  {
    ghost var rank :| Ranks(tx, rank);
    trashed := [];
    var current := folderID;
    ghost var n := 0;
    while current.Some? && current.value in tx
      invariant InTable(tx, current) == Climb(tx, folderID, n)
      invariant forall a :: a in trashed ==> a in tx && !tx[a].Live()
      invariant Collected(tx, folderID, n, trashed)
      invariant NearestFirst(tx, trashed)
      invariant current.Some? && current.value in tx ==> AllBelow(tx, current.value, trashed)
      decreases if current.Some? && current.value in tx then rank[current.value] + 1 else 0
    {
      ClimbStep(tx, folderID, n);
      CollectOne(tx, folderID, n, current.value, trashed);
      if !tx[current.value].Live() {
        trashed := trashed + [current.value];
      }
      current := tx[current.value].parent;
      n := n + 1;
    }
    ChainEnds(tx, folderID, n, trashed);
  }

  method RestoreParentFolders(tx: Table, folderID: Option<Id>)
    returns (ok: bool, table: Table, restored: seq<Id>)
    requires Acyclic(tx)
    ensures ok <==> !ParentConflict(tx, folderID)
    ensures ok ==> table == WithParents(tx, folderID)
    ensures ok ==> forall a :: a in restored <==> a in TrashedAncestors(tx, folderID)
    ensures ok ==> RootFirst(tx, restored)
  {
    var trashed := CollectTrashed(tx, folderID);
    table := tx;
    restored := [];
    var i := |trashed| - 1;
    assert Halfway(tx, trashed, i, table, restored) by {
      assert ReviveRows(tx, {}, Unset) == tx;
    }
    while 0 <= i
      invariant Halfway(tx, trashed, i, table, restored)
      decreases i
    {
      var id := trashed[i];
      TakeOne(tx, folderID, trashed, i, table, restored);
      if tx[id].status != Restoring {
        if NameTaken(table, table[id].name, table[id].parent, id) {
          return false, table, restored;
        }
        table := table[id := table[id].Revive(Unset)];
        restored := restored + [id];
      }
      i := i - 1;
    }
    AllTaken(tx, folderID, trashed, table, restored);
    ok := true;
  }

  // What CollectTrashed promises.
  ghost predicate TrashedChain(t: Table, start: Option<Id>, trashed: seq<Id>) {
    && (forall a :: a in trashed ==> a in t && !t[a].Live())
    && (forall a :: a in trashed && a in t && t[a].status != Restoring <==> a in TrashedAncestors(t, start))
    && NearestFirst(t, trashed)
  }

  ghost function ToRevive(t: Table, s: seq<Id>): set<Id> {
    set a | a in s && a in t && t[a].status != Restoring
  }

  // The second loop has dealt with `trashed[i + 1..]`.
  ghost predicate Halfway(t: Table, trashed: seq<Id>, i: int, table: Table, restored: seq<Id>) {
    && -1 <= i < |trashed|
    && (forall a :: a in restored <==> a in ToRevive(t, trashed[i + 1..]))
    && table == ReviveRows(t, ToRevive(t, trashed[i + 1..]), Unset)
    && (forall a :: a in restored && a in t ==> !NameTaken(t, t[a].name, t[a].parent, a))
    && RootFirst(t, restored)
  }

  // One turn of the second loop: what it sees of `trashed[i]` in the half-restored table is what
  // the original table says.
  lemma TakeOne(t: Table, start: Option<Id>, trashed: seq<Id>, i: nat, table: Table, restored: seq<Id>)
    requires Acyclic(t) && TrashedChain(t, start, trashed) && Halfway(t, trashed, i, table, restored)
    ensures var id := trashed[i];
            && id in t && id in table && table[id] == t[id]
            && (t[id].status == Restoring ==> Halfway(t, trashed, i - 1, table, restored))
            && (t[id].status != Restoring && NameTaken(table, t[id].name, t[id].parent, id)
                ==> ParentConflict(t, start))
            && (t[id].status != Restoring && !NameTaken(table, t[id].name, t[id].parent, id)
                ==> Halfway(t, trashed, i - 1, table[id := t[id].Revive(Unset)], restored + [id]))
  {
    var id, rest := trashed[i], ToRevive(t, trashed[i + 1..]);
    assert trashed[i..] == [id] + trashed[i + 1..];
    assert ToRevive(t, trashed[i..]) == if t[id].status != Restoring then rest + {id} else rest;
    forall a | a in rest
      ensures ProperAncestor(t, a, id)
    {
      var j :| i + 1 <= j < |trashed| && trashed[j] == a;
    }
    RevivedAboveDoNotClash(t, rest, id);
    forall k | 0 <= k < |restored|
      ensures ProperAncestor(t, restored[k], id)
    {
      assert restored[k] in restored;
    }
    assert ReviveRows(t, rest + {id}, Unset) == table[id := t[id].Revive(Unset)];
    if t[id].status != Restoring && NameTaken(table, t[id].name, t[id].parent, id) {
      assert id in TrashedAncestors(t, start);
    }
  }

  lemma AllTaken(t: Table, start: Option<Id>, trashed: seq<Id>, table: Table, restored: seq<Id>)
    requires TrashedChain(t, start, trashed) && Halfway(t, trashed, -1, table, restored)
    ensures !ParentConflict(t, start) && table == WithParents(t, start)
    ensures forall a :: a in restored <==> a in TrashedAncestors(t, start)
    ensures RootFirst(t, restored)
  {
    assert trashed[0..] == trashed;
    assert ToRevive(t, trashed) == TrashedAncestors(t, start);
  }

  ghost function InTable(t: Table, f: Option<Id>): Option<Id> {
    if f.Some? && f.value in t then f else None
  }

  ghost predicate IsTrashedAt(t: Table, start: Option<Id>, k: nat, a: Id) {
    Climb(t, start, k) == Some(a) && a in t && !t[a].Live()
  }

  // `trashed` holds the trashed folders among the first `n` of the chain.
  ghost predicate Collected(t: Table, start: Option<Id>, n: nat, trashed: seq<Id>) {
    forall a :: a in trashed <==> exists k: nat :: k < n && IsTrashedAt(t, start, k, a)
  }

  ghost predicate NearestFirst(t: Table, s: seq<Id>) {
    forall i, j :: 0 <= i < j < |s| ==> ProperAncestor(t, s[j], s[i])
  }

  ghost predicate AllBelow(t: Table, id: Id, s: seq<Id>) {
    forall i :: 0 <= i < |s| ==> ProperAncestor(t, id, s[i])
  }

  // One turn of the climb: recording `id` when it is trashed, then moving to its parent.
  lemma CollectOne(t: Table, start: Option<Id>, n: nat, id: Id, trashed: seq<Id>)
    requires Climb(t, start, n) == Some(id) && id in t
    requires Collected(t, start, n, trashed) && NearestFirst(t, trashed) && AllBelow(t, id, trashed)
    ensures var next := if t[id].Live() then trashed else trashed + [id];
            && Collected(t, start, n + 1, next)
            && NearestFirst(t, next)
            && (t[id].parent.Some? && t[id].parent.value in t ==> AllBelow(t, t[id].parent.value, next))
  {
    assert forall a :: IsTrashedAt(t, start, n, a) <==> a == id && !t[id].Live();
    var next := if t[id].Live() then trashed else trashed + [id];
    forall a
      ensures a in next <==> exists k: nat :: k < n + 1 && IsTrashedAt(t, start, k, a)
    {
      if a in trashed {
        var k: nat :| k < n && IsTrashedAt(t, start, k, a);
        assert k < n + 1;
      }
      if a == id && !t[id].Live() {
        assert n < n + 1 && IsTrashedAt(t, start, n, a);
      }
    }
    if t[id].parent.Some? && t[id].parent.value in t {
      var p := t[id].parent.value;
      assert Climb(t, t[id].parent, 0) == Some(p);
      forall i | 0 <= i < |trashed|
        ensures ProperAncestor(t, p, trashed[i])
      {
        var k: nat :| Climb(t, t[trashed[i]].parent, k) == Some(id);
        ClimbStep(t, t[trashed[i]].parent, k);
        assert Climb(t, t[trashed[i]].parent, k + 1) == Some(p);
      }
    }
  }

  // Once the climb has left the table nothing further is on the chain.
  lemma {:induction false} ClimbOver(t: Table, start: Option<Id>, n: nat, k: nat)
    requires Climb(t, start, n).None? && n <= k
    ensures Climb(t, start, k).None?
    decreases k
  {
    if n < k {
      ClimbOver(t, start, n, k - 1);
      ClimbStep(t, start, k - 1);
    }
  }

  lemma ChainEnds(t: Table, start: Option<Id>, n: nat, trashed: seq<Id>)
    requires Climb(t, start, n).None?
    requires Collected(t, start, n, trashed)
    ensures forall a :: a in trashed && a in t && t[a].status != Restoring <==> a in TrashedAncestors(t, start)
  {
    forall a | a in TrashedAncestors(t, start)
      ensures a in trashed
    {
      var k: nat :| Climb(t, start, k) == Some(a);
      if n <= k {
        ClimbOver(t, start, n, k);
      }
      assert IsTrashedAt(t, start, k, a);
    }
    forall a | a in trashed && t[a].status != Restoring
      ensures a in TrashedAncestors(t, start)
    {
      var k: nat :| k < n && IsTrashedAt(t, start, k, a);
      assert OnChain(t, start, a);
    }
  }

  // A folder is never a sibling of its own ancestor.
  lemma AncestorIsNoSibling(t: Table, outer: Id, inner: Id)
    requires Acyclic(t) && ProperAncestor(t, outer, inner)
    ensures outer in t && t[outer].parent != t[inner].parent && outer != inner
  {
    var rank :| Ranks(t, rank);
    var n: nat :| Climb(t, t[inner].parent, n) == Some(outer);
    ClimbRank(t, rank, t[inner].parent.value, n);
  }

  // Reviving ancestors of `id` does not change which of its siblings are live.
  lemma RevivedAboveDoNotClash(t: Table, above: set<Id>, id: Id)
    requires Acyclic(t) && id in t
    requires forall a :: a in above ==> ProperAncestor(t, a, id)
    ensures NameTaken(ReviveRows(t, above, Unset), t[id].name, t[id].parent, id)
            <==> NameTaken(t, t[id].name, t[id].parent, id)
    ensures ReviveRows(t, above, Unset)[id] == t[id]
  {
    forall a | a in above
      ensures a in t && t[a].parent != t[id].parent && a != id
    {
      AncestorIsNoSibling(t, a, id);
    }
    var u := ReviveRows(t, above, Unset);
    forall i | i in t && t[i].parent == t[id].parent
      ensures u[i] == t[i]
    {
    }
    if NameTaken(t, t[id].name, t[id].parent, id) {
      var i :| i in t && i != id && t[i].Live() && t[i].name == t[id].name && t[i].parent == t[id].parent;
      assert u[i] == t[i];
    }
  }

  // After a success nothing on the chain is left in the trash except what is being restored, and
  // the rest of the table is as it was: a second call finds nothing to do.
  lemma ParentsAreBack(t: Table, start: Option<Id>)
    ensures var u := WithParents(t, start);
            && (forall a :: a in t && OnChain(t, start, a) ==> u[a].Live() || u[a].status == Restoring)
            && (forall a :: a in t && !OnChain(t, start, a) ==> u[a] == t[a])
            && TrashedAncestors(u, start) == {} && !ParentConflict(u, start) && WithParents(u, start) == u
  {
    var u := WithParents(t, start);
    forall a | a in u && OnChain(u, start, a)
      ensures OnChain(t, start, a)
    {
      var n: nat :| Climb(u, start, n) == Some(a);
      ClimbSame(t, u, start, n);
    }
    assert TrashedAncestors(u, start) == {};
  }
}
