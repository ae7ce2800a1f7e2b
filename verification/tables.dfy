// The folder and file tables of one bucket, as values.
module Tables {
  import opened Basics

  datatype Status = Unset | Uploading | Uploaded | Deleted | Restoring

  // The columns that folders and files share. A row is soft-deleted ("in the trash")
  // when `deletedAt` is set.
  datatype Row = Row(name: string, parent: Option<Id>, status: Status,
                     deletedBy: Option<Id>, deletedAt: Option<nat>)
  {
    predicate Live() {
      deletedAt.None?
    }

    // What the restore queries select: in the trash and not already being restored.
    predicate Recoverable() {
      deletedAt.Some? && (status == Unset || status == Deleted)
    }

    function Trash(user: Id, now: nat): Row {
      this.(status := Deleted, deletedBy := Some(user), deletedAt := Some(now))
    }

    function Revive(newStatus: Status): Row {
      this.(status := newStatus, deletedBy := None, deletedAt := None)
    }
  }

  type Table = map<Id, Row>

  function LiveChildren(t: Table, p: Id): set<Id> {
    set i | i in t && t[i].parent == Some(p) && t[i].Live()
  }

  function RecoverableChildren(t: Table, p: Id): set<Id> {
    set i | i in t && t[i].parent == Some(p) && t[i].Recoverable()
  }

  function RestoringChildren(t: Table, p: Id): set<Id> {
    set i | i in t && t[i].parent == Some(p) && t[i].status == Restoring
  }

  function TrashedChildren(t: Table, p: Id): set<Id> {
    set i | i in t && t[i].parent == Some(p) && !t[i].Live()
  }

  // A live row other than `self` has this name under this parent.
  predicate NameTaken(t: Table, name: string, parent: Option<Id>, self: Id) {
    exists i :: i in t && i != self && t[i].Live() && t[i].name == name && t[i].parent == parent
  }

  function TrashRows(t: Table, ids: set<Id>, user: Id, now: nat): Table {
    map i | i in t :: if i in ids then t[i].Trash(user, now) else t[i]
  }

  function ReviveRows(t: Table, ids: set<Id>, status: Status): Table {
    map i | i in t :: if i in ids then t[i].Revive(status) else t[i]
  }

  function MarkRestoring(t: Table, ids: set<Id>): Table {
    map i | i in t :: if i in ids then t[i].(status := Restoring) else t[i]
  }

  // Live siblings have distinct names.
  predicate Distinct(t: Table) {
    forall i, j :: i in t && j in t && i != j && t[i].Live() && t[j].Live() && t[i].parent == t[j].parent
                   ==> t[i].name != t[j].name
  }

  // What the unique index on live names says to a write that would leave the table like this.
  predicate Fits(schema: bool, t: Table) {
    schema ==> Distinct(t)
  }

  // After the hard deletion of folders the rows of `t` that pointed to one of them lose their
  // parent (ON DELETE SET NULL of the schema); without the schema they keep a dangling one.
  function Unlink(t: Table, gone: set<Id>, schema: bool): Table {
    map i | i in t :: if schema && t[i].parent.Some? && t[i].parent.value in gone
                      then t[i].(parent := None) else t[i]
  }

  // A LIMIT query without ORDER BY: any `limit` of the candidates, or all of them.
  predicate IsBatch(limit: nat, candidates: set<Id>, batch: set<Id>) {
    batch <= candidates && |batch| == if |candidates| < limit then |candidates| else limit
  }

  // ----- ancestors

  // The folder reached from `start` after `n` steps to the parent; None when the climb leaves the table.
  ghost function Climb(t: Table, start: Option<Id>, n: nat): Option<Id>
    decreases n
  {
    if start.None? || start.value !in t then None
    else if n == 0 then start
    else Climb(t, t[start.value].parent, n - 1)
  }

  ghost predicate OnChain(t: Table, start: Option<Id>, a: Id) {
    exists n: nat :: Climb(t, start, n) == Some(a)
  }

  // The folders at or below `root`.
  ghost function Subtree(t: Table, root: Id): set<Id> {
    set i | i in t && OnChain(t, Some(i), root)
  }

  ghost predicate Ranks(t: Table, rank: map<Id, nat>) {
    && t.Keys <= rank.Keys
    && forall i :: i in t && t[i].parent.Some? && t[i].parent.value in t ==>
         rank[t[i].parent.value] < rank[i]
  }

  // No folder is its own ancestor.
  ghost predicate Acyclic(t: Table) {
    exists rank :: Ranks(t, rank)
  }

  lemma {:induction false} ClimbRank(t: Table, rank: map<Id, nat>, start: Id, n: nat)
    requires Ranks(t, rank) && start in t && Climb(t, Some(start), n).Some?
    ensures Climb(t, Some(start), n).value in t
    ensures rank[Climb(t, Some(start), n).value] + n <= rank[start]
    decreases n
  {
    if n > 0 {
      ClimbRank(t, rank, t[start].parent.value, n - 1);
    }
  }

  lemma {:induction false} ClimbStep(t: Table, start: Option<Id>, n: nat)
    ensures Climb(t, start, n).Some? ==> Climb(t, start, n).value in t
    ensures Climb(t, start, n + 1) ==
            if Climb(t, start, n).None? then None
            else Climb(t, t[Climb(t, start, n).value].parent, 0)
    decreases n
  {
    if start.Some? && start.value in t && n > 0 {
      ClimbStep(t, t[start.value].parent, n - 1);
    }
  }

  // Two tables with the same links have the same chains.
  ghost predicate SameLinks(t: Table, u: Table) {
    t.Keys == u.Keys && forall i :: i in t ==> t[i].parent == u[i].parent
  }

  lemma {:induction false} ClimbSame(t: Table, u: Table, start: Option<Id>, n: nat)
    requires SameLinks(t, u)
    ensures Climb(t, start, n) == Climb(u, start, n)
    decreases n
  {
    if start.Some? && start.value in t && n > 0 {
      ClimbSame(t, u, t[start.value].parent, n - 1);
    }
  }

  lemma SubtreeSame(t: Table, u: Table, root: Id)
    requires SameLinks(t, u)
    ensures Subtree(t, root) == Subtree(u, root)
  {
    forall i | i in t
      ensures OnChain(t, Some(i), root) <==> OnChain(u, Some(i), root)
    {
      if OnChain(t, Some(i), root) {
        var n: nat :| Climb(t, Some(i), n) == Some(root);
        ClimbSame(t, u, Some(i), n);
      }
      if OnChain(u, Some(i), root) {
        var n: nat :| Climb(u, Some(i), n) == Some(root);
        ClimbSame(t, u, Some(i), n);
      }
    }
  }

  // A subtree is its root together with the folders whose parent is in it.
  lemma SubtreeStep(t: Table, root: Id, i: Id)
    requires i in t
    ensures i in Subtree(t, root) <==>
            i == root || (t[i].parent.Some? && t[i].parent.value in Subtree(t, root))
  {
    if i == root {
      assert Climb(t, Some(i), 0) == Some(root);
    }
    if i in Subtree(t, root) && i != root {
      var n: nat :| Climb(t, Some(i), n) == Some(root);
      assert Climb(t, t[i].parent, n - 1) == Some(root);
      assert OnChain(t, t[i].parent, root);
    }
    if t[i].parent.Some? && t[i].parent.value in Subtree(t, root) {
      var n: nat :| Climb(t, t[i].parent, n) == Some(root);
      assert Climb(t, Some(i), n + 1) == Some(root);
    }
  }

  lemma AcyclicSameLinks(t: Table, u: Table)
    requires SameLinks(t, u) && Acyclic(t)
    ensures Acyclic(u)
  {
    var rank :| Ranks(t, rank);
    assert Ranks(u, rank);
  }
}
