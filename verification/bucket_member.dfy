// internal/services/bucket_member.go
module BucketMember {
  import opened Basics
  import opened SharedBuckets

  datatype Reply = Done | UnknownProvider | SharingDisabled | BucketNotFound

  function WantOf(want: map<Email, Group>, email: Email): Option<Group> {
    if email in want then Some(want[email]) else None
  }

  // The k-th entry of the body is the last one for its email.
  predicate LastFor(body: seq<(Email, Group)>, k: int, email: Email) {
    0 <= k < |body| && body[k].0 == email && forall j :: k < j < |body| ==> body[j].0 != email
  }

  // What the body asks for this email: the later entry wins, and without one the email has to go.
  ghost predicate Asks(body: seq<(Email, Group)>, email: Email, want: Option<Group>) {
    match want
    case Some(group) => exists k :: LastFor(body, k, email) && body[k].1 == group
    case None => forall k :: 0 <= k < |body| ==> body[k].0 != email
  }

  // It asks for one thing.
  lemma AsksOnce(body: seq<(Email, Group)>, email: Email, a: Option<Group>, b: Option<Group>)
    requires Asks(body, email, a) && Asks(body, email, b)
    ensures a == b
  {
    if a.Some? && b.Some? {
      var k :| LastFor(body, k, email) && body[k].1 == a.value;
      var l :| LastFor(body, l, email) && body[l].1 == b.value;
      assert k == l;
    }
  }

  lemma AsksOneMore(body: seq<(Email, Group)>, entry: (Email, Group), email: Email, want: Option<Group>)
    requires Asks(body, email, want)
    ensures Asks(body + [entry], email, if email == entry.0 then Some(entry.1) else want)
  {
    if email == entry.0 {
      assert LastFor(body + [entry], |body|, email);
    } else if want.Some? {
      var k :| LastFor(body, k, email) && body[k].1 == want.value;
      assert LastFor(body + [entry], k, email);
    }
  }

  // The emails in `done` have been dealt with and no other.
  ghost predicate Progress(s0: Sharing, s: Sharing, b: Id, done: set<Email>, want: map<Email, Group>) {
    && Valid(s) && SameElsewhere(s0, s, b, done)
    && forall e :: e in done ==> AsWanted(s0, s, b, e, WantOf(want, e))
  }

  lemma SameEntry(s: Sharing, s': Sharing, b: Id, done: set<Email>, e: Email)
    requires SameElsewhere(s, s', b, done) && e !in done
    ensures HasEntry(s, b, e) <==> HasEntry(s', b, e)
  {
    if HasEntry(s, b, e) {
      var m :| Listed(s, b, m) && m.email == e;
      assert Listed(s', b, m);
    }
    if HasEntry(s', b, e) {
      var m :| Listed(s', b, m) && m.email == e;
      assert Listed(s, b, m);
    }
  }

  lemma OneMore(s0: Sharing, s: Sharing, s': Sharing, b: Id, done: set<Email>, want: map<Email, Group>, e: Email)
    requires Progress(s0, s, b, done, want) && e !in done
    requires Valid(s') && SameElsewhere(s, s', b, {e}) && AsWanted(s, s', b, e, WantOf(want, e))
    ensures Progress(s0, s', b, done + {e}, want)
  {
    hide Valid, Listed;
    SameEntry(s0, s, b, done, e);
    forall x | x in done
      ensures AsWanted(s0, s', b, x, WantOf(want, x))
    {
      SameEntry(s, s', b, {e}, x);
    }
  }

  predicate IsUpdate(current: map<Email, Member>, updated: map<Email, Group>, x: (Member, Group)) {
    && x.0.email in updated && x.0.email in current
    && x == (current[x.0.email], updated[x.0.email]) && x.0.group != x.1
  }

  class BucketMemberService {
    const db: SharingDatabase

    constructor (db: SharingDatabase)
      ensures this.db == db
    {
      this.db := db;
    }

    // The listing, memberships first.
    method GetBucketMembers(b: Id) returns (members: seq<Member>)
      requires Valid(db.View())
      ensures forall m :: m in members <==> Listed(db.View(), b, m)
    {
      if b !in db.buckets {
        return [];
      }
      var people := InSomeOrder<Id>(set u: Id | u in db.users && (u, b) in db.memberships);
      var emails: set<Email> := {};
      members := [];
      for i := 0 to |people|
        invariant forall m :: m in members <==>
          m.user.Some? && m.user.value in people[..i] && Listed(db.View(), b, m)
        invariant forall e :: e in emails <==> exists u :: u in people[..i] && u in db.users && db.users[u] == e
      {
        var u := people[i];
        assert people[..i + 1] == people[..i] + [u];
        assert u in people;
        emails := emails + {db.users[u]};
        members := members + [Member(db.users[u], db.memberships[(u, b)], Some(u))];
      }
      assert people[..|people|] == people;
      assert forall e :: e in emails <==> HasMember(db.View(), b, e);
      var invited := InSomeOrder(set v | v in db.invites && v.bucket == b);
      for i := 0 to |invited|
        invariant forall m :: m in members <==>
          Listed(db.View(), b, m) && (m.user.None? ==> Invite(m.email, b, m.group) in invited[..i])
      {
        var v := invited[i];
        assert invited[..i + 1] == invited[..i] + [v];
        assert v in invited;
        if v.email !in emails {
          members := members + [Member(v.email, v.group, None)];
        }
      }
      assert invited[..|invited|] == invited;
    }
  
    method CompareMemberships(current: map<Email, Member>, updated: map<Email, Group>)
      returns (toAdd: seq<(Email, Group)>, toUpdate: seq<(Member, Group)>, toDelete: seq<Member>)
      requires forall e :: e in current ==> current[e].email == e
      ensures forall i, j :: 0 <= i < j < |toAdd| ==> toAdd[i].0 != toAdd[j].0
      ensures forall i, j :: 0 <= i < j < |toUpdate| ==> toUpdate[i].0.email != toUpdate[j].0.email
      ensures forall i, j :: 0 <= i < j < |toDelete| ==> toDelete[i].email != toDelete[j].email
      ensures forall x :: x in toAdd <==> x.0 in updated && x.0 !in current && x.1 == updated[x.0]
      ensures forall x :: x in toUpdate <==> IsUpdate(current, updated, x)
      ensures forall m :: m in toDelete <==> m.email in current && m.email !in updated && m == current[m.email]
    {
      toAdd, toUpdate, toDelete := [], [], [];
      var emails := InSomeOrder(updated.Keys);
      for i := 0 to |emails|
        invariant forall j, k :: 0 <= j < k < |toAdd| ==> toAdd[j].0 != toAdd[k].0
        invariant forall j, k :: 0 <= j < k < |toUpdate| ==> toUpdate[j].0.email != toUpdate[k].0.email
        invariant forall x ::
          x in toAdd <==> x.0 in emails[..i] && x.0 in updated && x.0 !in current && x.1 == updated[x.0]
        invariant forall x :: x in toUpdate <==> x.0.email in emails[..i] && IsUpdate(current, updated, x)
      {
        var e := emails[i];
        assert emails[..i + 1] == emails[..i] + [e];
        assert e in emails;
        if e in current {
          if current[e].group != updated[e] {
            toUpdate := toUpdate + [(current[e], updated[e])];
          }
        } else {
          toAdd := toAdd + [(e, updated[e])];
        }
      }
      assert emails[..|emails|] == emails;
      emails := InSomeOrder(current.Keys);
      for i := 0 to |emails|
        invariant forall j, k :: 0 <= j < k < |toDelete| ==> toDelete[j].email != toDelete[k].email
        invariant forall m :: m in toDelete <==>
          m.email in emails[..i] && m.email in current && m.email !in updated && m == current[m.email]
      {
        var e := emails[i];
        assert emails[..i + 1] == emails[..i] + [e];
        assert e in emails;
        if e !in updated {
          toDelete := toDelete + [current[e]];
        }
      }
      assert emails[..|emails|] == emails;
    }

    // The three row operations; when the activity log refuses the entry, the transaction is rolled
    // back and the error is only logged.
    method AddMember(b: Id, email: Email, group: Group, logOk: bool)
      requires Valid(db.View()) && b in db.buckets && !HasEntry(db.View(), b, email)
      modifies db
      ensures !logOk ==> db.View() == old(db.View())
      ensures logOk ==> Valid(db.View()) && SameElsewhere(old(db.View()), db.View(), b, {email})
                        && AsWanted(old(db.View()), db.View(), b, email, Some(group))
    {
      var before := Sharing(db.buckets, db.users, db.memberships, db.invites);
      if logOk {
        if u :| u in db.users && db.users[u] == email {
          db.memberships := db.memberships[(u, b) := group];
          Added(before, b, email, group, Some(u));
        } else {
          db.invites := db.invites + {Invite(email, b, group)};
          Added(before, b, email, group, None);
        }
      }
    }

    method UpdateMember(b: Id, m: Member, group: Group, logOk: bool)
      requires Valid(db.View()) && Listed(db.View(), b, m)
      modifies db
      ensures !logOk ==> db.View() == old(db.View())
      ensures logOk ==> Valid(db.View()) && SameElsewhere(old(db.View()), db.View(), b, {m.email})
                        && AsWanted(old(db.View()), db.View(), b, m.email, Some(group))
    {
      var before := Sharing(db.buckets, db.users, db.memberships, db.invites);
      if logOk {
        match m.user {
          case Some(u) =>
            if (u, b) in db.memberships {
              db.memberships := db.memberships[(u, b) := group];
            }
          case None =>
            var matching := set i | i in db.invites && i.bucket == b && i.email == m.email;
            if matching != {} {
              db.invites := db.invites - matching + {Invite(m.email, b, group)};
            }
        }
        assert db.View() == Change(before, b, m, group);
        Changed(before, b, m, group);
      }
    }

    method DeleteMember(b: Id, m: Member, logOk: bool)
      requires Valid(db.View()) && Listed(db.View(), b, m)
      modifies db
      ensures !logOk ==> db.View() == old(db.View())
      ensures logOk ==> Valid(db.View()) && SameElsewhere(old(db.View()), db.View(), b, {m.email})
                        && AsWanted(old(db.View()), db.View(), b, m.email, None)
    {
      var before := Sharing(db.buckets, db.users, db.memberships, db.invites);
      if logOk {
        match m.user {
          case Some(u) => db.memberships := db.memberships - {(u, b)};
          case None => db.invites := set i | i in db.invites && !(i.bucket == b && i.email == m.email);
        }
        assert db.View() == Remove(before, b, m);
        Removed(before, b, m);
      }
    }
  
    // The loop over the members to add; `done` counts the emails dealt with before.
    method AddMembers(b: Id, list: seq<(Email, Group)>, domainAllowed: Email -> bool, logOk: Email -> bool,
                      ghost s0: Sharing, ghost done: set<Email>, ghost want: map<Email, Group>)
      requires Progress(s0, db.View(), b, done, want) && b in s0.buckets
      requires forall i, j :: 0 <= i < j < |list| ==> list[i].0 != list[j].0
      requires forall x :: x in list ==> x.0 !in done && !HasEntry(s0, b, x.0) && WantOf(want, x.0) == Some(x.1)
      modifies db
      ensures Progress(s0, db.View(), b, done + Chosen(set x | x in list :: x.0, domainAllowed, logOk), want)
    {
      hide Progress, Valid, HasEntry, SameElsewhere, AsWanted;
      ghost var changed: set<Email> := {};
      assert done + changed == done;
      for i := 0 to |list|
        invariant changed == Chosen(set x | x in list[..i] :: x.0, domainAllowed, logOk)
        invariant Progress(s0, db.View(), b, done + changed, want)
      {
        var x := list[i];
        assert x in list && list[..i + 1] == list[..i] + [x];
        ProgressFacts(s0, db.View(), b, done + changed, want, x.0);
        ghost var before := db.View();
        if domainAllowed(x.0) {
          AddMember(b, x.0, x.1, logOk(x.0));
          if logOk(x.0) {
            OneMore(s0, before, db.View(), b, done + changed, want, x.0);
            assert done + changed + {x.0} == done + (changed + {x.0});
            changed := changed + {x.0};
          }
        }
      }
      assert list[..|list|] == list;
    }

    method UpdateMembers(b: Id, list: seq<(Member, Group)>, domainAllowed: Email -> bool, logOk: Email -> bool,
                         ghost s0: Sharing, ghost done: set<Email>, ghost want: map<Email, Group>)
      requires Progress(s0, db.View(), b, done, want)
      requires forall i, j :: 0 <= i < j < |list| ==> list[i].0.email != list[j].0.email
      requires forall x :: x in list ==>
        x.0.email !in done && Listed(s0, b, x.0) && WantOf(want, x.0.email) == Some(x.1)
      modifies db
      ensures Progress(s0, db.View(), b, done + Chosen(set x | x in list :: x.0.email, domainAllowed, logOk), want)
    {
      hide Progress, Valid, Listed, SameElsewhere, AsWanted;
      ghost var changed: set<Email> := {};
      assert done + changed == done;
      for i := 0 to |list|
        invariant changed == Chosen(set x | x in list[..i] :: x.0.email, domainAllowed, logOk)
        invariant Progress(s0, db.View(), b, done + changed, want)
      {
        var x := list[i];
        assert x in list && list[..i + 1] == list[..i] + [x];
        ProgressFacts(s0, db.View(), b, done + changed, want, x.0.email);
        ghost var before := db.View();
        if domainAllowed(x.0.email) {
          UpdateMember(b, x.0, x.1, logOk(x.0.email));
          if logOk(x.0.email) {
            OneMore(s0, before, db.View(), b, done + changed, want, x.0.email);
            assert done + changed + {x.0.email} == done + (changed + {x.0.email});
            changed := changed + {x.0.email};
          }
        }
      }
      assert list[..|list|] == list;
    }

    method DeleteMembers(b: Id, list: seq<Member>, domainAllowed: Email -> bool, logOk: Email -> bool,
                         ghost s0: Sharing, ghost done: set<Email>, ghost want: map<Email, Group>)
      requires Progress(s0, db.View(), b, done, want)
      requires forall i, j :: 0 <= i < j < |list| ==> list[i].email != list[j].email
      requires forall m :: m in list ==> m.email !in done && Listed(s0, b, m) && WantOf(want, m.email) == None
      modifies db
      ensures Progress(s0, db.View(), b, done + Chosen(set m | m in list :: m.email, domainAllowed, logOk), want)
    {
      hide Progress, Valid, Listed, SameElsewhere, AsWanted;
      ghost var changed: set<Email> := {};
      assert done + changed == done;
      for i := 0 to |list|
        invariant changed == Chosen(set m | m in list[..i] :: m.email, domainAllowed, logOk)
        invariant Progress(s0, db.View(), b, done + changed, want)
      {
        var m := list[i];
        assert m in list && list[..i + 1] == list[..i] + [m];
        ProgressFacts(s0, db.View(), b, done + changed, want, m.email);
        ghost var before := db.View();
        if domainAllowed(m.email) {
          DeleteMember(b, m, logOk(m.email));
          if logOk(m.email) {
            OneMore(s0, before, db.View(), b, done + changed, want, m.email);
            assert done + changed + {m.email} == done + (changed + {m.email});
            changed := changed + {m.email};
          }
        }
      }
      assert list[..|list|] == list;
    }
  
    method UpdateBucketMembers(caller: Email, provider: Option<bool>, b: Id, body: seq<(Email, Group)>,
                               domainAllowed: Email -> bool, logOk: Email -> bool) returns (reply: Reply)
      requires Valid(db.View())
      modifies db
      ensures reply == if provider.None? then UnknownProvider
                       else if !provider.value then SharingDisabled
                       else if b !in old(db.buckets) then BucketNotFound
                       else Done
      ensures reply != Done ==> db.View() == old(db.View())
      ensures reply == Done ==> Updated(old(db.View()), db.View(), caller, b, body, domainAllowed, logOk)
    {
      if provider.None? {
        return UnknownProvider;
      }
      if !provider.value {
        return SharingDisabled;
      }
      if b !in db.buckets {
        return BucketNotFound;
      }
      hide Valid, Progress, Updated, HasEntry, AsWanted, Chosen, IsUpdate, Asks;
      ghost var s0 := db.View();
      var members := GetBucketMembers(b);
      var current := CurrentMembers(b, caller, members);
      var updated := UpdatedMembers(caller, body, |members| == 0);
      assert |members| == 0 <==> forall m :: !Listed(s0, b, m) by {
        if |members| != 0 {
          assert members[0] in members;
        }
      }
      assert WantOf(updated, caller).Some? ==> |members| == 0;
      var toAdd, toUpdate, toDelete := CompareMemberships(current, updated);
      PlanFits(s0, b, caller, members, current, updated, toAdd, toUpdate, toDelete);
      ghost var touched, done := ApplyChanges(b, toAdd, toUpdate, toDelete, domainAllowed, logOk, s0, updated);
      ProgressMeansUpdated(s0, db.View(), caller, b, body, updated, done, touched, domainAllowed, logOk);
      reply := Done;
    }

    // The three loops.
    method ApplyChanges(b: Id, toAdd: seq<(Email, Group)>, toUpdate: seq<(Member, Group)>, toDelete: seq<Member>,
                        domainAllowed: Email -> bool, logOk: Email -> bool, ghost s0: Sharing,
                        ghost want: map<Email, Group>)
      returns (ghost touched: set<Email>, ghost done: set<Email>)
      requires Valid(s0) && db.View() == s0 && b in s0.buckets
      requires forall i, j :: 0 <= i < j < |toAdd| ==> toAdd[i].0 != toAdd[j].0
      requires forall i, j :: 0 <= i < j < |toUpdate| ==> toUpdate[i].0.email != toUpdate[j].0.email
      requires forall i, j :: 0 <= i < j < |toDelete| ==> toDelete[i].email != toDelete[j].email
      requires forall x :: x in toAdd ==> !HasEntry(s0, b, x.0) && WantOf(want, x.0) == Some(x.1)
      requires forall x :: x in toUpdate ==> Listed(s0, b, x.0) && WantOf(want, x.0.email) == Some(x.1)
      requires forall m :: m in toDelete ==> Listed(s0, b, m) && WantOf(want, m.email) == None
      modifies db
      ensures touched == (set x | x in toAdd :: x.0) + (set x | x in toUpdate :: x.0.email)
              + (set m | m in toDelete :: m.email)
      ensures done == Chosen(touched, domainAllowed, logOk) && Progress(s0, db.View(), b, done, want)
    {
      ghost var add, change, drop :=
        set x | x in toAdd :: x.0, set x | x in toUpdate :: x.0.email, set m | m in toDelete :: m.email;
      forall x | x in toUpdate
        ensures x.0.email !in add
      {
        EntryOf(s0, b, x.0);
      }
      hide Valid, Progress, HasEntry, Listed;
      NothingDone(s0, b, want);
      AddMembers(b, toAdd, domainAllowed, logOk, s0, {}, want);
      done := {} + Chosen(add, domainAllowed, logOk);
      UpdateMembers(b, toUpdate, domainAllowed, logOk, s0, done, want);
      done := done + Chosen(change, domainAllowed, logOk);
      DeleteMembers(b, toDelete, domainAllowed, logOk, s0, done, want);
      done := done + Chosen(drop, domainAllowed, logOk);
      ChosenTogether(add, change, drop, domainAllowed, logOk);
      touched := add + change + drop;
    }

    method CurrentMembers(b: Id, caller: Email, members: seq<Member>) returns (current: map<Email, Member>)
      requires Valid(db.View()) && forall m :: m in members <==> Listed(db.View(), b, m)
      ensures forall e :: e in current ==> e != caller && current[e].email == e && Listed(db.View(), b, current[e])
      ensures forall m :: Listed(db.View(), b, m) && m.email != caller ==> m.email in current && current[m.email] == m
    {
      current := map[];
      for i := 0 to |members|
        invariant forall e :: e in current ==> e != caller && current[e].email == e && current[e] in members[..i]
        invariant forall m :: m in members[..i] && m.email != caller ==> m.email in current && current[m.email] == m
      {
        var m := members[i];
        assert members[..i + 1] == members[..i] + [m];
        assert m in members;
        if m.email != caller {
          if m.email in current {
            assert current[m.email] in members;
            ListedOnce(db.View(), b, m, current[m.email]);
          }
          current := current[m.email := m];
        }
      }
      assert members[..|members|] == members;
    }

    method UpdatedMembers(caller: Email, body: seq<(Email, Group)>, nobody: bool) returns (updated: map<Email, Group>)
      ensures forall e :: if e != caller || nobody then Asks(body, e, WantOf(updated, e))
              else WantOf(updated, e) == None
    {
      updated := map[];
      for i := 0 to |body|
        invariant forall e ::
          if e != caller || nobody then Asks(body[..i], e, WantOf(updated, e)) else WantOf(updated, e) == None
      {
        assert body[..i + 1] == body[..i] + [body[i]];
        ghost var before := updated;
        if body[i].0 != caller || nobody {
          updated := updated[body[i].0 := body[i].1];
        }
        hide Asks;
        forall e
          ensures if e != caller || nobody then Asks(body[..i + 1], e, WantOf(updated, e))
                  else WantOf(updated, e) == None
        {
          if e != caller || nobody {
            AsksOneMore(body[..i], body[i], e, WantOf(before, e));
          } else {
            assert WantOf(before, e) == None;
          }
        }
      }
      assert body[..|body|] == body;
    }
  }

  // The caller's own entry is out of reach, unless the bucket has no entry at all.
  ghost predicate Managed(s: Sharing, b: Id, caller: Email, e: Email) {
    e != caller || forall m :: !Listed(s, b, m)
  }

  // The requested state: the entry of every email that the caller manages and for which a change
  // can go through is the last one in the body; every other entry is unchanged.
  ghost predicate Updated(s0: Sharing, s: Sharing, caller: Email, b: Id, body: seq<(Email, Group)>,
                          domainAllowed: Email -> bool, logOk: Email -> bool) {
    && Valid(s) && s.users == s0.users && s.buckets == s0.buckets
    && (forall e, want :: Managed(s0, b, caller, e) && domainAllowed(e) && logOk(e) && Asks(body, e, want) ==>
          AsWanted(s0, s, b, e, want))
    && (forall c: Id, m: Member ::
          c != b || !Managed(s0, b, caller, m.email) || !domainAllowed(m.email) || !logOk(m.email) ==>
            (Listed(s0, c, m) <==> Listed(s, c, m)))
  }

  ghost predicate IsCurrent(s: Sharing, b: Id, caller: Email, current: map<Email, Member>) {
    && (forall e :: e in current ==> e != caller && current[e].email == e && Listed(s, b, current[e]))
    && (forall m :: Listed(s, b, m) && m.email != caller ==> m.email in current && current[m.email] == m)
  }

  lemma PlanFits(s0: Sharing, b: Id, caller: Email, members: seq<Member>, current: map<Email, Member>,
                 updated: map<Email, Group>,
                 toAdd: seq<(Email, Group)>, toUpdate: seq<(Member, Group)>, toDelete: seq<Member>)
    requires Valid(s0) && IsCurrent(s0, b, caller, current)
    requires caller in updated ==> forall m :: !Listed(s0, b, m)
    requires forall x :: x in toAdd <==> x.0 in updated && x.0 !in current && x.1 == updated[x.0]
    requires forall x :: x in toUpdate <==> IsUpdate(current, updated, x)
    requires forall m :: m in toDelete <==> m.email in current && m.email !in updated && m == current[m.email]
    ensures forall x :: x in toAdd ==> !HasEntry(s0, b, x.0) && WantOf(updated, x.0) == Some(x.1)
    ensures forall x :: x in toUpdate ==> Listed(s0, b, x.0) && WantOf(updated, x.0.email) == Some(x.1)
    ensures forall m :: m in toDelete ==> Listed(s0, b, m) && WantOf(updated, m.email) == None
    ensures var touched := (set x | x in toAdd :: x.0) + (set x | x in toUpdate :: x.0.email)
            + (set m | m in toDelete :: m.email);
            && (forall e :: e in touched ==> Managed(s0, b, caller, e))
            && (forall e :: Managed(s0, b, caller, e) && e !in touched ==> AsWanted(s0, s0, b, e, WantOf(updated, e)))
  {
    assert forall e :: e in updated && e !in current ==> (e, updated[e]) in toAdd;
    assert forall e :: e in updated && e in current && current[e].group != updated[e] ==>
             (current[e], updated[e]) in toUpdate;
    assert forall e :: e in current && e !in updated ==> current[e] in toDelete;
    forall e | Managed(s0, b, caller, e)
               && e !in (set x | x in toAdd :: x.0) + (set x | x in toUpdate :: x.0.email)
                  + (set m | m in toDelete :: m.email)
      ensures AsWanted(s0, s0, b, e, WantOf(updated, e))
    {
      UntouchedIsWanted(s0, b, caller, current, updated, e);
    }
  }

  // The emails for which a change goes through.
  ghost function Chosen(emails: set<Email>, domainAllowed: Email -> bool, logOk: Email -> bool): set<Email> {
    set e | e in emails && domainAllowed(e) && logOk(e)
  }

  lemma ChosenTogether(a: set<Email>, b: set<Email>, c: set<Email>, domainAllowed: Email -> bool, logOk: Email -> bool)
    ensures {} + Chosen(a, domainAllowed, logOk) + Chosen(b, domainAllowed, logOk) + Chosen(c, domainAllowed, logOk)
            == Chosen(a + b + c, domainAllowed, logOk)
  {
  }

  lemma ProgressFacts(s0: Sharing, s: Sharing, b: Id, done: set<Email>, want: map<Email, Group>, e: Email)
    requires Progress(s0, s, b, done, want)
    ensures Valid(s) && s.buckets == s0.buckets
    ensures e !in done ==> (HasEntry(s, b, e) <==> HasEntry(s0, b, e))
    ensures e !in done ==> forall m: Member :: m.email == e ==> (Listed(s, b, m) <==> Listed(s0, b, m))
  {
    if e !in done {
      SameEntry(s0, s, b, done, e);
    }
  }

  // What the plan does not touch is as wanted already.
  lemma UntouchedIsWanted(s0: Sharing, b: Id, caller: Email, current: map<Email, Member>, updated: map<Email, Group>,
                          e: Email)
    requires Valid(s0) && IsCurrent(s0, b, caller, current) && Managed(s0, b, caller, e)
    requires e in updated <==> e in current
    requires e in updated && e in current ==> current[e].group == updated[e]
    ensures AsWanted(s0, s0, b, e, WantOf(updated, e))
  {
    forall m | Listed(s0, b, m) && m.email == e
      ensures WantOf(updated, e) == Some(m.group) && exists g :: Listed(s0, b, m.(group := g))
    {
      assert m.(group := m.group) == m;
    }
  }

  lemma StillWanted(s0: Sharing, s: Sharing, b: Id, done: set<Email>, e: Email, want: Option<Group>)
    requires SameElsewhere(s0, s, b, done) && e !in done && AsWanted(s0, s0, b, e, want)
    ensures AsWanted(s0, s, b, e, want)
  {
    SameEntry(s0, s, b, done, e);
  }

  lemma ProgressMeansUpdated(s0: Sharing, s: Sharing, caller: Email, b: Id, body: seq<(Email, Group)>,
                             updated: map<Email, Group>, done: set<Email>, touched: set<Email>,
                             domainAllowed: Email -> bool, logOk: Email -> bool)
    requires Progress(s0, s, b, done, updated) && done == Chosen(touched, domainAllowed, logOk)
    requires forall e :: e in touched ==> Managed(s0, b, caller, e)
    requires forall e :: Managed(s0, b, caller, e) ==> Asks(body, e, WantOf(updated, e))
    requires forall e :: Managed(s0, b, caller, e) && e !in touched ==> AsWanted(s0, s0, b, e, WantOf(updated, e))
    ensures Updated(s0, s, caller, b, body, domainAllowed, logOk)
  {
    hide Valid, Listed, AsWanted, Managed, WantOf, Asks;
    forall e, want | Managed(s0, b, caller, e) && domainAllowed(e) && logOk(e) && Asks(body, e, want)
      ensures AsWanted(s0, s, b, e, want)
    {
      AsksOnce(body, e, want, WantOf(updated, e));
      if e !in touched {
        StillWanted(s0, s, b, done, e, WantOf(updated, e));
      }
    }
  }

  lemma EntryOf(s: Sharing, b: Id, m: Member)
    requires Listed(s, b, m)
    ensures HasEntry(s, b, m.email)
  {
  }

  lemma NothingDone(s: Sharing, b: Id, want: map<Email, Group>)
    requires Valid(s)
    ensures Progress(s, s, b, {}, want)
  {
  }
}
