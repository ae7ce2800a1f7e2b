// internal/services/bucket.go (CreateBucket), internal/sql/users.go, and whole runs of the operations that
// share buckets.
module SharingRuns {
  import opened Basics
  import opened SharedBuckets
  import opened BucketMember

  // ----- CreateBucket

  ghost predicate Opened(s: Sharing, s': Sharing, b: Id, creator: Id) {
    && creator in s.users && b !in s.buckets
    && s' == s.(buckets := s.buckets + {b}, memberships := s.memberships[(creator, b) := Owner])
  }

  method CreateBucket(db: SharingDatabase, b: Id, creator: Id, logOk: bool) returns (ok: bool)
    requires Valid(db.View()) && creator in db.users && b !in db.buckets
    modifies db
    ensures ok == logOk
    ensures if ok then Opened(old(db.View()), db.View(), b, creator) else db.View() == old(db.View())
  {
    if !logOk {
      return false;
    }
    db.buckets := db.buckets + {b};
    db.memberships := db.memberships[(creator, b) := Owner];
    ok := true;
  }

  lemma OpenedKeeps(s: Sharing, s': Sharing, b: Id, creator: Id)
    requires Valid(s) && Opened(s, s', b, creator)
    ensures Valid(s') && HasOwner(s', b)
    ensures forall m: Member :: Listed(s', b, m) <==> m == Member(s.users[creator], Owner, Some(creator))
    ensures forall c: Id, m: Member :: c != b ==> (Listed(s, c, m) <==> Listed(s', c, m))
  {
    forall c, x
      ensures HasMember(s', c, x) <==> HasMember(s, c, x) || (c == b && x == s.users[creator])
    {
      if HasMember(s, c, x) {
        var u :| IsMember(s, c, u) && s.users[u] == x;
        assert IsMember(s', c, u);
      }
      assert IsMember(s', b, creator);
      if HasMember(s', c, x) {
        var u :| IsMember(s', c, u) && s'.users[u] == x;
        assert IsMember(s, c, u) || (c == b && u == creator);
      }
    }
    forall c
      ensures OneEach(s', c)
    {
      assert OneEach(s, c);
    }
  }

  // ----- CreateUserWithInvites

  ghost predicate HasGroup(s: Sharing, b: Id, email: Email, group: Group) {
    exists m :: Listed(s, b, m) && m.email == email && m.group == group
  }

  // These invites have become memberships of the new user.
  ghost predicate Converted(s0: Sharing, s: Sharing, u: Id, email: Email, invites: set<Invite>) {
    && s.buckets == s0.buckets && s.users == s0.users[u := email] && s.invites == s0.invites - invites
    && (forall k :: k in s.memberships <==> k in s0.memberships || exists i :: i in invites && k == (u, i.bucket))
    && (forall k :: k in s0.memberships && k in s.memberships ==> s.memberships[k] == s0.memberships[k])
    && (forall i :: i in invites && (u, i.bucket) in s.memberships ==> s.memberships[(u, i.bucket)] == i.group)
  }

  // The new user has every membership that was promised to the email: the listing of every bucket
  // shows the same groups as before, and no invite for the email is left.
  ghost predicate Joined(s: Sharing, s': Sharing, u: Id, email: Email) {
    && Valid(s') && s'.buckets == s.buckets && s'.users == s.users[u := email]
    && (forall b, e, g :: HasGroup(s', b, e, g) <==> HasGroup(s, b, e, g))
    && (forall i :: i in s'.invites <==> i in s.invites && i.email != email)
    && (forall k :: k in s.memberships ==> k in s'.memberships && s'.memberships[k] == s.memberships[k])
  }

  method CreateUserWithInvites(db: SharingDatabase, u: Id, email: Email)
    requires Valid(db.View()) && u !in db.users
    modifies db
    ensures Joined(old(db.View()), db.View(), u, email)
  {
    hide Valid, Joined;
    ghost var s0 := db.View();
    db.users := db.users[u := email];
    var invites := InSomeOrder(set i | i in db.invites && i.email == email);
    for k := 0 to |invites|
      invariant Converted(s0, db.View(), u, email, SetOf(invites[..k]))
    {
      assert invites[..k + 1] == invites[..k] + [invites[k]];
      assert invites[k] in invites && forall i :: i in invites[..k] ==> i in invites;
      OneMoreConverted(s0, db.View(), u, email, SetOf(invites[..k]), invites[k]);
      db.memberships := db.memberships[(u, invites[k].bucket) := invites[k].group];
      db.invites := db.invites - {invites[k]};
      hide Converted;
      assert SetOf(invites[..k + 1]) == SetOf(invites[..k]) + {invites[k]};
    }
    assert invites[..|invites|] == invites;
    ConvertedIsJoined(s0, db.View(), u, email, SetOf(invites));
  }

  // The unique index on user and bucket does not stop the conversion.
  lemma OneMoreConverted(s0: Sharing, s: Sharing, u: Id, email: Email, invites: set<Invite>, next: Invite)
    requires Valid(s0) && u !in s0.users && Converted(s0, s, u, email, invites)
    requires next in s0.invites && next !in invites && next.email == email
    requires forall i :: i in invites ==> i in s0.invites && i.email == email
    ensures (u, next.bucket) !in s.memberships
    ensures Converted(s0, s.(memberships := s.memberships[(u, next.bucket) := next.group],
                             invites := s.invites - {next}), u, email, invites + {next})
  {
    assert OneEach(s0, next.bucket);
  }

  lemma ConvertedIsJoined(s0: Sharing, s: Sharing, u: Id, email: Email, invites: set<Invite>)
    requires Valid(s0) && u !in s0.users && Converted(s0, s, u, email, invites)
    requires forall i :: i in invites <==> i in s0.invites && i.email == email
    ensures Joined(s0, s, u, email)
  {
    forall b
      ensures OneEach(s, b)
    {
      ConvertedMembers(s0, s, u, email, invites, b);
      assert OneEach(s0, b);
    }
    forall b, e, g
      ensures HasGroup(s, b, e, g) <==> HasGroup(s0, b, e, g)
    {
      SameGroup(s0, s, u, email, invites, b, e, g);
    }
  }

  // The members of a bucket are those from before and, if it had been promised, the new user.
  lemma ConvertedMembers(s0: Sharing, s: Sharing, u: Id, email: Email, invites: set<Invite>, b: Id)
    requires Valid(s0) && u !in s0.users && Converted(s0, s, u, email, invites)
    ensures forall v :: IsMember(s, b, v) <==>
              IsMember(s0, b, v) || (v == u && exists i :: i in invites && i.bucket == b)
    ensures forall e :: HasMember(s, b, e) <==>
              HasMember(s0, b, e) || (e == email && exists i :: i in invites && i.bucket == b)
  {
    forall v
      ensures IsMember(s, b, v) <==> IsMember(s0, b, v) || (v == u && exists i :: i in invites && i.bucket == b)
    {
      assert (v, b) in s.memberships <==>
             (v, b) in s0.memberships || exists i :: i in invites && (v, b) == (u, i.bucket);
    }
    forall e
      ensures HasMember(s, b, e) <==> HasMember(s0, b, e) || (e == email && exists i :: i in invites && i.bucket == b)
    {
      if HasMember(s0, b, e) {
        var v :| IsMember(s0, b, v) && s0.users[v] == e;
        assert IsMember(s, b, v);
      }
      if e == email && exists i :: i in invites && i.bucket == b {
        assert IsMember(s, b, u);
      }
    }
  }

  lemma SameGroup(s0: Sharing, s: Sharing, u: Id, email: Email, invites: set<Invite>, b: Id, e: Email, g: Group)
    requires Valid(s0) && u !in s0.users && Converted(s0, s, u, email, invites)
    requires forall i :: i in invites <==> i in s0.invites && i.email == email
    ensures HasGroup(s, b, e, g) <==> HasGroup(s0, b, e, g)
  {
    if HasGroup(s0, b, e, g) {
      var m :| Listed(s0, b, m) && m.email == e && m.group == g;
      if m.user.None? && e == email {
        InviteBecomesMembership(s0, s, u, email, invites, b, g);
        assert Listed(s, b, Member(e, g, Some(u)));
      } else {
        OtherEntries(s0, s, u, email, invites, b, m);
      }
    }
    if HasGroup(s, b, e, g) {
      var m :| Listed(s, b, m) && m.email == e && m.group == g;
      if m.user == Some(u) {
        MembershipWasInvite(s0, s, u, email, invites, b, m);
        assert Listed(s0, b, Member(e, g, None));
      } else {
        OtherEntries(s0, s, u, email, invites, b, m);
      }
    }
  }

  lemma InviteBecomesMembership(s0: Sharing, s: Sharing, u: Id, email: Email, invites: set<Invite>, b: Id, g: Group)
    requires u !in s0.users && Converted(s0, s, u, email, invites) && Invite(email, b, g) in invites
    ensures Listed(s, b, Member(email, g, Some(u)))
  {
  }

  lemma MembershipWasInvite(s0: Sharing, s: Sharing, u: Id, email: Email, invites: set<Invite>, b: Id, m: Member)
    requires Valid(s0) && u !in s0.users && Converted(s0, s, u, email, invites)
    requires forall i :: i in invites <==> i in s0.invites && i.email == email
    requires Listed(s, b, m) && m.user == Some(u)
    ensures Listed(s0, b, Member(m.email, m.group, None))
  {
    assert OneEach(s0, b);
    assert (u, b) !in s0.memberships;
    var i :| i in invites && (u, b) == (u, i.bucket);
    assert i == Invite(email, b, m.group);
  }

  // The entries of others are untouched.
  lemma OtherEntries(s0: Sharing, s: Sharing, u: Id, email: Email, invites: set<Invite>, b: Id, m: Member)
    requires Valid(s0) && u !in s0.users && Converted(s0, s, u, email, invites)
    requires forall i :: i in invites <==> i in s0.invites && i.email == email
    requires m.user != Some(u) && (m.user.None? ==> m.email != email || Listed(s, b, m))
    ensures Listed(s0, b, m) <==> Listed(s, b, m)
  {
    ConvertedMembers(s0, s, u, email, invites, b);
    hide HasMember;
  }

  // ----- runs

  datatype Step =
    | OpenBucket(bucket: Id, creator: Id)
    | Share(caller: Id, bucket: Id, body: seq<(Email, Group)>, domainAllowed: Email -> bool, logOk: Email -> bool)
    | SignUp(user: Id, email: Email)

  // Only an owner of the bucket gets to UpdateBucketMembers.
  ghost predicate Next(s: Sharing, step: Step, s': Sharing) {
    match step
    case OpenBucket(b, creator) => Opened(s, s', b, creator)
    case Share(u, b, body, domainAllowed, logOk) =>
      IsMember(s, b, u) && s.memberships[(u, b)] == Owner && Updated(s, s', s.users[u], b, body, domainAllowed, logOk)
    case SignUp(u, email) => u !in s.users && Joined(s, s', u, email)
  }

  ghost predicate AllOwned(s: Sharing) {
    forall b :: b in s.buckets ==> HasOwner(s, b)
  }

  // Where the owner is still listed, the bucket still has an owner.
  lemma OwnerStays(s: Sharing, s': Sharing, b: Id, u: Id)
    requires IsMember(s, b, u) && s.memberships[(u, b)] == Owner
    requires forall m: Member :: m.user == Some(u) ==> (Listed(s, b, m) <==> Listed(s', b, m))
    ensures HasOwner(s', b)
  {
    var m := Member(s.users[u], Owner, Some(u));
    assert Listed(s, b, m) && Listed(s', b, m);
  }

  lemma StepKeepsOwners(s: Sharing, step: Step, s': Sharing)
    requires Valid(s) && AllOwned(s) && Next(s, step, s')
    ensures Valid(s') && AllOwned(s')
  {
    match step
    case OpenBucket(b, creator) =>
      OpenedKeeps(s, s', b, creator);
      forall c | c in s'.buckets && c != b
        ensures HasOwner(s', c)
      {
        var u :| IsMember(s, c, u) && s.memberships[(u, c)] == Owner;
        OwnerStays(s, s', c, u);
      }
    case Share(caller, b, body, domainAllowed, logOk) =>
      forall c | c in s'.buckets
        ensures HasOwner(s', c)
      {
        assert Listed(s, b, Member(s.users[caller], Owner, Some(caller)));
        assert !Managed(s, b, s.users[caller], s.users[caller]);
        if c == b {
          assert Listed(s', b, Member(s.users[caller], Owner, Some(caller)));
        } else {
          var u :| IsMember(s, c, u) && s.memberships[(u, c)] == Owner;
          OwnerStays(s, s', c, u);
        }
      }
    case SignUp(u, email) =>
      forall c | c in s'.buckets
        ensures HasOwner(s', c)
      {
        var v :| IsMember(s, c, v) && s.memberships[(v, c)] == Owner;
        assert IsMember(s', c, v);
      }
  }

  // Over every serial run of CreateBucket, UpdateBucketMembers by owners and CreateUserWithInvites,
  // every bucket has an owner and at most one entry for each email.
  lemma {:induction false} EveryBucketKeepsAnOwner(states: seq<Sharing>, steps: seq<Step>)
    requires |states| == |steps| + 1 && Valid(states[0]) && AllOwned(states[0])
    requires forall i :: 0 <= i < |steps| ==> Next(states[i], steps[i], states[i + 1])
    ensures forall i :: 0 <= i < |states| ==> Valid(states[i]) && AllOwned(states[i])
    ensures forall i, b, m, n ::
              0 <= i < |states| && Listed(states[i], b, m) && Listed(states[i], b, n) && m.email == n.email ==> m == n
    decreases |steps|
  {
    if steps != [] {
      hide Next, AllOwned, Valid, Listed;
      var k := |steps| - 1;
      EveryBucketKeepsAnOwner(states[..k + 1], steps[..k]);
      assert states[..k + 1][k] == states[k];
      StepKeepsOwners(states[k], steps[k], states[k + 1]);
    }
    hide Next, AllOwned, Valid, Listed;
    forall i, b, m, n | 0 <= i < |states| && Listed(states[i], b, m) && Listed(states[i], b, n) && m.email == n.email
      ensures m == n
    {
      ListedOnce(states[i], b, m, n);
    }
  }
}
