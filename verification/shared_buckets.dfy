// Who shares a bucket: the users, memberships and invites that internal/services/bucket_member.go and
// internal/sql/users.go work on.
module SharedBuckets {
  import opened Basics

  type Email = string

  datatype Group = Owner | Contributor | Viewer

  datatype Invite = Invite(email: Email, bucket: Id, group: Group)

  // `memberships` is keyed by user and bucket. Several users may have one email (one for each
  // identity provider).
  datatype Sharing = Sharing(buckets: set<Id>, users: map<Id, Email>, memberships: map<(Id, Id), Group>,
                             invites: set<Invite>)

  // An entry of the listing of a bucket; an invited person has no user yet.
  datatype Member = Member(email: Email, group: Group, user: Option<Id>)

  // ----- the listing

  ghost predicate IsMember(s: Sharing, b: Id, u: Id) {
    (u, b) in s.memberships && u in s.users
  }

  ghost predicate HasMember(s: Sharing, b: Id, email: Email) {
    exists u :: IsMember(s, b, u) && s.users[u] == email
  }

  ghost predicate Listed(s: Sharing, b: Id, m: Member) {
    match m.user
    case Some(u) => IsMember(s, b, u) && s.users[u] == m.email && s.memberships[(u, b)] == m.group
    case None => Invite(m.email, b, m.group) in s.invites && !HasMember(s, b, m.email)
  }

  // One entry for each email, hidden ones included.
  ghost predicate OneEach(s: Sharing, b: Id) {
    && (forall u, v :: IsMember(s, b, u) && IsMember(s, b, v) && s.users[u] == s.users[v] ==> u == v)
    && (forall i, j :: i in s.invites && j in s.invites && i.bucket == b && j.bucket == b && i.email == j.email ==>
          i == j)
    && (forall i :: i in s.invites && i.bucket == b ==> !HasMember(s, b, i.email))
  }

  ghost predicate Valid(s: Sharing) {
    && (forall k :: k in s.memberships ==> k.0 in s.users && k.1 in s.buckets)
    && (forall i :: i in s.invites ==> i.bucket in s.buckets)
    && forall b :: OneEach(s, b)
  }

  ghost predicate HasOwner(s: Sharing, b: Id) {
    exists u :: IsMember(s, b, u) && s.memberships[(u, b)] == Owner
  }

  lemma ListedOnce(s: Sharing, b: Id, m: Member, n: Member)
    requires Valid(s) && Listed(s, b, m) && Listed(s, b, n) && m.email == n.email
    ensures m == n
  {
    assert OneEach(s, b);
  }

  // ----- one row

  // An entry for this email, which no entry had; `user` is any user with the email.
  function Add(s: Sharing, b: Id, email: Email, group: Group, user: Option<Id>): Sharing {
    match user
    case Some(u) => s.(memberships := s.memberships[(u, b) := group])
    case None => s.(invites := s.invites + {Invite(email, b, group)})
  }

  function InvitesOf(s: Sharing, b: Id, email: Email): set<Invite> {
    set i | i in s.invites && i.bucket == b && i.email == email
  }

  function Change(s: Sharing, b: Id, m: Member, group: Group): Sharing {
    match m.user
    case Some(u) => if (u, b) in s.memberships then s.(memberships := s.memberships[(u, b) := group]) else s
    case None =>
      var matching := InvitesOf(s, b, m.email);
      if matching == {} then s else s.(invites := s.invites - matching + {Invite(m.email, b, group)})
  }

  function Remove(s: Sharing, b: Id, m: Member): Sharing {
    match m.user
    case Some(u) => s.(memberships := s.memberships - {(u, b)})
    case None => s.(invites := s.invites - InvitesOf(s, b, m.email))
  }

  ghost predicate HasEntry(s: Sharing, b: Id, email: Email) {
    exists m :: Listed(s, b, m) && m.email == email
  }

  ghost predicate IsUser(s: Sharing, email: Email) {
    exists u :: u in s.users && s.users[u] == email
  }

  // Nothing but the entry of these emails in this bucket differs.
  ghost predicate SameElsewhere(s: Sharing, s': Sharing, b: Id, emails: set<Email>) {
    && s'.users == s.users && s'.buckets == s.buckets
    && forall c: Id, m: Member :: c != b || m.email !in emails ==> (Listed(s, c, m) <==> Listed(s', c, m))
  }

  // The entry of this email is the wanted one: absent, or with the wanted group, and then still the
  // same person's membership or invite if there was one, else a membership exactly if there is a
  // user with that email.
  ghost predicate AsWanted(s0: Sharing, s: Sharing, b: Id, email: Email, want: Option<Group>) {
    && (want.Some? ==> HasEntry(s, b, email))
    && forall m :: Listed(s, b, m) && m.email == email ==>
         && want == Some(m.group)
         && (if HasEntry(s0, b, email) then exists g :: Listed(s0, b, m.(group := g))
             else m.user.Some? <==> IsUser(s0, email))
  }

  lemma Added(s: Sharing, b: Id, email: Email, group: Group, user: Option<Id>)
    requires Valid(s) && b in s.buckets && !HasEntry(s, b, email)
    requires if user.Some? then user.value in s.users && s.users[user.value] == email else !IsUser(s, email)
    ensures var s' := Add(s, b, email, group, user);
            && Valid(s') && SameElsewhere(s, s', b, {email})
            && Listed(s', b, Member(email, group, user)) && AsWanted(s, s', b, email, Some(group))
  {
    var s' := Add(s, b, email, group, user);
    RowsHaveEntries(s, b, email);
    assert Listed(s', b, Member(email, group, user));
    forall c, x
      ensures HasMember(s', c, x) <==> HasMember(s, c, x) || (user.Some? && c == b && x == email)
    {
      if HasMember(s, c, x) {
        var u :| IsMember(s, c, u) && s.users[u] == x;
        assert IsMember(s', c, u);
      }
      if user.Some? {
        assert IsMember(s', b, user.value);
      }
    }
    forall c
      ensures OneEach(s', c)
    {
      assert OneEach(s, c);
    }
  }

  // Every row shows as an entry.
  lemma RowsHaveEntries(s: Sharing, b: Id, email: Email)
    requires Valid(s)
    ensures HasMember(s, b, email) ==> HasEntry(s, b, email)
    ensures forall i :: i in s.invites && i.bucket == b && i.email == email ==> HasEntry(s, b, email)
  {
    if HasMember(s, b, email) {
      var u :| IsMember(s, b, u) && s.users[u] == email;
      assert Listed(s, b, Member(email, s.memberships[(u, b)], Some(u)));
    } else if i :| i in s.invites && i.bucket == b && i.email == email {
      assert Listed(s, b, Member(email, i.group, None));
    }
  }

  lemma Changed(s: Sharing, b: Id, m: Member, group: Group)
    requires Valid(s) && Listed(s, b, m)
    ensures var s' := Change(s, b, m, group);
            && Valid(s') && SameElsewhere(s, s', b, {m.email})
            && Listed(s', b, m.(group := group)) && AsWanted(s, s', b, m.email, Some(group))
  {
    var s' := Change(s, b, m, group);
    if m.user.Some? {
      MembershipChanged(s, b, m, group);
    } else {
      InviteChanged(s, b, m, group);
    }
    OneEntryAsWanted(s, s', b, m, group);
  }

  lemma MembershipChanged(s: Sharing, b: Id, m: Member, group: Group)
    requires Valid(s) && Listed(s, b, m) && m.user.Some?
    ensures var s' := Change(s, b, m, group);
            Valid(s') && SameElsewhere(s, s', b, {m.email}) && Listed(s', b, m.(group := group))
  {
    var s' := Change(s, b, m, group);
    SameMembers(s, s', m);
    forall c
      ensures OneEach(s', c)
    {
      assert OneEach(s, c);
    }
  }

  lemma InviteChanged(s: Sharing, b: Id, m: Member, group: Group)
    requires Valid(s) && Listed(s, b, m) && m.user.None?
    ensures var s' := Change(s, b, m, group);
            Valid(s') && SameElsewhere(s, s', b, {m.email}) && Listed(s', b, m.(group := group))
  {
    var s' := Change(s, b, m, group);
    assert Invite(m.email, b, m.group) in InvitesOf(s, b, m.email);
    SameMembers(s, s', m);
    hide HasMember;
    forall c
      ensures OneEach(s', c)
    {
      assert OneEach(s, c);
    }
  }

  lemma OneEntryAsWanted(s: Sharing, s': Sharing, b: Id, m: Member, group: Group)
    requires Valid(s') && Listed(s, b, m) && Listed(s', b, m.(group := group))
    ensures AsWanted(s, s', b, m.email, Some(group))
  {
    hide Valid, Listed;
    forall n | Listed(s', b, n) && n.email == m.email
      ensures n == m.(group := group)
    {
      ListedOnce(s', b, n, m.(group := group));
    }
    assert m.(group := group).(group := m.group) == m;
  }

  // The same people are members.
  lemma SameMembers(s: Sharing, s': Sharing, m: Member)
    requires s'.users == s.users && s'.memberships.Keys == s.memberships.Keys
    ensures forall c, x :: HasMember(s', c, x) <==> HasMember(s, c, x)
  {
    forall c, x
      ensures HasMember(s', c, x) <==> HasMember(s, c, x)
    {
      if HasMember(s, c, x) {
        var u :| IsMember(s, c, u) && s.users[u] == x;
        assert IsMember(s', c, u);
      }
      if HasMember(s', c, x) {
        var u :| IsMember(s', c, u) && s'.users[u] == x;
        assert IsMember(s, c, u);
      }
    }
  }

  lemma Removed(s: Sharing, b: Id, m: Member)
    requires Valid(s) && Listed(s, b, m)
    ensures var s' := Remove(s, b, m);
            Valid(s') && SameElsewhere(s, s', b, {m.email}) && AsWanted(s, s', b, m.email, None)
  {
    var s' := Remove(s, b, m);
    assert OneEach(s, b);
    forall c, x
      ensures HasMember(s', c, x) <==> HasMember(s, c, x) && !(c == b && x == m.email)
    {
      if HasMember(s, c, x) && !(c == b && x == m.email) {
        var u :| IsMember(s, c, u) && s.users[u] == x;
        assert IsMember(s', c, u);
      }
      if HasMember(s', c, x) {
        var u :| IsMember(s', c, u) && s.users[u] == x;
        assert IsMember(s, c, u);
      }
    }
    forall c
      ensures OneEach(s', c)
    {
      assert OneEach(s, c);
    }
  }

  // ----- the database

  class SharingDatabase {
    var buckets: set<Id>
    var users: map<Id, Email>
    var memberships: map<(Id, Id), Group>
    var invites: set<Invite>

    ghost function View(): Sharing
      reads this
    {
      Sharing(buckets, users, memberships, invites)
    }
  }

  // SELECT without ORDER BY: the rows in some order.
  method InSomeOrder<T(==)>(rows: set<T>) returns (list: seq<T>)
    ensures forall r :: r in list <==> r in rows
    ensures NoRepeats(list)
  {
    list := [];
    var left := rows;
    while left != {}
      invariant forall r :: r in list <==> r in rows && r !in left
      invariant left <= rows && NoRepeats(list)
      decreases left
    {
      var r :| r in left;
      list := list + [r];
      left := left - {r};
    }
  }
}
