// How the storage back ends merge the two rules of the application into the lifecycle rules that a
// bucket has already.
module Lifecycle {
  import opened Basics

  const TRASH_ID := "safebucket-trash-retention"
  const MULTIPART_ID := "safebucket-abort-incomplete-multipart"
  const TRASH_PREFIX := "trash/"
  const MAX_DAYS := 0x7fff_ffff

  // The parts of a rule that the code reads; `rest` stands for everything else in it.
  datatype Rule = Rule(id: Option<string>, enabled: bool, prefix: Option<string>, days: Option<int>,
                       abortDays: Option<int>, rest: nat)

  function TrashRule(retention: int): Rule {
    Rule(Some(TRASH_ID), true, Some(TRASH_PREFIX), Some(retention), None, 0)
  }

  // The rule expires what is under the trash prefix after this many days.
  predicate Expires(r: Rule, retention: int) {
    r.enabled && r.prefix == Some(TRASH_PREFIX) && r.days == Some(retention)
  }

  function Filter<T>(rules: seq<T>, keep: T -> bool): seq<T> {
    if rules == [] then []
    else Filter(rules[..|rules| - 1], keep) + if keep(rules[|rules| - 1]) then [rules[|rules| - 1]] else []
  }

  lemma {:induction false} FilterOfSum<T>(a: seq<T>, b: seq<T>, keep: T -> bool)
    ensures Filter(a + b, keep) == Filter(a, keep) + Filter(b, keep)
    decreases |b|
  {
    if b == [] {
      assert a + b == a;
    } else {
      assert (a + b)[..|a + b| - 1] == a + b[..|b| - 1];
      FilterOfSum(a, b[..|b| - 1], keep);
    }
  }

  lemma FilterOne<T>(r: T, keep: T -> bool)
    ensures Filter([r], keep) == if keep(r) then [r] else []
  {
    assert [r][..0] == [];
  }

  lemma {:induction false} InFilter<T>(rules: seq<T>, keep: T -> bool)
    ensures forall r :: r in Filter(rules, keep) <==> r in rules && keep(r)
    decreases |rules|
  {
    if rules != [] {
      var last := |rules| - 1;
      InFilter(rules[..last], keep);
      assert rules == rules[..last] + [rules[last]];
    }
  }

  // A rule that the application does not manage.
  predicate Foreign(r: Rule) {
    r.id != Some(TRASH_ID) && r.id != Some(MULTIPART_ID)
  }
}

// The trash rules apply to the markers and to nothing else.
module LifecycleCover {
  import opened Lifecycle
  import opened Strings
  import TrashMarker

  lemma RulesCoverMarkers(bucket: string, id: string, kind: TrashMarker.Kind, retention: int)
    requires TrashMarker.Plain(bucket) && TrashMarker.Plain(id)
    ensures var key := TrashMarker.ObjectPath(bucket, id);
            && TrashRule(retention).prefix.value <= TrashMarker.MarkerPath(key, kind)
            && !(TrashRule(retention).prefix.value <= key)
  {
    hide TrashMarker.MarkerPath, TrashMarker.ObjectPath, JoinParts;
    TrashMarker.MarkerPathIs(bucket, id, kind);
    TrashMarker.ObjectPathIs(bucket, id);
    var rest := [bucket, TrashMarker.KindPath(kind), id];
    TrashMarker.JoinedPrefix("trash", rest);
    assert ["trash"] + rest == ["trash", bucket, TrashMarker.KindPath(kind), id];
    TrashMarker.JoinedPrefix("buckets", [bucket, id]);
    assert ["buckets"] + [bucket, id] == ["buckets", bucket, id];
    assert TrashMarker.ObjectPath(bucket, id)[0] == 'b';
  }
}

// internal/storage/aws.go
module AwsLifecycle {
  import opened Basics
  import opened Lifecycle

  const MULTIPART_RULE := Rule(Some(MULTIPART_ID), true, Some(""), None, Some(1), 0)

  function MergedRule(r: Rule, retention: int): Rule {
    if r.id == Some(TRASH_ID) then TrashRule(retention)
    else if r.id == Some(MULTIPART_ID) && r.abortDays != Some(1) then MULTIPART_RULE
    else r
  }

  function MergedRules(rules: seq<Rule>, retention: int): seq<Rule> {
    if rules == [] then []
    else MergedRules(rules[..|rules| - 1], retention) + [MergedRule(rules[|rules| - 1], retention)]
  }

  predicate Has(rules: seq<Rule>, id: string) {
    exists r :: r in rules && r.id == Some(id)
  }

  // The rules that are written back; `existing` is None when they could not be read.
  function Ensured(existing: Option<seq<Rule>>, retention: int): seq<Rule> {
    if existing.None? then [TrashRule(retention), MULTIPART_RULE]
    else
      MergedRules(existing.value, retention)
      + (if Has(existing.value, TRASH_ID) then [] else [TrashRule(retention)])
      + (if Has(existing.value, MULTIPART_ID) then [] else [MULTIPART_RULE])
  }

  lemma OneMoreRule(all: seq<Rule>, i: nat, retention: int)
    requires i < |all|
    ensures MergedRules(all[..i + 1], retention) == MergedRules(all[..i], retention) + [MergedRule(all[i], retention)]
    ensures forall id :: Has(all[..i + 1], id) <==> Has(all[..i], id) || all[i].id == Some(id)
  {
    assert all[..i + 1][..i] == all[..i] && all[..i + 1] == all[..i] + [all[i]];
  }

  method ProcessExistingLifecycleRules(existing: Option<seq<Rule>>, retention: int)
    returns (rules: seq<Rule>, trashRuleFound: bool, multipartRuleFound: bool)
    ensures rules == if existing.None? then [TrashRule(retention), MULTIPART_RULE]
            else MergedRules(existing.value, retention)
    ensures trashRuleFound <==> existing.None? || Has(existing.value, TRASH_ID)
    ensures multipartRuleFound <==> existing.None? || Has(existing.value, MULTIPART_ID)
  {
    if existing.None? {
      return [TrashRule(retention), MULTIPART_RULE], true, true;
    }
    rules, trashRuleFound, multipartRuleFound := [], false, false;
    var all := existing.value;
    assert MergedRules([], retention) == [] && !Has([], TRASH_ID) && !Has([], MULTIPART_ID);
    hide MergedRules, Has;
    for i := 0 to |all|
      invariant rules == MergedRules(all[..i], retention)
      invariant trashRuleFound <==> Has(all[..i], TRASH_ID)
      invariant multipartRuleFound <==> Has(all[..i], MULTIPART_ID)
    {
      var rule := all[i];
      OneMoreRule(all, i, retention);
      if rule.id.None? {
        rules := rules + [rule];
      } else if rule.id.value == TRASH_ID {
        trashRuleFound := true;
        rules := rules + [TrashRule(retention)];
      } else if rule.id.value == MULTIPART_ID {
        multipartRuleFound := true;
        if rule.abortDays == Some(1) {
          rules := rules + [rule];
        } else {
          rules := rules + [MULTIPART_RULE];
        }
      } else {
        rules := rules + [rule];
      }
    }
    assert all[..|all|] == all;
  }

  method EnsureTrashLifecyclePolicy(existing: Option<seq<Rule>>, retention: int) returns (written: Option<seq<Rule>>)
    ensures written == if 0 <= retention <= MAX_DAYS then Some(Ensured(existing, retention)) else None
  {
    if retention < 0 || retention > MAX_DAYS {
      return None;
    }
    var rules, trashRuleFound, multipartRuleFound := ProcessExistingLifecycleRules(existing, retention);
    if !trashRuleFound {
      rules := rules + [TrashRule(retention)];
    }
    if !multipartRuleFound {
      rules := rules + [MULTIPART_RULE];
    }
    assert rules == Ensured(existing, retention);
    written := Some(rules);
  }

  lemma {:induction false} MergedFacts(rules: seq<Rule>, retention: int, later: int)
    ensures MergedRules(MergedRules(rules, retention), later) == MergedRules(rules, later)
    ensures Filter(MergedRules(rules, retention), Foreign) == Filter(rules, Foreign)
    ensures forall id :: Has(MergedRules(rules, retention), id) <==> Has(rules, id)
    ensures forall r :: r in MergedRules(rules, retention) && r.id == Some(TRASH_ID) ==> r == TrashRule(retention)
    decreases |rules|
  {
    if rules != [] {
      var init, last := rules[..|rules| - 1], rules[|rules| - 1];
      MergedFacts(init, retention, later);
      assert rules == init + [last];
      var merged := MergedRules(init, retention);
      assert (merged + [MergedRule(last, retention)])[..|merged|] == merged;
      forall id
        ensures Has(MergedRules(rules, retention), id) <==> Has(rules, id)
      {
        assert Has(merged, id) <==> Has(init, id);
        assert MergedRule(last, retention).id == last.id;
        assert last in rules && MergedRule(last, retention) in MergedRules(rules, retention);
      }
    }
  }

  lemma {:induction false} MergedSum(a: seq<Rule>, b: seq<Rule>, retention: int)
    ensures MergedRules(a + b, retention) == MergedRules(a, retention) + MergedRules(b, retention)
    decreases |b|
  {
    if b == [] {
      assert a + b == a;
    } else {
      assert (a + b)[..|a + b| - 1] == a + b[..|b| - 1];
      MergedSum(a, b[..|b| - 1], retention);
    }
  }

  // The rules that are appended.
  function Missing(rules: seq<Rule>, retention: int): seq<Rule> {
    (if Has(rules, TRASH_ID) then [] else [TrashRule(retention)])
    + (if Has(rules, MULTIPART_ID) then [] else [MULTIPART_RULE])
  }

  lemma EnsuredParts(rules: seq<Rule>, retention: int)
    ensures Ensured(Some(rules), retention) == MergedRules(rules, retention) + Missing(rules, retention)
    ensures Has(Ensured(Some(rules), retention), TRASH_ID) && Has(Ensured(Some(rules), retention), MULTIPART_ID)
  {
    MergedFacts(rules, retention, retention);
    var all := Ensured(Some(rules), retention);
    assert all == MergedRules(rules, retention) + Missing(rules, retention);
    if !Has(rules, TRASH_ID) {
      assert TrashRule(retention) in all;
    } else {
      assert Has(MergedRules(rules, retention), TRASH_ID);
    }
    if !Has(rules, MULTIPART_ID) {
      assert MULTIPART_RULE in all;
    } else {
      assert Has(MergedRules(rules, retention), MULTIPART_ID);
    }
  }

  lemma MissingMerged(rules: seq<Rule>, retention: int, later: int)
    ensures MergedRules(Missing(rules, retention), later) == Missing(rules, later)
    ensures Filter(Missing(rules, retention), Foreign) == []
  {
    var t, m := TrashRule(retention), MULTIPART_RULE;
    assert MergedRules([t], later) == [TrashRule(later)] && MergedRules([m], later) == [m];
    assert [t] + [m] == [t, m];
    MergedSum([t], [m], later);
    FilterOne(t, Foreign);
    FilterOne(m, Foreign);
    FilterOfSum([t], [m], Foreign);
    assert [] + Missing(rules, later) == Missing(rules, later);
  }

  // Only the last retention counts, so doing it twice is doing it once; the rules of others survive
  // in their order; and every trash rule, of which there is one, has the requested retention.
  lemma MergeIsConservative(rules: seq<Rule>, retention: int, later: int)
    ensures var once := Ensured(Some(rules), retention);
            && Ensured(Some(once), later) == Ensured(Some(rules), later)
            && Filter(once, Foreign) == Filter(rules, Foreign)
            && (exists r :: r in once && r.id == Some(TRASH_ID))
            && forall r :: r in once && r.id == Some(TRASH_ID) ==> Expires(r, retention)
  {
    TrashRuleExpires(retention);
    hide *;
    var once := Ensured(Some(rules), retention);
    var merged, missing := MergedRules(rules, retention), Missing(rules, retention);
    EnsuredParts(rules, retention);
    EnsuredParts(rules, later);
    EnsuredParts(once, later);
    MergedFacts(rules, retention, later);
    MissingMerged(rules, retention, later);
    MergedSum(merged, missing, later);
    FilterOfSum(merged, missing, Foreign);
    assert Filter(merged, Foreign) + [] == Filter(merged, Foreign);
    NothingMissing(once, later);
    var again := MergedRules(once, later);
    assert again + [] == again;
    TrashRules(rules, retention);
  }

  lemma TrashRuleExpires(retention: int)
    ensures Expires(TrashRule(retention), retention) && TrashRule(retention).id == Some(TRASH_ID)
  {
  }

  // What becomes of one rule: a trash rule is written anew, so is a multipart rule that does not abort
  // uploads after one day, and any other is left as it is.
  predicate Rewritten(r: Rule, r': Rule, retention: int) {
    && r'.id == r.id
    && if r.id == Some(TRASH_ID) then Expires(r', retention)
       else if r.id == Some(MULTIPART_ID) && r.abortDays != Some(1) then AbortsAll(r')
       else r' == r
  }

  predicate AbortsAll(r: Rule) {
    r.enabled && r.prefix == Some("") && r.days == None && r.abortDays == Some(1)
  }

  // Rule by rule, and what is missing at the end, one of each kind.
  lemma RuleByRule(rules: seq<Rule>, retention: int)
    ensures var once := Ensured(Some(rules), retention);
            && |once| >= |rules| && (forall i :: 0 <= i < |rules| ==> Rewritten(rules[i], once[i], retention))
            && (forall i :: |rules| <= i < |once| ==>
                  if once[i].id == Some(TRASH_ID) then Expires(once[i], retention) && !Has(rules, TRASH_ID)
                  else once[i].id == Some(MULTIPART_ID) && AbortsAll(once[i]) && !Has(rules, MULTIPART_ID))
            && Has(once, TRASH_ID) && Has(once, MULTIPART_ID)
            && forall i, j :: |rules| <= i < j < |once| ==> once[i].id != once[j].id
  {
    EnsuredParts(rules, retention);
    MergedByIndex(rules, retention);
    var merged, missing := MergedRules(rules, retention), Missing(rules, retention);
    var once := Ensured(Some(rules), retention);
    assert once == merged + missing;
    hide MergedRules, Ensured;
    forall i | |rules| <= i < |once|
      ensures once[i] == missing[i - |rules|]
    {
    }
  }

  lemma {:induction false} MergedByIndex(rules: seq<Rule>, retention: int)
    ensures |MergedRules(rules, retention)| == |rules|
    ensures forall i :: 0 <= i < |rules| ==> Rewritten(rules[i], MergedRules(rules, retention)[i], retention)
    decreases |rules|
  {
    if rules != [] {
      MergedByIndex(rules[..|rules| - 1], retention);
    }
  }

  // When the rules could not be read, only these two are written.
  lemma NothingRead(retention: int)
    ensures var once := Ensured(None, retention);
            && |once| == 2 && once[0].id == Some(TRASH_ID) && Expires(once[0], retention)
            && once[1].id == Some(MULTIPART_ID) && AbortsAll(once[1])
  {
  }

  lemma NothingMissing(rules: seq<Rule>, retention: int)
    requires Has(rules, TRASH_ID) && Has(rules, MULTIPART_ID)
    ensures Missing(rules, retention) == []
  {
  }

  lemma TrashRules(rules: seq<Rule>, retention: int)
    ensures TrashRule(retention) in Ensured(Some(rules), retention)
    ensures forall r :: r in Ensured(Some(rules), retention) && r.id == Some(TRASH_ID) ==> r == TrashRule(retention)
  {
    EnsuredParts(rules, retention);
    MergedFacts(rules, retention, retention);
    assert forall r :: r in Missing(rules, retention) && r.id == Some(TRASH_ID) ==> r == TrashRule(retention);
    var r :| r in Ensured(Some(rules), retention) && r.id == Some(TRASH_ID);
  }
}

// internal/storage/gcp.go
module GcpLifecycle {
  import opened Basics
  import opened Lifecycle

  datatype Action = Delete | AbortIncompleteUpload | Other

  datatype GcpRule = GcpRule(action: Action, age: int, matchesPrefix: seq<string>, rest: nat)

  function GcpTrashRule(retention: int): GcpRule {
    GcpRule(Delete, retention, [TRASH_PREFIX], 0)
  }

  const GCP_MULTIPART_RULE := GcpRule(AbortIncompleteUpload, 1, [], 0)

  predicate IsTrash(r: GcpRule) {
    r.action == Delete && |r.matchesPrefix| > 0 && r.matchesPrefix[0] == TRASH_PREFIX
  }

  predicate IsMultipart(r: GcpRule) {
    r.action == AbortIncompleteUpload && r.age == 1
  }

  // The last rule that matches is the one that is replaced.
  predicate IsLast(rules: seq<GcpRule>, p: GcpRule -> bool, k: int) {
    && -1 <= k < |rules|
    && (k >= 0 ==> p(rules[k]))
    && forall i :: k < i < |rules| ==> !p(rules[i])
  }

  function Without(rules: seq<GcpRule>, j: int, k: int): seq<GcpRule> {
    if rules == [] then []
    else
      var last := |rules| - 1;
      Without(rules[..last], j, k) + if last != j && last != k then [rules[last]] else []
  }

  ghost predicate Written(rules: seq<GcpRule>, retention: int, written: seq<GcpRule>) {
    exists j, k :: IsLast(rules, IsTrash, j) && IsLast(rules, IsMultipart, k)
                   && written == Without(rules, j, k) + [GcpTrashRule(retention), GCP_MULTIPART_RULE]
  }

  method FindManagedRules(rules: seq<GcpRule>) returns (trashIndex: int, multipartIndex: int)
    ensures IsLast(rules, IsTrash, trashIndex) && IsLast(rules, IsMultipart, multipartIndex)
  {
    trashIndex, multipartIndex := -1, -1;
    for i := 0 to |rules|
      invariant IsLast(rules[..i], IsTrash, trashIndex) && IsLast(rules[..i], IsMultipart, multipartIndex)
    {
      if IsTrash(rules[i]) {
        trashIndex := i;
      }
      if IsMultipart(rules[i]) {
        multipartIndex := i;
      }
    }
    assert rules[..|rules|] == rules;
  }

  method EnsureTrashLifecyclePolicy(rules: seq<GcpRule>, retention: int) returns (newRules: seq<GcpRule>)
    ensures Written(rules, retention, newRules)
  {
    var trashIndex, multipartIndex := FindManagedRules(rules);
    hide IsLast, IsTrash, IsMultipart;
    newRules := [];
    for i := 0 to |rules|
      invariant newRules == Without(rules[..i], trashIndex, multipartIndex)
    {
      assert rules[..i + 1][..i] == rules[..i];
      if i != trashIndex && i != multipartIndex {
        newRules := newRules + [rules[i]];
      }
    }
    assert rules[..|rules|] == rules;
    newRules := newRules + [GcpTrashRule(retention), GCP_MULTIPART_RULE];
  }

  predicate ForeignToGcp(r: GcpRule) {
    !IsTrash(r) && !IsMultipart(r)
  }

  lemma {:induction false} WithoutKeepsForeign(rules: seq<GcpRule>, j: int, k: int)
    requires 0 <= j < |rules| ==> IsTrash(rules[j])
    requires 0 <= k < |rules| ==> IsMultipart(rules[k])
    ensures Filter(Without(rules, j, k), ForeignToGcp) == Filter(rules, ForeignToGcp)
    decreases |rules|
  {
    if rules != [] {
      var last := |rules| - 1;
      WithoutKeepsForeign(rules[..last], j, k);
      FilterOfSum(Without(rules[..last], j, k), if last != j && last != k then [rules[last]] else [], ForeignToGcp);
    }
  }

  // A second time the last two rules are the ones that are replaced.
  lemma {:induction false} WithoutBeyond(rules: seq<GcpRule>, j: int, k: int)
    requires j >= |rules| && k >= |rules|
    ensures Without(rules, j, k) == rules
    decreases |rules|
  {
    if rules != [] {
      WithoutBeyond(rules[..|rules| - 1], j, k);
    }
  }

  lemma SecondTime(kept: seq<GcpRule>, retention: int, later: int, twice: seq<GcpRule>)
    requires Written(kept + [GcpTrashRule(retention), GCP_MULTIPART_RULE], later, twice)
    ensures twice == kept + [GcpTrashRule(later), GCP_MULTIPART_RULE]
  {
    var once, n := kept + [GcpTrashRule(retention), GCP_MULTIPART_RULE], |kept|;
    assert once[n] == GcpTrashRule(retention) && once[n + 1] == GCP_MULTIPART_RULE;
    var j, k :| IsLast(once, IsTrash, j) && IsLast(once, IsMultipart, k)
                && twice == Without(once, j, k) + [GcpTrashRule(later), GCP_MULTIPART_RULE];
    assert j == n && k == n + 1;
    hide IsLast, IsTrash, IsMultipart;
    WithoutBeyond(kept, j, k);
    assert once[..n + 1][..n] == kept && once[..n + 2 - 1] == once[..n + 1];
    assert Without(once[..n + 1], j, k) == Without(kept, j, k) + [];
    assert Without(once, j, k) == Without(once[..n + 1], j, k) + [];
  }

  // Only the last retention counts, the rules of others survive in their order, and a trash rule
  // with the requested retention is there.
  lemma MergeIsConservative(rules: seq<GcpRule>, retention: int, later: int, once: seq<GcpRule>, twice: seq<GcpRule>)
    requires Written(rules, retention, once) && Written(once, later, twice)
    ensures Written(rules, later, twice)
    ensures later == retention ==> twice == once
    ensures Filter(once, ForeignToGcp) == Filter(rules, ForeignToGcp)
    ensures exists r :: r in once && r.action == Delete && r.matchesPrefix == [TRASH_PREFIX] && r.age == retention
  {
    var j, k :| IsLast(rules, IsTrash, j) && IsLast(rules, IsMultipart, k)
                && once == Without(rules, j, k) + [GcpTrashRule(retention), GCP_MULTIPART_RULE];
    var kept := Without(rules, j, k);
    WithoutKeepsForeign(rules, j, k);
    SecondTime(kept, retention, later, twice);
    hide Without, Filter;
    FilterOfSum(kept, [GcpTrashRule(retention), GCP_MULTIPART_RULE], ForeignToGcp);
    NoneForeign(retention);
    var r := once[|kept|];
    assert r == GcpTrashRule(retention);
    assert r in once && r.action == Delete && r.matchesPrefix == [TRASH_PREFIX] && r.age == retention;
  }

  // The rule is replaced: it is the last trash rule or the last rule that aborts uploads after one day.
  ghost predicate IsReplaced(rules: seq<GcpRule>, i: int) {
    && 0 <= i < |rules|
    && ((IsDeletion(rules[i]) && forall l :: i < l < |rules| ==> !IsDeletion(rules[l]))
        || (IsAbortion(rules[i]) && forall l :: i < l < |rules| ==> !IsAbortion(rules[l])))
  }

  predicate IsDeletion(r: GcpRule) {
    r.action == Delete && [TRASH_PREFIX] <= r.matchesPrefix
  }

  predicate IsAbortion(r: GcpRule) {
    r.action == AbortIncompleteUpload && r.age == 1
  }

  // Where the rule at `i` ends up.
  function Shift(i: int, j: int, k: int): int {
    i - (if 0 <= j < i then 1 else 0) - (if 0 <= k < i then 1 else 0)
  }

  // Every other rule stays, in order, and the two fresh ones are last.
  lemma RuleByRule(rules: seq<GcpRule>, retention: int, once: seq<GcpRule>) returns (j: int, k: int)
    requires Written(rules, retention, once)
    ensures forall i :: 0 <= i < |rules| ==> (IsReplaced(rules, i) <==> i == j || i == k)
    ensures |once| == Shift(|rules|, j, k) + 2
    ensures forall i :: 0 <= i < |rules| && i != j && i != k ==>
              0 <= Shift(i, j, k) < |once| - 2 && once[Shift(i, j, k)] == rules[i]
    ensures var r := once[|once| - 2]; r.action == Delete && r.matchesPrefix == [TRASH_PREFIX] && r.age == retention
    ensures var r := once[|once| - 1]; r.action == AbortIncompleteUpload && r.age == 1 && r.matchesPrefix == []
  {
    j, k :| IsLast(rules, IsTrash, j) && IsLast(rules, IsMultipart, k)
            && once == Without(rules, j, k) + [GcpTrashRule(retention), GCP_MULTIPART_RULE];
    assert j >= 0 ==> j != k;
    WithoutByIndex(rules, j, k);
    hide Without;
    var kept := Without(rules, j, k);
    assert |once| == |kept| + 2 && once[|kept|] == GcpTrashRule(retention) && once[|kept| + 1] == GCP_MULTIPART_RULE;
  }

  lemma {:induction false} WithoutByIndex(rules: seq<GcpRule>, j: int, k: int)
    requires j >= 0 ==> j != k
    ensures |Without(rules, j, k)| == Shift(|rules|, j, k)
    ensures forall i :: 0 <= i < |rules| && i != j && i != k ==>
              0 <= Shift(i, j, k) < |Without(rules, j, k)| && Without(rules, j, k)[Shift(i, j, k)] == rules[i]
    decreases |rules|
  {
    if rules != [] {
      WithoutByIndex(rules[..|rules| - 1], j, k);
    }
  }

  // When no more than one rule matched, the written trash rule is the only one.
  lemma OneTrashRule(rules: seq<GcpRule>, retention: int, once: seq<GcpRule>)
    requires Written(rules, retention, once)
    requires forall a, b :: 0 <= a < b < |rules| ==> !(IsTrash(rules[a]) && IsTrash(rules[b]))
    ensures forall r :: r in once && IsTrash(r) ==> r.matchesPrefix == [TRASH_PREFIX] && r.age == retention
  {
    var j, k :| IsLast(rules, IsTrash, j) && IsLast(rules, IsMultipart, k)
                && once == Without(rules, j, k) + [GcpTrashRule(retention), GCP_MULTIPART_RULE];
    OnlyTrashRule(rules, j, k);
  }

  lemma NoneForeign(retention: int)
    ensures Filter([GcpTrashRule(retention), GCP_MULTIPART_RULE], ForeignToGcp) == []
  {
    var t, m := GcpTrashRule(retention), GCP_MULTIPART_RULE;
    assert [t] + [m] == [t, m];
    FilterOne(t, ForeignToGcp);
    FilterOne(m, ForeignToGcp);
    FilterOfSum([t], [m], ForeignToGcp);
  }

  lemma {:induction false} OnlyTrashRule(rules: seq<GcpRule>, j: int, k: int)
    requires forall i :: 0 <= i < |rules| && i != j ==> !IsTrash(rules[i])
    ensures forall r :: r in Without(rules, j, k) ==> !IsTrash(r)
    decreases |rules|
  {
    if rules != [] {
      OnlyTrashRule(rules[..|rules| - 1], j, k);
    }
  }
}

// internal/storage/rustfs.go
module RustFsLifecycle {
  import opened Basics
  import opened Lifecycle

  // The client library reports an expiration of zero days as one that is not set.
  predicate IsDaysNull(days: Option<int>) {
    days.None? || days.value == 0
  }

  predicate UpToDate(r: Rule, retention: int) {
    if r.id == Some(TRASH_ID) then !IsDaysNull(r.days) && r.days.value == retention && r.prefix == Some(TRASH_PREFIX)
    else r.id == Some(MULTIPART_ID) ==> r.abortDays == Some(1)
  }

  function Keeps(retention: int): Rule -> bool {
    r => UpToDate(r, retention)
  }

  predicate HasTrash(rules: seq<Rule>) {
    exists r :: r in rules && r.id == Some(TRASH_ID)
  }

  // The rules that are written back; `existing` is None when they could not be read.
  function Ensured(existing: Option<seq<Rule>>, retention: int): seq<Rule> {
    var kept := if existing.None? then [] else Filter(existing.value, Keeps(retention));
    if HasTrash(kept) then kept else kept + [TrashRule(retention)]
  }

  method ProcessExistingLifecycleRules(existing: Option<seq<Rule>>, retention: int) returns (rules: seq<Rule>)
    ensures rules == if existing.None? then [] else Filter(existing.value, Keeps(retention))
  {
    if existing.None? || existing.value == [] {
      return [];
    }
    var all := existing.value;
    var newRules: seq<Rule> := [];
    var trashRuleFound, multipartRuleFound := false, false;
    for i := 0 to |all|
      invariant newRules == Filter(all[..i], Keeps(retention))
      invariant !trashRuleFound && !multipartRuleFound ==> newRules == all[..i]
    {
      var rule := all[i];
      assert all[..i + 1][..i] == all[..i] && all[..i + 1] == all[..i] + [rule];
      if rule.id == Some(TRASH_ID) {
        trashRuleFound := true;
        if !IsDaysNull(rule.days) && rule.days.value == retention && rule.prefix == Some(TRASH_PREFIX) {
          newRules := newRules + [rule];
        }
      } else if rule.id == Some(MULTIPART_ID) {
        multipartRuleFound := true;
        if rule.abortDays == Some(1) {
          newRules := newRules + [rule];
        }
      } else {
        newRules := newRules + [rule];
      }
    }
    assert all[..|all|] == all;
    rules := if trashRuleFound || multipartRuleFound then newRules else all;
  }

  method EnsureTrashLifecyclePolicy(existing: Option<seq<Rule>>, retention: int) returns (written: Option<seq<Rule>>)
    ensures written == if 0 <= retention <= MAX_DAYS then Some(Ensured(existing, retention)) else None
  {
    if retention < 0 || retention > MAX_DAYS {
      return None;
    }
    var rules := ProcessExistingLifecycleRules(existing, retention);
    var trashRuleExists := false;
    for i := 0 to |rules|
      invariant trashRuleExists <==> HasTrash(rules[..i])
    {
      assert rules[..i + 1] == rules[..i] + [rules[i]];
      if rules[i].id == Some(TRASH_ID) {
        trashRuleExists := true;
      }
    }
    assert rules[..|rules|] == rules;
    if !trashRuleExists {
      rules := rules + [TrashRule(retention)];
    }
    written := Some(rules);
  }

  lemma {:induction false} FilterKept(rules: seq<Rule>, retention: int)
    ensures Filter(Filter(rules, Keeps(retention)), Keeps(retention)) == Filter(rules, Keeps(retention))
    ensures Filter(Filter(rules, Keeps(retention)), Foreign) == Filter(rules, Foreign)
    decreases |rules|
  {
    if rules != [] {
      var init, last := rules[..|rules| - 1], rules[|rules| - 1];
      FilterKept(init, retention);
      var kept, more := Filter(init, Keeps(retention)), if UpToDate(last, retention) then [last] else [];
      FilterOfSum(kept, more, Keeps(retention));
      FilterOfSum(kept, more, Foreign);
    }
  }

  // Doing it twice is doing it once; the rules of others survive in their order; there is a trash
  // rule, and every trash rule has the prefix and the requested retention.
  lemma MergeIsConservative(rules: seq<Rule>, retention: int)
    ensures var once := Ensured(Some(rules), retention);
            && Ensured(Some(once), retention) == once
            && Filter(once, Foreign) == Filter(rules, Foreign)
            && HasTrash(once)
            && forall r :: r in once && r.id == Some(TRASH_ID) ==>
                 r.days == Some(retention) && r.prefix == Some(TRASH_PREFIX)
  {
    var kept := Filter(rules, Keeps(retention));
    var t := TrashRule(retention);
    FilterKept(rules, retention);
    KeptRules(rules, retention);
    if !HasTrash(kept) {
      FilterOfSum(kept, [t], Keeps(retention));
      FilterOfSum(kept, [t], Foreign);
      AppendedRule(retention);
      assert kept + [] == kept && t in kept + [t];
      hide Filter;
    }
  }

  lemma KeptRules(rules: seq<Rule>, retention: int)
    ensures forall r :: r in Filter(rules, Keeps(retention)) ==> UpToDate(r, retention)
  {
    InFilter(rules, Keeps(retention));
  }

  lemma AppendedRule(retention: int)
    ensures Filter([TrashRule(retention)], Keeps(retention)) == if retention == 0 then [] else [TrashRule(retention)]
    ensures Filter([TrashRule(retention)], Foreign) == []
  {
    FilterOne(TrashRule(retention), Keeps(retention));
    FilterOne(TrashRule(retention), Foreign);
  }

  // The rule stays: it is nobody's of the application, aborts uploads after one day, or is a trash rule
  // with the requested days, which a rule with zero days never is.
  predicate Stays(r: Rule, retention: int) {
    && (r.id == Some(MULTIPART_ID) ==> r.abortDays == Some(1))
    && (r.id == Some(TRASH_ID) ==> r.days == Some(retention) && retention != 0 && r.prefix == Some(TRASH_PREFIX))
  }

  // What is written: the rules that stay, and a fresh trash rule if none is among them.
  lemma StaysOrFresh(rules: seq<Rule>, retention: int)
    ensures var once := Ensured(Some(rules), retention);
            && (forall r :: r in rules && Stays(r, retention) ==> r in once)
            && (forall r :: r in once ==>
                  || (r in rules && Stays(r, retention))
                  || (r.id == Some(TRASH_ID) && Expires(r, retention)
                      && forall x :: x in rules && x.id == Some(TRASH_ID) ==> !Stays(x, retention)))
  {
    InFilter(rules, Keeps(retention));
    assert forall r :: Stays(r, retention) <==> UpToDate(r, retention);
  }

  // An up-to-date trash rule that somebody has disabled stays disabled: an enabled trash rule comes
  // out exactly when no up-to-date one went in or one of those was enabled.
  lemma EnabledTrashRule(rules: seq<Rule>, retention: int)
    ensures (exists r :: r in Ensured(Some(rules), retention) && r.id == Some(TRASH_ID) && r.enabled)
            <==> ((forall r :: r in rules && r.id == Some(TRASH_ID) ==> !UpToDate(r, retention))
                  || exists r :: r in rules && r.id == Some(TRASH_ID) && UpToDate(r, retention) && r.enabled)
  {
    var kept := Filter(rules, Keeps(retention));
    InFilter(rules, Keeps(retention));
    if !HasTrash(kept) {
      assert TrashRule(retention) in kept + [TrashRule(retention)];
    }
  }

  // Except with a retention of zero days, when no rule counts as up to date.
  lemma DisabledStaysDisabled(retention: int)
    ensures var disabled := TrashRule(retention).(enabled := false);
            Ensured(Some([disabled]), retention) == if retention == 0 then [TrashRule(0)] else [disabled]
  {
    var disabled := TrashRule(retention).(enabled := false);
    FilterOne(disabled, Keeps(retention));
    assert disabled in [disabled];
  }
}
