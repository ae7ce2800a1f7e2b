// The object keys of trash markers: internal/storage/aws.go (the other back ends have the same two
// functions), internal/messaging/aws.go and internal/events/trash_expiration.go.
module TrashMarker {
  import opened Basics
  import opened Strings

  // ----- paths, as in the standard library of the source

  predicate HasPrefix(s: string, prefix: string) {
    prefix <= s
  }

  function TrimPrefix(s: string, prefix: string): string {
    if HasPrefix(s, prefix) then s[|prefix|..] else s
  }

  // path.Clean on the parts of a path: `kept` is what the earlier parts amount to.
  function CleanParts(rooted: bool, kept: seq<string>, parts: seq<string>): seq<string>
    decreases |parts|
  {
    if parts == [] then kept
    else if parts[0] == "" || parts[0] == "." then CleanParts(rooted, kept, parts[1..])
    else if parts[0] != ".." then CleanParts(rooted, kept + [parts[0]], parts[1..])
    else if kept != [] && kept[|kept| - 1] != ".." then CleanParts(rooted, kept[..|kept| - 1], parts[1..])
    else if rooted then CleanParts(rooted, kept, parts[1..])
    else CleanParts(rooted, kept + [".."], parts[1..])
  }

  function Clean(s: string): string {
    var rooted := s != "" && s[0] == '/';
    var parts := CleanParts(rooted, [], Split(s));
    if rooted then "/" + JoinParts(parts) else if parts == [] then "." else JoinParts(parts)
  }

  function NonEmpty(elems: seq<string>): seq<string> {
    if elems == [] then [] else (if elems[0] == "" then [] else [elems[0]]) + NonEmpty(elems[1..])
  }

  // path.Join
  function PathJoin(elems: seq<string>): string {
    if NonEmpty(elems) == [] then "" else Clean(JoinParts(NonEmpty(elems)))
  }

  function TrimSlashes(s: string): string {
    if s != "" && s[|s| - 1] == '/' then TrimSlashes(s[..|s| - 1]) else s
  }

  // path.Base
  function Base(s: string): string {
    if s == "" then "."
    else
      var t := TrimSlashes(s);
      if t == "" then "/" else Split(t)[|Split(t)| - 1]
  }

  // ----- the keys

  const BUCKETS_PREFIX := "buckets/"
  const TRASH_PREFIX := "trash/"

  datatype Kind = File | Folder

  function KindPath(kind: Kind): string {
    match kind case File => "files" case Folder => "folders"
  }

  function ObjectPath(bucket: string, id: string): string {
    PathJoin(["buckets", bucket, id])
  }

  // getTrashMarkerPath
  function MarkerPath(objectPath: string, kind: Kind): string {
    var parts := SplitN(TrimPrefix(objectPath, BUCKETS_PREFIX), 2);
    if |parts| < 2 then "" else PathJoin([TRASH_PREFIX, parts[0], KindPath(kind), parts[1]])
  }

  // IsTrashMarkerPath: the original object path, if the key is a marker.
  datatype Original = NoMarker | MarkerOf(path: string)

  function TrashMarkerPath(key: string): Original {
    if !HasPrefix(key, TRASH_PREFIX) then NoMarker
    else
      var parts := SplitN(TrimPrefix(key, TRASH_PREFIX), 3);
      if |parts| < 3 then NoMarker
      else if parts[1] != "files" && parts[1] != "folders" then NoMarker
      else MarkerOf(BUCKETS_PREFIX + parts[0] + "/" + parts[2])
  }

  // The bucket id that ParseBucketDeletionEvents finds in a key; empty when there is none.
  function BucketIdOf(key: string): string {
    if HasPrefix(key, BUCKETS_PREFIX) || HasPrefix(key, TRASH_PREFIX) then
      var parts := Split(key);
      if |parts| >= 2 then parts[1] else ""
    else ""
  }

  datatype Parsed = Parsed(original: Original, objectPath: string, filename: string)

  // parseObjectPath
  function ParseObjectPath(bucket: string, key: string): Parsed {
    var prefix := PathJoin(["buckets", bucket]) + "/";
    var original := TrashMarkerPath(key);
    var full := if original.MarkerOf? then original.path else key;
    var objectPath := if |full| > |prefix| then full[|prefix|..] else full;
    Parsed(original, objectPath, Base(objectPath))
  }

  // ----- which keys are what

  // The key of a marker is the prefix, a bucket, one of the two kinds and the rest; of no other key is
  // an object path found.
  lemma MarkerKeysExactly(key: string, path: string)
    ensures TrashMarkerPath(key) == MarkerOf(path) <==>
            exists bucket, kind, rest :: IsMarkerKey(key, bucket, kind, rest)
              && path == "buckets/" + bucket + "/" + rest
  {
    if exists bucket, kind, rest :: IsMarkerKey(key, bucket, kind, rest) {
      forall bucket, kind, rest | IsMarkerKey(key, bucket, kind, rest)
        ensures TrashMarkerPath(key) == MarkerOf("buckets/" + bucket + "/" + rest)
      {
        MarkerKeyParts(key, bucket, kind, rest);
      }
    }
    if TrashMarkerPath(key).MarkerOf? {
      var parts := SplitN(TrimPrefix(key, TRASH_PREFIX), 3);
      ThreeSplit(TrimPrefix(key, TRASH_PREFIX));
      assert key == TRASH_PREFIX + TrimPrefix(key, TRASH_PREFIX);
      assert IsMarkerKey(key, parts[0], parts[1], parts[2]);
    }
  }

  predicate IsMarkerKey(key: string, bucket: string, kind: string, rest: string) {
    '/' !in bucket && (kind == "files" || kind == "folders") && key == "trash/" + (bucket + "/" + (kind + "/" + rest))
  }

  lemma MarkerKeyParts(key: string, bucket: string, kind: string, rest: string)
    requires IsMarkerKey(key, bucket, kind, rest)
    ensures TrashMarkerPath(key) == MarkerOf("buckets/" + bucket + "/" + rest)
  {
    var tail := bucket + "/" + (kind + "/" + rest);
    assert HasPrefix(key, TRASH_PREFIX) && TrimPrefix(key, TRASH_PREFIX) == tail;
    SplitNStep(bucket, kind + "/" + rest, 2);
    SplitNStep(kind, rest, 1);
    SplitNOne(rest);
    hide SplitN, TrimPrefix;
    assert SplitN(tail, 3) == [bucket, kind, rest];
  }

  lemma ThreeSplit(s: string)
    requires |SplitN(s, 3)| == 3
    ensures var parts := SplitN(s, 3);
            '/' !in parts[0] && '/' !in parts[1] && s == parts[0] + "/" + (parts[1] + "/" + parts[2])
  {
    var head, tail := SplitNHead(s, 3);
    assert |SplitN(tail, 2)| == 2;
    var second, last := SplitNHead(tail, 2);
    SplitNOne(last);
    hide SplitN;
  }

  lemma SplitNHead(s: string, n: nat) returns (head: string, tail: string)
    requires n >= 2 && |SplitN(s, n)| >= 2
    ensures SplitN(s, n) == [head] + SplitN(tail, n - 1) && s == head + "/" + tail && '/' !in head
  {
    var k := IndexOf(s, '/');
    head, tail := s[..k], s[k + 1..];
  }

  lemma SplitNOne(s: string)
    ensures SplitN(s, 1) == [s]
  {
  }

  // `first` is what stands before the first slash.
  predicate FirstPart(s: string, first: string) {
    first <= s && '/' !in first && (|s| == |first| || s[|first|] == '/')
  }

  // A bucket is found in exactly the keys below the two prefixes: the part that follows.
  lemma BucketFoundExactly(key: string, bucket: string)
    requires bucket != ""
    ensures BucketIdOf(key) == bucket <==>
            exists prefix, rest :: BelowPrefix(key, prefix, rest) && FirstPart(rest, bucket)
  {
    forall prefix, rest | BelowPrefix(key, prefix, rest)
      ensures BucketIdOf(key) == bucket <==> FirstPart(rest, bucket)
    {
      KeyBelow(key, prefix, rest);
      FirstOfSplit(rest, bucket);
    }
    if HasPrefix(key, BUCKETS_PREFIX) {
      assert BelowPrefix(key, "buckets", key[|BUCKETS_PREFIX|..]);
    } else if HasPrefix(key, TRASH_PREFIX) {
      assert BelowPrefix(key, "trash", key[|TRASH_PREFIX|..]);
    }
    hide BelowPrefix, FirstPart, Split;
  }

  predicate BelowPrefix(key: string, prefix: string, rest: string) {
    (prefix == "buckets" || prefix == "trash") && key == prefix + "/" + rest
  }

  lemma KeyBelow(key: string, prefix: string, rest: string)
    requires BelowPrefix(key, prefix, rest)
    ensures BucketIdOf(key) == Split(rest)[0]
  {
    hide Split;
    var full := prefix + "/";
    assert full == BUCKETS_PREFIX || full == TRASH_PREFIX;
    SplitStep(prefix, rest);
    StartsWith(full, rest);
    assert key == full + rest && HasPrefix(key, full);
    var parts := Split(rest);
    assert Split(key) == [prefix] + parts && |parts| >= 1;
    hide HasPrefix;
    assert ([prefix] + parts)[1] == parts[0];
  }

  lemma StartsWith(a: string, b: string)
    ensures a <= a + b
  {
  }

  lemma FirstOfSplit(s: string, first: string)
    ensures Split(s)[0] == first <==> FirstPart(s, first)
  {
    if '/' in s {
      var k := IndexOf(s, '/');
      if FirstPart(s, first) {
        assert |first| < |s|;
        assert k == |first|;
      }
    }
  }

  // ----- ids that survive

  predicate Plain(id: string) {
    id != "" && '/' !in id && id != "." && id != ".."
  }

  predicate AllPlain(parts: seq<string>) {
    forall i :: 0 <= i < |parts| ==> Plain(parts[i])
  }

  lemma {:induction false} CleanKeeps(kept: seq<string>, parts: seq<string>)
    requires AllPlain(parts)
    ensures CleanParts(false, kept, parts) == kept + parts
    decreases |parts|
  {
    if parts != [] {
      assert Plain(parts[0]);
      CleanKeeps(kept + [parts[0]], parts[1..]);
    }
  }

  lemma {:induction false} JoinedStart(parts: seq<string>)
    requires parts != [] && AllPlain(parts)
    ensures JoinParts(parts) != "" && JoinParts(parts)[0] != '/'
  {
    assert Plain(parts[0]);
    assert parts[0][0] in parts[0];
  }

  // Joining plain parts changes nothing else.
  lemma CleanJoined(parts: seq<string>)
    requires parts != [] && AllPlain(parts)
    ensures Clean(JoinParts(parts)) == JoinParts(parts)
  {
    hide Split, CleanParts, JoinParts;
    SplitJoined(parts);
    CleanKeeps([], parts);
    JoinedStart(parts);
    assert [] + parts == parts;
  }

  lemma {:induction false} NonEmptyPlain(parts: seq<string>)
    requires AllPlain(parts)
    ensures NonEmpty(parts) == parts
    decreases |parts|
  {
    if parts != [] {
      assert Plain(parts[0]);
      NonEmptyPlain(parts[1..]);
    }
  }

  // The keys in terms of their parts.
  lemma JoinedPrefix(first: string, rest: seq<string>)
    requires rest != []
    ensures JoinParts([first] + rest) == first + "/" + JoinParts(rest)
    ensures HasPrefix(JoinParts([first] + rest), first + "/")
    ensures TrimPrefix(JoinParts([first] + rest), first + "/") == JoinParts(rest)
  {
    assert ([first] + rest)[1..] == rest;
    assert JoinParts([first] + rest)[|first + "/"|..] == JoinParts(rest);
  }

  lemma ObjectPathIs(bucket: string, id: string)
    requires Plain(bucket) && Plain(id)
    ensures ObjectPath(bucket, id) == JoinParts(["buckets", bucket, id])
    ensures PathJoin(["buckets", bucket]) == JoinParts(["buckets", bucket])
  {
    hide Clean, JoinParts;
    NonEmptyPlain(["buckets", bucket, id]);
    CleanJoined(["buckets", bucket, id]);
    NonEmptyPlain(["buckets", bucket]);
    CleanJoined(["buckets", bucket]);
  }

  lemma MarkerPathIs(bucket: string, id: string, kind: Kind)
    requires Plain(bucket) && Plain(id)
    ensures MarkerPath(ObjectPath(bucket, id), kind) == JoinParts(["trash", bucket, KindPath(kind), id])
  {
    hide PathJoin, JoinParts, SplitN, TrimPrefix, ObjectPath;
    ObjectPathIs(bucket, id);
    assert ["buckets"] + [bucket, id] == ["buckets", bucket, id];
    JoinedPrefix("buckets", [bucket, id]);
    assert "buckets" + "/" == BUCKETS_PREFIX;
    SplitNJoined([bucket, id], 2);
    TrashPathIs([bucket, KindPath(kind), id]);
    assert [TRASH_PREFIX] + [bucket, KindPath(kind), id] == [TRASH_PREFIX, bucket, KindPath(kind), id];
    assert ["trash"] + [bucket, KindPath(kind), id] == ["trash", bucket, KindPath(kind), id];
  }

  // The slash at the end of the prefix does not survive the join.
  lemma TrashPathIs(rest: seq<string>)
    requires rest != [] && AllPlain(rest)
    ensures PathJoin([TRASH_PREFIX] + rest) == JoinParts(["trash"] + rest)
  {
    NonEmptyPlain(rest);
    assert ([TRASH_PREFIX] + rest)[1..] == rest;
    assert NonEmpty([TRASH_PREFIX] + rest) == [TRASH_PREFIX] + rest;
    hide JoinParts, NonEmpty;
    JoinedPrefix(TRASH_PREFIX, rest);
    TrashParts(rest);
    var s := JoinParts([TRASH_PREFIX] + rest);
    assert s[0] == 't';
    TrashClean(rest);
    assert ["trash"] + rest != [];
  }

  lemma TrashParts(rest: seq<string>)
    requires rest != [] && AllPlain(rest)
    ensures Split(TRASH_PREFIX + "/" + JoinParts(rest)) == ["trash", ""] + rest
  {
    hide Split;
    var tail := "" + "/" + JoinParts(rest);
    assert TRASH_PREFIX + "/" + JoinParts(rest) == "trash" + "/" + tail;
    hide JoinParts, Split;
    SplitStep("trash", tail);
    SplitStep("", JoinParts(rest));
    SplitJoined(rest);
  }

  lemma TrashClean(rest: seq<string>)
    requires AllPlain(rest)
    ensures CleanParts(false, [], ["trash", ""] + rest) == ["trash"] + rest
  {
    assert (["trash", ""] + rest)[1..] == [""] + rest;
    assert ([""] + rest)[1..] == rest;
    assert [] + ["trash"] == ["trash"];
    CleanKeeps(["trash"], rest);
  }

  // From the marker's key back to the bucket, the object and the id.
  lemma MarkerRoundTrip(bucket: string, id: string, kind: Kind)
    requires Plain(bucket) && Plain(id)
    ensures var key := MarkerPath(ObjectPath(bucket, id), kind);
            && BucketIdOf(key) == bucket
            && TrashMarkerPath(key) == MarkerOf(ObjectPath(bucket, id))
            && ParseObjectPath(bucket, key) == Parsed(MarkerOf(ObjectPath(bucket, id)), id, id)
  {
    hide MarkerPath, ObjectPath, PathJoin, JoinParts, Split, SplitN, TrimPrefix, Base;
    ObjectPathIs(bucket, id);
    MarkerPathIs(bucket, id, kind);
    var parts := [bucket, KindPath(kind), id];
    assert ["trash"] + parts == ["trash", bucket, KindPath(kind), id];
    JoinedPrefix("trash", parts);
    assert "trash" + "/" == TRASH_PREFIX;
    SplitNJoined(parts, 3);
    SplitJoined(["trash"] + parts);
    ThreeParts(bucket, id);
    BaseOfPlain(id);
  }

  lemma ThreeParts(bucket: string, id: string)
    ensures JoinParts(["buckets", bucket, id]) == BUCKETS_PREFIX + bucket + "/" + id
    ensures var prefix := JoinParts(["buckets", bucket]) + "/";
            && |JoinParts(["buckets", bucket, id])| == |prefix| + |id|
            && JoinParts(["buckets", bucket, id])[|prefix|..] == id
  {
    var a, b, c := ["buckets", bucket, id], [bucket, id], ["buckets", bucket];
    assert a[1..] == b && b[1..] == [id] && c[1..] == [bucket];
    assert JoinParts(b) == bucket + "/" + JoinParts([id]);
    assert JoinParts(a) == "buckets" + "/" + (bucket + "/" + id);
    assert JoinParts(c) == "buckets" + "/" + bucket;
    assert JoinParts(a) == JoinParts(c) + "/" + id;
  }

  lemma BaseOfPlain(id: string)
    requires Plain(id)
    ensures Base(id) == id
  {
    assert id[|id| - 1] in id;
  }

  // The key of the object itself.
  lemma ObjectRoundTrip(bucket: string, id: string)
    requires Plain(bucket) && Plain(id)
    ensures var key := ObjectPath(bucket, id);
            && BucketIdOf(key) == bucket
            && ParseObjectPath(bucket, key) == Parsed(NoMarker, id, id)
  {
    hide ObjectPath, PathJoin, JoinParts, Split, SplitN, TrimPrefix, Base;
    ObjectPathIs(bucket, id);
    var parts := [bucket, id];
    assert ["buckets"] + parts == ["buckets", bucket, id];
    JoinedPrefix("buckets", parts);
    assert "buckets" + "/" == BUCKETS_PREFIX;
    SplitJoined(["buckets"] + parts);
    ThreeParts(bucket, id);
    BaseOfPlain(id);
    assert ObjectPath(bucket, id)[0] == 'b';
  }

  // Markers of different buckets, ids or kinds never share a key.
  lemma MarkersDiffer(bucket: string, id: string, kind: Kind, bucket2: string, id2: string, kind2: Kind)
    requires Plain(bucket) && Plain(id) && Plain(bucket2) && Plain(id2)
    requires MarkerPath(ObjectPath(bucket, id), kind) == MarkerPath(ObjectPath(bucket2, id2), kind2)
    ensures bucket == bucket2 && id == id2 && kind == kind2
  {
    hide MarkerPath, ObjectPath, JoinParts, Split;
    MarkerPathIs(bucket, id, kind);
    MarkerPathIs(bucket2, id2, kind2);
    SplitJoined(["trash", bucket, KindPath(kind), id]);
    SplitJoined(["trash", bucket2, KindPath(kind2), id2]);
    var parts, parts2 := ["trash", bucket, KindPath(kind), id], ["trash", bucket2, KindPath(kind2), id2];
    assert parts == parts2;
    assert parts[1] == parts2[1] && parts[2] == parts2[2] && parts[3] == parts2[3];
  }

  // ----- ParseBucketDeletionEvents

  datatype Record = Record(bucketName: string, key: string, eventName: string)
  datatype DeletionEvent = DeletionEvent(bucketId: string, objectKey: string, eventName: string)

  function ParsedDeletions(records: seq<Record>, expected: string): seq<DeletionEvent> {
    if records == [] then []
    else
      var r, earlier := records[|records| - 1], ParsedDeletions(records[..|records| - 1], expected);
      if r.bucketName != expected || BucketIdOf(r.key) == "" then earlier
      else earlier + [DeletionEvent(BucketIdOf(r.key), r.key, r.eventName)]
  }

  predicate Wanted(r: Record, expected: string) {
    r.bucketName == expected && BucketIdOf(r.key) != ""
  }

  // The events are those of the wanted records, in the order of the records; `at` says which these are.
  ghost predicate InOrder(records: seq<Record>, expected: string, at: seq<nat>, events: seq<DeletionEvent>) {
    && Rising(at, |records|) && |events| == |at|
    && (forall k: nat :: k < |records| ==> (k in at <==> Wanted(records[k], expected)))
    && forall j :: 0 <= j < |at| ==>
         var r := records[at[j]]; events[j] == DeletionEvent(BucketIdOf(r.key), r.key, r.eventName)
  }

  lemma OneMoreWanted(records: seq<Record>, expected: string, at: seq<nat>, events: seq<DeletionEvent>, r: Record)
    requires InOrder(records, expected, at, events) && Wanted(r, expected)
    ensures InOrder(records + [r], expected, at + [|records|],
                    events + [DeletionEvent(BucketIdOf(r.key), r.key, r.eventName)])
  {
    hide Wanted, BucketIdOf;
    forall k: nat | k < |records + [r]|
      ensures k in at + [|records|] <==> Wanted((records + [r])[k], expected)
    {
      assert k in at + [|records|] <==> k in at || k == |records|;
    }
  }

  lemma OneMoreUnwanted(records: seq<Record>, expected: string, at: seq<nat>, events: seq<DeletionEvent>, r: Record)
    requires InOrder(records, expected, at, events) && !Wanted(r, expected)
    ensures InOrder(records + [r], expected, at, events)
  {
    hide Wanted, BucketIdOf;
  }

  lemma {:induction false} ParsedInOrder(records: seq<Record>, expected: string) returns (at: seq<nat>)
    ensures InOrder(records, expected, at, ParsedDeletions(records, expected))
    decreases |records|
  {
    at := [];
    if records != [] {
      hide BucketIdOf, InOrder;
      var init, last := records[..|records| - 1], records[|records| - 1];
      at := ParsedInOrder(init, expected);
      assert init + [last] == records;
      if Wanted(last, expected) {
        OneMoreWanted(init, expected, at, ParsedDeletions(init, expected), last);
        at := at + [|init|];
      } else {
        OneMoreUnwanted(init, expected, at, ParsedDeletions(init, expected), last);
      }
    }
  }

  method ParseBucketDeletionEvents(records: seq<Record>, expected: string)
    returns (events: seq<DeletionEvent>, acked: bool)
    ensures events == ParsedDeletions(records, expected)
    ensures acked <==> events != []
  {
    events := [];
    for i := 0 to |records|
      invariant events == ParsedDeletions(records[..i], expected)
    {
      assert records[..i + 1][..i] == records[..i];
      var r := records[i];
      if r.bucketName == expected {
        var id := BucketIdOf(r.key);
        if id != "" {
          events := events + [DeletionEvent(id, r.key, r.eventName)];
        }
      }
    }
    assert records[..|records|] == records;
    acked := |events| > 0;
  }

  // The notice about a marker reaches the expiration handler of its bucket with its id.
  lemma {:induction false} MarkerNoticesArrive(records: seq<Record>, expected: string, i: nat,
                                               bucket: string, id: string, kind: Kind)
    requires i < |records| && records[i].bucketName == expected && Plain(bucket) && Plain(id)
    requires records[i].key == MarkerPath(ObjectPath(bucket, id), kind)
    ensures exists e :: e in ParsedDeletions(records, expected) && e.bucketId == bucket
                        && ParseObjectPath(e.bucketId, e.objectKey) == Parsed(MarkerOf(ObjectPath(bucket, id)), id, id)
    decreases |records|
  {
    hide ParseObjectPath, MarkerPath, ObjectPath, BucketIdOf;
    MarkerRoundTrip(bucket, id, kind);
    var last := |records| - 1;
    if i == last {
      assert Plain(bucket);
      var e := DeletionEvent(BucketIdOf(records[i].key), records[i].key, records[i].eventName);
      assert e in ParsedDeletions(records, expected);
    } else {
      MarkerNoticesArrive(records[..last], expected, i, bucket, id, kind);
      var e :| e in ParsedDeletions(records[..last], expected) && e.bucketId == bucket
               && ParseObjectPath(e.bucketId, e.objectKey) == Parsed(MarkerOf(ObjectPath(bucket, id)), id, id);
      assert e in ParsedDeletions(records, expected);
    }
  }
}
