// internal/activity/helpers.go: filling in the objects that activity logs refer to, with a cache.
module Activity {
  import opened Basics

  datatype Kind = User | Bucket | File | Folder

  // A row of one of the four tables, or the zero value when there is none.
  datatype Object = Object(kind: Kind, content: nat)

  // A value of a log; `parsed` is the uuid that the text spells, if it spells one.
  datatype Value = Text(text: string, parsed: Option<Id>) | Other(value: nat)

  // The entries user_id, bucket_id, file_id and folder_id, the entries user, bucket, file and
  // folder, and the other ones.
  datatype Log = Log(ids: map<Kind, Value>, objects: map<Kind, Object>, others: map<string, Value>)

  const KINDS := {User, Bucket, File, Folder}

  // The log names an object of this kind by id and does not carry it yet.
  predicate Refers(log: Log, k: Kind) {
    && k in log.ids && k !in log.objects
    && log.ids[k].Text? && log.ids[k].text != "" && log.ids[k].parsed.Some?
  }

  function IdIn(log: Log, k: Kind): Id
    requires Refers(log, k)
  {
    log.ids[k].parsed.value
  }

  // Every reference of these kinds is replaced by the row it names: enrichment without a cache.
  ghost function Enriched(db: (Kind, Id) -> Object, log: Log, kinds: set<Kind>): Log {
    log.(ids := map k | k in log.ids && !(k in kinds && Refers(log, k)) :: log.ids[k],
         objects := map k | k in log.objects.Keys + kinds && (k in log.objects || Refers(log, k)) ::
                      if k in log.objects then log.objects[k] else db(k, IdIn(log, k)))
  }

  // No id is referred to as two kinds of object.
  ghost predicate OneKindEach(logs: seq<Log>) {
    forall a, b, k, l :: a in logs && b in logs && Refers(a, k) && Refers(b, l) && IdIn(a, k) == IdIn(b, l) ==> k == l
  }

  // Every cached object is the row of the one kind under which these logs refer to its id.
  ghost predicate GoodCache(db: (Kind, Id) -> Object, logs: seq<Log>, cache: map<Id, Object>) {
    forall a, k :: a in logs && Refers(a, k) && IdIn(a, k) in cache ==> cache[IdIn(a, k)] == db(k, IdIn(a, k))
  }

  // What enrichment is for, kind by kind: an entry that names an object by its id, and does not carry it
  // yet, is replaced by the row with that id; everything else stays.
  ghost predicate Filled(db: (Kind, Id) -> Object, log: Log, log': Log) {
    && log'.others == log.others
    && forall k: Kind ::
         if k in log.ids && k !in log.objects && log.ids[k].Text? && log.ids[k].text != ""
           && log.ids[k].parsed.Some? then
           k !in log'.ids && k in log'.objects && log'.objects[k] == db(k, log.ids[k].parsed.value)
         else
           && (k in log'.ids <==> k in log.ids) && (k in log.ids ==> log'.ids[k] == log.ids[k])
           && (k in log'.objects <==> k in log.objects) && (k in log.objects ==> log'.objects[k] == log.objects[k])
  }

  lemma EnrichedIsFilled(db: (Kind, Id) -> Object, log: Log)
    ensures Filled(db, log, Enriched(db, log, KINDS))
  {
    forall k: Kind
      ensures k in KINDS
    {
      match k
      case User =>
      case Bucket =>
      case File =>
      case Folder =>
    }
  }

  lemma OneMoreKind(db: (Kind, Id) -> Object, log: Log, kinds: set<Kind>, k: Kind)
    requires k !in kinds
    ensures var current := Enriched(db, log, kinds);
            && (Refers(current, k) <==> Refers(log, k))
            && (Refers(log, k) ==> IdIn(current, k) == IdIn(log, k))
            && Enriched(db, log, kinds + {k}) ==
               if Refers(log, k) then
                 current.(ids := current.ids - {k}, objects := current.objects[k := db(k, IdIn(log, k))])
               else current
  {
    IdsOneMore(db, log, kinds, k);
    ObjectsOneMore(db, log, kinds, k);
    assert k in log.ids ==> k in Enriched(db, log, kinds).ids;
    hide Refers;
  }

  lemma IdsOneMore(db: (Kind, Id) -> Object, log: Log, kinds: set<Kind>, k: Kind)
    ensures Enriched(db, log, kinds + {k}).ids
            == if Refers(log, k) then Enriched(db, log, kinds).ids - {k} else Enriched(db, log, kinds).ids
  {
    hide Refers;
  }

  lemma ObjectsOneMore(db: (Kind, Id) -> Object, log: Log, kinds: set<Kind>, k: Kind)
    ensures Enriched(db, log, kinds + {k}).objects
            == if Refers(log, k) then Enriched(db, log, kinds).objects[k := db(k, IdIn(log, k))]
               else Enriched(db, log, kinds).objects
    ensures k !in kinds ==> (k in Enriched(db, log, kinds).objects <==> k in log.objects)
  {
    assert Refers(log, k) ==> k !in log.objects;
    hide Refers, IdIn;
  }

  method EnrichLogWithDatabase(db: (Kind, Id) -> Object, ghost logs: seq<Log>, log: Log, cache: map<Id, Object>)
    returns (newLog: Log, cache': map<Id, Object>)
    requires log in logs && OneKindEach(logs) && GoodCache(db, logs, cache)
    ensures newLog == Enriched(db, log, KINDS) && GoodCache(db, logs, cache')
  {
    newLog, cache' := log, cache;
    var left := KINDS;
    // The order of a map is arbitrary.
    while left != {}
      invariant left <= KINDS && newLog == Enriched(db, log, KINDS - left) && GoodCache(db, logs, cache')
      decreases left
    {
      var k :| k in left;
      OneMoreKind(db, log, KINDS - left, k);
      assert KINDS - left + {k} == KINDS - (left - {k});
      left := left - {k};
      if Refers(newLog, k) {
        var id := IdIn(newLog, k);
        if id !in cache' {
          cache' := cache'[id := db(k, id)];
        }
        newLog := newLog.(ids := newLog.ids - {k}, objects := newLog.objects[k := cache'[id]]);
      }
    }
    assert KINDS - left == KINDS;
  }

  // Every log comes out as it would without the cache.
  method EnrichActivity(db: (Kind, Id) -> Object, logs: seq<Log>) returns (enriched: seq<Log>)
    requires OneKindEach(logs)
    ensures |enriched| == |logs|
    ensures forall i :: 0 <= i < |logs| ==> Filled(db, logs[i], enriched[i])
  {
    enriched := [];
    var cache: map<Id, Object> := map[];
    assert GoodCache(db, logs, cache);
    hide Enriched, OneKindEach, GoodCache, Filled;
    for i := 0 to |logs|
      invariant |enriched| == i && GoodCache(db, logs, cache)
      invariant forall j :: 0 <= j < i ==> Filled(db, logs[j], enriched[j])
    {
      var log;
      log, cache := EnrichLogWithDatabase(db, logs, logs[i], cache);
      EnrichedIsFilled(db, logs[i]);
      enriched := enriched + [log];
    }
  }
}
