// web/src/components/upload/components/DragDropZone.tsx: a dropped directory tree is flattened to
// files with paths, its folders are created on the server, and each file is sent to its folder.
module DragDrop {
  import opened Basics
  import opened Strings

  datatype Entry = FileEntry(name: string) | DirectoryEntry(name: string, children: seq<Entry>)

  datatype FileWithPath = FileWithPath(name: string, relativePath: string)

  // A name that the file system of a browser can show.
  predicate GoodName(name: string) {
    name != "" && '/' !in name
  }

  predicate GoodNames(names: seq<string>) {
    forall i :: 0 <= i < |names| ==> GoodName(names[i])
  }

  predicate GoodEntry(e: Entry) {
    GoodName(e.name) && (e.DirectoryEntry? ==> forall c :: c in e.children ==> GoodEntry(c))
  }

  // ----- flattening

  // A file and the names of the directories above it, outermost first.
  datatype Place = Place(name: string, dirs: seq<string>)

  function Places(e: Entry, dirs: seq<string>): seq<Place>
    decreases e, 0
  {
    match e
    case FileEntry(name) => [Place(name, dirs)]
    case DirectoryEntry(name, children) => PlacesOfAll(children, dirs + [name])
  }

  function PlacesOfAll(es: seq<Entry>, dirs: seq<string>): seq<Place>
    decreases es
  {
    if es == [] then [] else PlacesOfAll(es[..|es| - 1], dirs) + Places(es[|es| - 1], dirs)
  }

  // How often a file of this name sits in these directories, one inside the other, of the tree.
  function Occurrences(es: seq<Entry>, dirs: seq<string>, name: string): nat
    decreases |dirs|, |es|
  {
    if es == [] then 0
    else
      var e := es[|es| - 1];
      Occurrences(es[..|es| - 1], dirs, name)
      + if dirs == [] then (if e == FileEntry(name) then 1 else 0)
        else if e.DirectoryEntry? && e.name == dirs[0] then Occurrences(e.children, dirs[1..], name)
        else 0
  }

  // The files of the tree, each where it sits and no other.
  ghost predicate Listing(es: seq<Entry>, places: seq<Place>) {
    forall name, dirs :: multiset(places)[Place(name, dirs)] == Occurrences(es, dirs, name)
  }

  lemma {:induction false} PlacesStart(e: Entry, base: seq<string>)
    ensures forall p :: p in Places(e, base) ==> base <= p.dirs
    ensures e.DirectoryEntry? ==> forall p :: p in Places(e, base) ==> base + [e.name] <= p.dirs
    decreases e, 0
  {
    if e.DirectoryEntry? {
      PlacesOfAllStart(e.children, base + [e.name]);
      forall p | p in Places(e, base)
        ensures base <= p.dirs
      {
        assert base + [e.name] <= p.dirs;
        assert p.dirs[..|base| + 1] == base + [e.name] && p.dirs[..|base| + 1][..|base|] == p.dirs[..|base|];
      }
    }
  }

  lemma {:induction false} PlacesOfAllStart(es: seq<Entry>, base: seq<string>)
    ensures forall p :: p in PlacesOfAll(es, base) ==> base <= p.dirs
    decreases es
  {
    if es != [] {
      PlacesOfAllStart(es[..|es| - 1], base);
      PlacesStart(es[|es| - 1], base);
    }
  }

  lemma {:induction false} PlacesCount(es: seq<Entry>, base: seq<string>, dirs: seq<string>, name: string)
    ensures multiset(PlacesOfAll(es, base))[Place(name, base + dirs)] == Occurrences(es, dirs, name)
    decreases es
  {
    if es != [] {
      var init, e := es[..|es| - 1], es[|es| - 1];
      PlacesCount(init, base, dirs, name);
      OneEntryCount(e, base, dirs, name);
      assert multiset(PlacesOfAll(init, base) + Places(e, base))
          == multiset(PlacesOfAll(init, base)) + multiset(Places(e, base));
    }
  }

  lemma {:induction false} OneEntryCount(e: Entry, base: seq<string>, dirs: seq<string>, name: string)
    ensures multiset(Places(e, base))[Place(name, base + dirs)] ==
            if dirs == [] then (if e == FileEntry(name) then 1 else 0)
            else if e.DirectoryEntry? && e.name == dirs[0] then Occurrences(e.children, dirs[1..], name)
            else 0
    decreases e, 0
  {
    var place := Place(name, base + dirs);
    match e
    case FileEntry(n) =>
      assert place.dirs == base <==> |dirs| == 0;
    case DirectoryEntry(n, children) =>
      if dirs != [] && n == dirs[0] {
        PlacesCount(children, base + [n], dirs[1..], name);
        assert base + [n] + dirs[1..] == base + dirs;
      } else {
        assert (base + [n])[|base|] == n && (dirs != [] ==> place.dirs[|base|] == dirs[0]);
        NotThere(e, base, place);
      }
  }

  // A file of a directory has the name of the directory in its place.
  lemma NotThere(e: Entry, base: seq<string>, place: Place)
    requires e.DirectoryEntry? && !(base + [e.name] <= place.dirs)
    ensures multiset(Places(e, base))[place] == 0
  {
    PlacesStart(e, base);
    hide Places;
    assert place !in Places(e, base);
  }

  // What the flattening lists is what is in the tree, with every file as often as it is there.
  lemma PlacesAreTheFiles(es: seq<Entry>)
    ensures Listing(es, PlacesOfAll(es, []))
  {
    forall name, dirs
      ensures multiset(PlacesOfAll(es, []))[Place(name, dirs)] == Occurrences(es, dirs, name)
    {
      PlacesCount(es, [], dirs, name);
      assert [] + dirs == dirs;
    }
  }

  // And it is in the order of the tree.
  lemma {:induction false} PlacesInOrder(a: seq<Entry>, b: seq<Entry>, dirs: seq<string>)
    ensures PlacesOfAll(a + b, dirs) == PlacesOfAll(a, dirs) + PlacesOfAll(b, dirs)
    decreases |b|
  {
    if b == [] {
      assert a + b == a;
    } else {
      assert (a + b)[..|a + b| - 1] == a + b[..|b| - 1];
      PlacesInOrder(a, b[..|b| - 1], dirs);
    }
  }

  function WithPaths(places: seq<Place>): seq<FileWithPath> {
    seq(|places|, i requires 0 <= i < |places| => FileWithPath(places[i].name, JoinParts(places[i].dirs)))
  }

  lemma WithPathsOfSum(a: seq<Place>, b: seq<Place>)
    ensures WithPaths(a + b) == WithPaths(a) + WithPaths(b)
  {
  }

  lemma {:induction false} JoinLonger(names: seq<string>, name: string)
    requires GoodNames(names)
    ensures JoinParts(names + [name]) == if JoinParts(names) == "" then name else JoinParts(names) + "/" + name
    ensures JoinParts(names) == "" <==> names == []
    decreases |names|
  {
    if names == [] {
      assert names + [name] == [name];
    } else {
      assert GoodName(names[0]);
      assert (names + [name])[1..] == names[1..] + [name];
      JoinLonger(names[1..], name);
    }
  }

  method ProcessDirectoryEntry(e: Entry, currentPath: string, ghost dirs: seq<string>)
    returns (files: seq<FileWithPath>)
    requires GoodEntry(e) && GoodNames(dirs) && currentPath == JoinParts(dirs)
    ensures files == WithPaths(Places(e, dirs))
    decreases e
  {
    match e {
      case FileEntry(name) => files := [FileWithPath(name, currentPath)];
      case DirectoryEntry(name, children) =>
        var newPath := if currentPath != "" then currentPath + "/" + name else name;
        JoinLonger(dirs, name);
        files := [];
        for i := 0 to |children|
          invariant files == WithPaths(PlacesOfAll(children[..i], dirs + [name]))
        {
          var childFiles := ProcessDirectoryEntry(children[i], newPath, dirs + [name]);
          files := files + childFiles;
          assert children[..i + 1][..i] == children[..i];
          WithPathsOfSum(PlacesOfAll(children[..i], dirs + [name]), Places(children[i], dirs + [name]));
        }
        assert children[..|children|] == children;
    }
  }

  // ----- the folders to create

  function Depth(path: string): nat {
    |Split(path)|
  }

  // `path` names the first k directories of a file.
  ghost predicate IsPrefixOf(path: string, f: FileWithPath, k: nat) {
    f.relativePath != "" && 1 <= k <= |Split(f.relativePath)| && path == JoinParts(Split(f.relativePath)[..k])
  }

  ghost predicate IsFolderOf(path: string, f: FileWithPath) {
    exists k :: IsPrefixOf(path, f, k)
  }

  // The path of a file of a dropped tree.
  ghost predicate GoodPath(path: string) {
    exists names :: GoodNames(names) && path == JoinParts(names)
  }

  lemma PartsOf(path: string)
    requires GoodPath(path) && path != ""
    ensures GoodNames(Split(path)) && JoinParts(Split(path)) == path
  {
    var names :| GoodNames(names) && path == JoinParts(names);
    SplitJoined(names);
  }

  ghost predicate IsShortPrefixOf(path: string, f: FileWithPath, k: nat) {
    exists j: nat :: j <= k && IsPrefixOf(path, f, j)
  }

  lemma NextPrefix(f: FileWithPath, k: nat)
    requires f.relativePath != "" && k < |Split(f.relativePath)|
    ensures forall p :: !IsShortPrefixOf(p, f, 0)
    ensures forall p :: IsShortPrefixOf(p, f, k + 1) <==>
                        IsShortPrefixOf(p, f, k) || p == JoinParts(Split(f.relativePath)[..k + 1])
    ensures forall p :: IsShortPrefixOf(p, f, |Split(f.relativePath)|) <==> IsFolderOf(p, f)
  {
    hide Split, JoinParts;
    forall p
      ensures IsShortPrefixOf(p, f, k + 1) <==>
                IsShortPrefixOf(p, f, k) || p == JoinParts(Split(f.relativePath)[..k + 1])
    {
      if p == JoinParts(Split(f.relativePath)[..k + 1]) {
        assert IsPrefixOf(p, f, k + 1);
      }
    }
    forall p | IsFolderOf(p, f)
      ensures IsShortPrefixOf(p, f, |Split(f.relativePath)|)
    {
      var j :| IsPrefixOf(p, f, j);
    }
  }

  // `longer` is `paths` with the first k prefixes of the file.
  ghost predicate HoldsPrefixes(longer: seq<string>, paths: seq<string>, f: FileWithPath, k: nat) {
    NoRepeats(longer) && forall p :: p in longer <==> p in paths || IsShortPrefixOf(p, f, k)
  }

  lemma OneMorePrefix(longer: seq<string>, paths: seq<string>, f: FileWithPath, k: nat, path: string)
    requires HoldsPrefixes(longer, paths, f, k) && f.relativePath != "" && k < |Split(f.relativePath)|
    requires path == JoinParts(Split(f.relativePath)[..k + 1])
    ensures HoldsPrefixes(if path in longer then longer else longer + [path], paths, f, k + 1)
  {
    NextPrefix(f, k);
    hide Split, JoinParts, IsShortPrefixOf;
  }

  method AddPrefixes(f: FileWithPath, paths: seq<string>) returns (longer: seq<string>)
    requires GoodPath(f.relativePath) && NoRepeats(paths)
    ensures NoRepeats(longer)
    ensures forall p :: p in longer <==> p in paths || IsFolderOf(p, f)
  {
    longer := paths;
    if f.relativePath == "" {
      return;
    }
    var pathParts := Split(f.relativePath);
    PartsOf(f.relativePath);
    NextPrefix(f, 0);
    JoinNothing();
    var currentPath := "";
    assert HoldsPrefixes(longer, paths, f, 0);
    hide Split, JoinParts, HoldsPrefixes, IsFolderOf, IsShortPrefixOf, GoodNames;
    for k := 0 to |pathParts|
      invariant currentPath == JoinParts(pathParts[..k])
      invariant HoldsPrefixes(longer, paths, f, k)
    {
      NextPath(pathParts, k);
      currentPath := if currentPath != "" then currentPath + "/" + pathParts[k] else pathParts[k];
      OneMorePrefix(longer, paths, f, k, currentPath);
      if currentPath !in longer {
        longer := longer + [currentPath];
      }
    }
    HeldPrefixes(longer, paths, f);
  }

  lemma HeldPrefixes(longer: seq<string>, paths: seq<string>, f: FileWithPath)
    requires f.relativePath != "" && HoldsPrefixes(longer, paths, f, |Split(f.relativePath)|)
    ensures NoRepeats(longer) && forall p :: p in longer <==> p in paths || IsFolderOf(p, f)
  {
    NextPrefix(f, 0);
    hide Split, IsFolderOf, IsShortPrefixOf;
  }

  lemma NextPath(parts: seq<string>, k: nat)
    requires GoodNames(parts) && k < |parts|
    ensures var before := JoinParts(parts[..k]);
            JoinParts(parts[..k + 1]) == if before != "" then before + "/" + parts[k] else parts[k]
  {
    assert parts[..k + 1] == parts[..k] + [parts[k]];
    JoinLonger(parts[..k], parts[k]);
  }

  lemma JoinNothing()
    ensures JoinParts([]) == ""
  {
  }

  predicate ByDepth(paths: seq<string>) {
    forall i, j :: 0 <= i <= j < |paths| ==> Depth(paths[i]) <= Depth(paths[j])
  }

  lemma NothingByDepth()
    ensures ByDepth([])
  {
  }

  lemma Inserted(sorted: seq<string>, j: nat, path: string)
    requires ByDepth(sorted) && NoRepeats(sorted) && path !in sorted && j <= |sorted|
    requires j > 0 ==> Depth(sorted[j - 1]) <= Depth(path)
    requires j < |sorted| ==> Depth(path) <= Depth(sorted[j])
    ensures var longer := sorted[..j] + [path] + sorted[j..];
            ByDepth(longer) && NoRepeats(longer) && forall p :: p in longer <==> p in sorted || p == path
  {
    hide Depth;
    InsertedOnce(sorted, j, path);
  }

  lemma InsertedOnce<T>(s: seq<T>, j: nat, x: T)
    requires NoRepeats(s) && x !in s && j <= |s|
    ensures var longer := s[..j] + [x] + s[j..];
            NoRepeats(longer) && forall y :: y in longer <==> y in s || y == x
  {
    assert s == s[..j] + s[j..];
  }

  // Array.sort with the comparison of depths.
  method SortByDepth(paths: seq<string>) returns (sorted: seq<string>)
    requires NoRepeats(paths)
    ensures ByDepth(sorted) && NoRepeats(sorted)
    ensures forall p :: p in sorted <==> p in paths
  {
    hide Depth, ByDepth;
    sorted := [];
    NothingByDepth();
    for i := 0 to |paths|
      invariant ByDepth(sorted) && NoRepeats(sorted)
      invariant forall p :: p in sorted <==> p in paths[..i]
    {
      assert paths[..i + 1] == paths[..i] + [paths[i]];
      var j := |sorted|;
      while j > 0 && Depth(sorted[j - 1]) > Depth(paths[i])
        invariant 0 <= j <= |sorted|
        invariant j < |sorted| ==> Depth(paths[i]) <= Depth(sorted[j])
      {
        j := j - 1;
      }
      Inserted(sorted, j, paths[i]);
      sorted := sorted[..j] + [paths[i]] + sorted[j..];
    }
    assert paths[..|paths|] == paths;
  }

  // Every directory that a file sits in, at any depth, once, and parents before their children.
  method ExtractFolderPaths(files: seq<FileWithPath>) returns (paths: seq<string>)
    requires forall f :: f in files ==> GoodPath(f.relativePath)
    ensures NoRepeats(paths) && ByDepth(paths)
    ensures forall p :: p in paths <==> exists f :: f in files && IsFolderOf(p, f)
  {
    paths := [];
    for i := 0 to |files|
      invariant NoRepeats(paths)
      invariant forall p :: p in paths <==> exists f :: f in files[..i] && IsFolderOf(p, f)
    {
      assert files[..i + 1] == files[..i] + [files[i]];
      assert files[i] in files;
      paths := AddPrefixes(files[i], paths);
    }
    assert files[..|files|] == files;
    paths := SortByDepth(paths);
  }

  // ----- creating them

  datatype FolderRow = FolderRow(name: string, parent: Option<Id>)

  // A folder with this name is there.
  predicate HasFolder(folders: map<Id, FolderRow>, parent: Option<Id>, name: string) {
    exists i :: i in folders && folders[i] == FolderRow(name, parent)
  }

  predicate IsThere(folders: map<Id, FolderRow>, parent: Option<Id>) {
    parent.Some? ==> parent.value in folders
  }

  // internal/services/bucket_folder.go, on the live folders of the bucket, whose parents may be in the trash.
  class FolderServer {
    var folders: map<Id, FolderRow>
    var next: Id

    ghost predicate Valid()
      reads this
    {
      forall i :: i in folders ==> i < next && (folders[i].parent.Some? ==> folders[i].parent.value < next)
    }

    // `lost` stands for a request that fails for any other reason.
    method CreateFolder(name: string, parent: Option<Id>, lost: bool) returns (id: Option<Id>)
      requires Valid()
      modifies this
      ensures Valid()
      ensures id.None? <==> lost || !IsThere(old(folders), parent) || HasFolder(old(folders), parent, name)
      ensures id.None? ==> folders == old(folders) && next == old(next)
      ensures id.Some? ==> id.value == old(next) && next == old(next) + 1
                           && folders == old(folders)[id.value := FolderRow(name, parent)]
    {
      if lost || !IsThere(folders, parent) || HasFolder(folders, parent, name) {
        return None;
      }
      id := Some(next);
      folders := folders[next := FolderRow(name, parent)];
      next := next + 1;
    }
  }

  // Following the parent links from `id` spells `parts` backwards through folders that were not
  // there before, and then reaches `top`.
  ghost predicate Leads(before: map<Id, FolderRow>, now: map<Id, FolderRow>, id: Option<Id>, top: Option<Id>,
                        parts: seq<string>)
    decreases |parts|
  {
    if parts == [] then id == top
    else
      && id.Some? && id.value in now && id.value !in before
      && now[id.value].name == parts[|parts| - 1]
      && Leads(before, now, now[id.value].parent, top, parts[..|parts| - 1])
  }

  lemma {:induction false} LeadsStill(before: map<Id, FolderRow>, now: map<Id, FolderRow>, later: map<Id, FolderRow>,
                                      id: Option<Id>, top: Option<Id>, parts: seq<string>)
    requires Leads(before, now, id, top, parts)
    requires forall i :: i in now ==> i in later && later[i] == now[i]
    ensures Leads(before, later, id, top, parts)
    decreases |parts|
  {
    if parts != [] {
      LeadsStill(before, now, later, now[id.value].parent, top, parts[..|parts| - 1]);
    }
  }

  function ParentPath(path: string): string {
    JoinParts(Split(path)[..|Split(path)| - 1])
  }

  // What extractFolderPaths promises to createFolders.
  ghost predicate FolderPaths(paths: seq<string>) {
    && NoRepeats(paths) && ByDepth(paths)
    && forall p :: p in paths ==> p != "" && GoodPath(p) && (ParentPath(p) == "" || ParentPath(p) in paths)
  }

  lemma FolderPathsOf(files: seq<FileWithPath>, paths: seq<string>)
    requires forall f :: f in files ==> GoodPath(f.relativePath)
    requires NoRepeats(paths) && ByDepth(paths)
    requires forall p :: p in paths <==> exists f :: f in files && IsFolderOf(p, f)
    ensures FolderPaths(paths)
  {
    forall p | p in paths
      ensures p != "" && GoodPath(p) && (ParentPath(p) == "" || ParentPath(p) in paths)
    {
      var f :| f in files && IsFolderOf(p, f);
      var k :| IsPrefixOf(p, f, k);
      FolderPathOf(p, f, k);
    }
  }

  lemma ItsPath(names: seq<string>)
    requires GoodNames(names)
    ensures GoodPath(JoinParts(names))
  {
  }

  lemma APrefixIsAFolder(p: string, f: FileWithPath, k: nat)
    requires IsPrefixOf(p, f, k)
    ensures IsFolderOf(p, f)
  {
  }

  lemma FolderPathOf(p: string, f: FileWithPath, k: nat)
    requires GoodPath(f.relativePath) && IsPrefixOf(p, f, k)
    ensures p != "" && GoodPath(p) && (ParentPath(p) == "" || IsFolderOf(ParentPath(p), f))
  {
    hide Split, JoinParts, GoodPath, IsFolderOf;
    PartsOf(f.relativePath);
    var parts := Split(f.relativePath);
    var names := parts[..k];
    assert GoodNames(names);
    SplitJoined(names);
    JoinLonger(names, "x");
    JoinNothing();
    assert Split(p) == names;
    assert names[..k - 1] == parts[..k - 1];
    ItsPath(names);
    if k > 1 {
      assert IsPrefixOf(ParentPath(p), f, k - 1);
      APrefixIsAFolder(ParentPath(p), f, k - 1);
    }
  }

  // The parent of a folder stands before it in the list.
  lemma ParentFirst(paths: seq<string>, i: nat)
    requires FolderPaths(paths) && i < |paths|
    ensures ParentPath(paths[i]) == "" || ParentPath(paths[i]) in paths[..i]
  {
    var p, parent := paths[i], ParentPath(paths[i]);
    assert p in paths;
    if parent != "" {
      PartsOf(p);
      assert GoodNames(Split(p)[..|Split(p)| - 1]);
      JoinNothing();
      SplitJoined(Split(p)[..|Split(p)| - 1]);
      assert Depth(parent) == Depth(p) - 1;
      var j :| 0 <= j < |paths| && paths[j] == parent;
      assert j < i;
    }
  }

  // The folder of some path.
  ghost predicate IsMapped(ids: map<string, Option<Id>>, i: Id) {
    exists p :: p in ids && p != "" && ids[p] == Some(i)
  }

  // There is one new folder for each path, and no other.
  ghost predicate OneForEach(before: map<Id, FolderRow>, now: map<Id, FolderRow>, ids: map<string, Option<Id>>) {
    && (forall i :: i in before ==> i in now && now[i] == before[i])
    && (forall i :: i in now && i !in before ==> IsMapped(ids, i))
    && (forall p, q :: p in ids && q in ids && p != "" && q != "" && ids[p] == ids[q] ==> p == q)
  }

  // The folders of these paths are there, each in the right place, and no others.
  ghost predicate Created(before: map<Id, FolderRow>, now: map<Id, FolderRow>, top: Option<Id>, paths: seq<string>,
                          ids: map<string, Option<Id>>) {
    && OneForEach(before, now, ids)
    && "" in ids && ids[""] == top
    && (forall p :: p in ids <==> p == "" || p in paths)
    && (forall p :: p in ids && p != "" ==> Leads(before, now, ids[p], top, Split(p)))
  }

  lemma CreatedOneMore(before: map<Id, FolderRow>, now: map<Id, FolderRow>, top: Option<Id>, paths: seq<string>,
                       ids: map<string, Option<Id>>, path: string, id: Id)
    requires Created(before, now, top, paths, ids) && id !in now && path !in paths && path != "" && GoodPath(path)
    requires ParentPath(path) == "" || ParentPath(path) in paths
    ensures ParentPath(path) in ids
    ensures Created(before, now[id := FolderRow(Split(path)[|Split(path)| - 1], ids[ParentPath(path)])], top,
                    paths + [path], ids[path := Some(id)])
  {
    hide Split, JoinParts, ParentPath, GoodPath, OneForEach, Leads;
    var row := FolderRow(Split(path)[|Split(path)| - 1], ids[ParentPath(path)]);
    NewLeads(before, now, top, paths, ids, path, id);
    LeadOneMore(before, now, top, paths, ids, path, id, row);
    OneForOneMore(before, now, ids, path, id, row);
  }

  lemma LeadOneMore(before: map<Id, FolderRow>, now: map<Id, FolderRow>, top: Option<Id>, paths: seq<string>,
                    ids: map<string, Option<Id>>, path: string, id: Id, row: FolderRow)
    requires Created(before, now, top, paths, ids) && id !in now && path !in ids
    requires Leads(before, now[id := row], Some(id), top, Split(path))
    ensures forall p :: p in ids && p != "" ==> ids[p].Some? && ids[p].value in now
    ensures var ids' := ids[path := Some(id)];
            forall p :: p in ids' && p != "" ==> Leads(before, now[id := row], ids'[p], top, Split(p))
  {
    hide Split, OneForEach, Leads;
    forall p | p in ids && p != ""
      ensures Leads(before, now[id := row], ids[p], top, Split(p)) && ids[p].Some? && ids[p].value in now
    {
      LeadsStill(before, now, now[id := row], ids[p], top, Split(p));
      MappedIsThere(before, now, top, paths, ids, p);
    }
  }

  lemma OneForOneMore(before: map<Id, FolderRow>, now: map<Id, FolderRow>, ids: map<string, Option<Id>>,
                      path: string, id: Id,
                      row: FolderRow)
    requires OneForEach(before, now, ids) && id !in now && path !in ids && path != ""
    requires forall p :: p in ids && p != "" ==> ids[p].Some? && ids[p].value in now
    ensures OneForEach(before, now[id := row], ids[path := Some(id)])
  {
    var ids' := ids[path := Some(id)];
    assert path in ids' && ids'[path] == Some(id);
    forall i | i in now && i !in before
      ensures IsMapped(ids', i)
    {
      var p :| p in ids && p != "" && ids[p] == Some(i);
      assert p in ids' && ids'[p] == Some(i);
    }
  }

  lemma MappedIsThere(before: map<Id, FolderRow>, now: map<Id, FolderRow>, top: Option<Id>, paths: seq<string>,
                      ids: map<string, Option<Id>>, p: string)
    requires Created(before, now, top, paths, ids) && p in ids && p != ""
    ensures ids[p].Some? && ids[p].value in now
  {
    assert Leads(before, now, ids[p], top, Split(p));
  }

  lemma NewLeads(before: map<Id, FolderRow>, now: map<Id, FolderRow>, top: Option<Id>, paths: seq<string>,
                 ids: map<string, Option<Id>>, path: string, id: Id)
    requires Created(before, now, top, paths, ids) && id !in now && path != "" && GoodPath(path)
    requires ParentPath(path) in ids
    ensures Leads(before, now[id := FolderRow(Split(path)[|Split(path)| - 1], ids[ParentPath(path)])], Some(id), top,
                  Split(path))
  {
    var parent := ParentPath(path);
    var later := now[id := FolderRow(Split(path)[|Split(path)| - 1], ids[parent])];
    ParentParts(path);
    var init := Split(path)[..|Split(path)| - 1];
    hide Split, JoinParts, ParentPath, GoodPath;
    assert Leads(before, now, ids[parent], top, init);
    LeadsStill(before, now, later, ids[parent], top, init);
  }

  lemma ParentParts(path: string)
    requires GoodPath(path) && path != ""
    ensures ParentPath(path) == "" ==> Split(path)[..|Split(path)| - 1] == []
    ensures ParentPath(path) != "" ==> Split(ParentPath(path)) == Split(path)[..|Split(path)| - 1]
  {
    hide Split, JoinParts, GoodPath;
    PartsOf(path);
    var init := Split(path)[..|Split(path)| - 1];
    assert GoodNames(init);
    JoinLonger(init, "x");
    if init != [] {
      SplitJoined(init);
    }
  }

  // ----- when the server refuses a folder

  // Chains of new folders that start alike spell the same path.
  lemma {:induction false} LeadsOnce(before: map<Id, FolderRow>, now: map<Id, FolderRow>, id: Option<Id>,
                                     top: Option<Id>, a: seq<string>, b: seq<string>)
    requires IsThere(before, top) && Leads(before, now, id, top, a) && Leads(before, now, id, top, b)
    ensures a == b
    decreases |a|
  {
    if a != [] && b != [] {
      LeadsOnce(before, now, now[id.value].parent, top, a[..|a| - 1], b[..|b| - 1]);
      assert a == a[..|a| - 1] + [a[|a| - 1]] && b == b[..|b| - 1] + [b[|b| - 1]];
    }
  }

  // No folder created so far stands where `path` is to go.
  lemma NoneInTheWay(before: map<Id, FolderRow>, now: map<Id, FolderRow>, top: Option<Id>, paths: seq<string>,
                     ids: map<string, Option<Id>>, path: string, i: Id)
    requires Created(before, now, top, paths, ids) && IsThere(before, top) && i in now && i !in before
    requires path != "" && GoodPath(path) && ParentPath(path) in ids && path !in paths
    requires forall p :: p in paths ==> p != "" && GoodPath(p)
    ensures now[i] != FolderRow(Split(path)[|Split(path)| - 1], ids[ParentPath(path)])
  {
    var q := PathOf(before, now, top, paths, ids, i);
    ParentLeads(before, now, top, paths, ids, path);
    PartsOf(path);
    PartsOf(q);
    hide Split, JoinParts, ParentPath, GoodPath, GoodNames, Created, Leads;
    if now[i] == FolderRow(Split(path)[|Split(path)| - 1], ids[ParentPath(path)]) {
      OneRowOnePath(before, now, top, i, Split(q), Split(path));
    }
  }

  lemma OneRowOnePath(before: map<Id, FolderRow>, now: map<Id, FolderRow>, top: Option<Id>, i: Id, a: seq<string>,
                      b: seq<string>)
    requires IsThere(before, top) && i in now && a != [] && b != [] && Leads(before, now, Some(i), top, a)
    requires now[i].name == b[|b| - 1] && Leads(before, now, now[i].parent, top, b[..|b| - 1])
    ensures a == b
  {
    LeadsOnce(before, now, now[i].parent, top, a[..|a| - 1], b[..|b| - 1]);
    assert a == a[..|a| - 1] + [a[|a| - 1]] && b == b[..|b| - 1] + [b[|b| - 1]];
  }

  lemma PathOf(before: map<Id, FolderRow>, now: map<Id, FolderRow>, top: Option<Id>, paths: seq<string>,
               ids: map<string, Option<Id>>, i: Id) returns (q: string)
    requires Created(before, now, top, paths, ids) && i in now && i !in before
    ensures q in paths && q != "" && Leads(before, now, Some(i), top, Split(q))
  {
    hide Leads, Split;
    assert IsMapped(ids, i);
    q :| q in ids && q != "" && ids[q] == Some(i);
  }

  lemma ParentLeads(before: map<Id, FolderRow>, now: map<Id, FolderRow>, top: Option<Id>, paths: seq<string>,
                    ids: map<string, Option<Id>>, path: string)
    requires Created(before, now, top, paths, ids) && path != "" && GoodPath(path) && ParentPath(path) in ids
    ensures Leads(before, now, ids[ParentPath(path)], top, Split(path)[..|Split(path)| - 1])
  {
    ParentParts(path);
    hide Split, ParentPath, GoodPath, OneForEach;
  }

  // The server looks for the parent and for a namesake; below the drop target these are the folders
  // that were there before, and below a new folder there is nothing in the way.
  lemma RefusedExactly(before: map<Id, FolderRow>, now: map<Id, FolderRow>, top: Option<Id>, paths: seq<string>,
                       ids: map<string, Option<Id>>, path: string, first: Id)
    requires Created(before, now, top, paths, ids) && IsThere(before, top)
    requires path != "" && GoodPath(path) && ParentPath(path) in ids && path !in paths
    requires forall p :: p in paths ==> p != "" && GoodPath(p)
    requires forall i :: i in before ==> i < first && (before[i].parent.Some? ==> before[i].parent.value < first)
    requires forall i :: i in now && i !in before ==> i >= first
    ensures IsThere(now, ids[ParentPath(path)])
    ensures HasFolder(now, ids[ParentPath(path)], Split(path)[|Split(path)| - 1])
            <==> ParentPath(path) == "" && HasFolder(before, top, path)
  {
    var parent, name := ids[ParentPath(path)], Split(path)[|Split(path)| - 1];
    if ParentPath(path) == "" {
      OnlyPart(path);
    } else {
      MappedIsThere(before, now, top, paths, ids, ParentPath(path));
      NewIsNotBefore(before, now, top, paths, ids, ParentPath(path));
    }
    hide Split, JoinParts, ParentPath, GoodPath, Leads;
    forall i | i in now && i !in before
      ensures now[i] != FolderRow(name, parent)
    {
      NoneInTheWay(before, now, top, paths, ids, path, i);
    }
    if HasFolder(before, top, path) {
      var i :| i in before && before[i] == FolderRow(path, top);
      assert i in now && now[i] == FolderRow(path, top);
    }
  }

  lemma NewIsNotBefore(before: map<Id, FolderRow>, now: map<Id, FolderRow>, top: Option<Id>, paths: seq<string>,
                       ids: map<string, Option<Id>>, p: string)
    requires Created(before, now, top, paths, ids) && p in ids && p != ""
    ensures ids[p].Some? && ids[p].value in now && ids[p].value !in before
  {
    assert Leads(before, now, ids[p], top, Split(p));
  }

  lemma OnlyPart(path: string)
    requires GoodPath(path) && path != "" && ParentPath(path) == ""
    ensures Split(path) == [path]
  {
    ParentParts(path);
    PartsOf(path);
    hide Split, GoodPath;
    var parts := Split(path);
    assert parts == parts[..|parts| - 1] + [parts[|parts| - 1]];
    assert JoinParts([parts[0]]) == parts[0];
  }

  // The server will accept all of these folders below `top`.
  ghost predicate Acceptable(before: map<Id, FolderRow>, top: Option<Id>, paths: seq<string>) {
    && (paths != [] ==> IsThere(before, top))
    && forall p :: p in paths && ParentPath(p) == "" ==> !HasFolder(before, top, p)
  }

  // Nothing is lost and the server accepts them all: exactly then there is one new folder for each.
  method CreateFolders(server: FolderServer, folderPaths: seq<string>, parentFolderId: Option<Id>, lost: string -> bool)
    returns (ok: bool, pathToId: map<string, Option<Id>>)
    requires server.Valid() && FolderPaths(folderPaths)
    modifies server
    ensures server.Valid()
    ensures ok <==>
            (forall p :: p in folderPaths ==> !lost(p))
            && Acceptable(old(server.folders), parentFolderId, folderPaths)
    ensures ok ==> Created(old(server.folders), server.folders, parentFolderId, folderPaths, pathToId)
  {
    hide Created, FolderPaths, GoodPath, ParentPath, Split, JoinParts, HasFolder, Acceptable;
    pathToId := map["" := parentFolderId];
    NothingCreated(server.folders, parentFolderId);
    NothingRefused(server.folders, parentFolderId);
    for i := 0 to |folderPaths|
      invariant server.Valid() && server.next >= old(server.next)
      invariant forall j :: j in server.folders && j !in old(server.folders) ==> j >= old(server.next)
      invariant forall p :: p in folderPaths[..i] ==> !lost(p)
      invariant Acceptable(old(server.folders), parentFolderId, folderPaths[..i])
      invariant Created(old(server.folders), server.folders, parentFolderId, folderPaths[..i], pathToId)
    {
      var folderPath := folderPaths[i];
      assert folderPaths[..i + 1] == folderPaths[..i] + [folderPath];
      assert folderPath in folderPaths;
      PathFacts(folderPaths, i);
      ParentFirst(folderPaths, i);
      var pathParts := Split(folderPath);
      var folderName := pathParts[|pathParts| - 1];
      var parentPath := JoinParts(pathParts[..|pathParts| - 1]);
      assert parentPath == ParentPath(folderPath) by {
        ParentPathIs(folderPath);
      }
      var parentId := if parentPath in pathToId then pathToId[parentPath] else None;
      ghost var now := server.folders;
      InTheMap(old(server.folders), now, parentFolderId, folderPaths[..i], pathToId, folderPath);
      ServerAnswer(old(server.folders), now, parentFolderId, folderPaths, i, pathToId, old(server.next));
      var created := server.CreateFolder(folderName, parentId, lost(folderPath));
      if created.None? {
        return false, pathToId;
      }
      CreatedOneMore(old(server.folders), now, parentFolderId, folderPaths[..i], pathToId, folderPath, created.value);
      pathToId := pathToId[folderPath := created];
    }
    assert folderPaths[..|folderPaths|] == folderPaths;
    ok := true;
  }

  lemma NothingRefused(before: map<Id, FolderRow>, top: Option<Id>)
    ensures Acceptable(before, top, [])
  {
  }

  lemma InTheMap(before: map<Id, FolderRow>, now: map<Id, FolderRow>, top: Option<Id>, paths: seq<string>,
                 ids: map<string, Option<Id>>, path: string)
    requires Created(before, now, top, paths, ids)
    ensures ParentPath(path) == "" || ParentPath(path) in paths ==> ParentPath(path) in ids
  {
  }

  // The next folder is accepted exactly when the list that ends with it is acceptable, and a list is
  // acceptable only if every shorter one is.
  lemma ServerAnswer(before: map<Id, FolderRow>, now: map<Id, FolderRow>, top: Option<Id>, paths: seq<string>, i: nat,
                     ids: map<string, Option<Id>>, first: Id)
    requires FolderPaths(paths) && i < |paths| && Created(before, now, top, paths[..i], ids)
    requires Acceptable(before, top, paths[..i]) && ParentPath(paths[i]) in ids
    requires forall j :: j in before ==> j < first && (before[j].parent.Some? ==> before[j].parent.value < first)
    requires forall j :: j in now && j !in before ==> j >= first
    ensures var path := paths[i];
            Acceptable(before, top, paths[..i + 1]) <==>
            IsThere(now, ids[ParentPath(path)])
            && !HasFolder(now, ids[ParentPath(path)], Split(path)[|Split(path)| - 1])
    ensures Acceptable(before, top, paths) ==> Acceptable(before, top, paths[..i + 1])
  {
    var path := paths[i];
    assert paths[..i + 1] == paths[..i] + [path];
    PathFacts(paths, i);
    assert forall p :: p in paths[..i] ==> p in paths;
    hide Split, ParentPath, GoodPath, HasFolder, ByDepth, NoRepeats;
    if IsThere(before, top) {
      RefusedExactly(before, now, top, paths[..i], ids, path, first);
    } else {
      ParentFirst(paths, 0);
      assert i == 0 && now == before;
    }
  }

  lemma NothingCreated(before: map<Id, FolderRow>, top: Option<Id>)
    ensures Created(before, before, top, [], map["" := top])
  {
  }

  lemma ParentPathIs(path: string)
    ensures ParentPath(path) == JoinParts(Split(path)[..|Split(path)| - 1])
  {
  }

  lemma PathFacts(paths: seq<string>, i: nat)
    requires FolderPaths(paths) && i < |paths|
    ensures paths[i] != "" && GoodPath(paths[i]) && paths[i] !in paths[..i]
  {
    assert paths[i] in paths;
  }

  // ----- the drop

  datatype Upload = Upload(name: string, folderId: Option<Id>)

  method ProcessDroppedItems(items: seq<Entry>) returns (files: seq<FileWithPath>)
    requires forall e :: e in items ==> GoodEntry(e)
    ensures files == WithPaths(PlacesOfAll(items, []))
  {
    files := [];
    for i := 0 to |items|
      invariant files == WithPaths(PlacesOfAll(items[..i], []))
    {
      var more := ProcessDirectoryEntry(items[i], "", []);
      files := files + more;
      assert items[..i + 1][..i] == items[..i];
      WithPathsOfSum(PlacesOfAll(items[..i], []), Places(items[i], []));
    }
    assert items[..|items|] == items;
  }

  // Every file of the dropped tree is sent under its own name to the folder at its place.
  ghost predicate Rebuilt(before: map<Id, FolderRow>, now: map<Id, FolderRow>, top: Option<Id>, places: seq<Place>,
                          uploads: seq<Upload>) {
    && |uploads| == |places|
    && forall i :: 0 <= i < |places| ==>
         uploads[i].name == places[i].name && Leads(before, now, uploads[i].folderId, top, places[i].dirs)
  }

  method UploadByPath(files: seq<FileWithPath>, pathToId: map<string, Option<Id>>) returns (uploads: seq<Upload>)
    ensures |uploads| == |files|
    ensures forall i :: 0 <= i < |files| ==>
      uploads[i] == Upload(files[i].name,
                           if files[i].relativePath in pathToId then pathToId[files[i].relativePath] else None)
  {
    uploads := [];
    for i := 0 to |files|
      invariant |uploads| == i
      invariant forall j :: 0 <= j < i ==>
        uploads[j] == Upload(files[j].name,
                             if files[j].relativePath in pathToId then pathToId[files[j].relativePath] else None)
    {
      var targetFolderId := if files[i].relativePath in pathToId then pathToId[files[i].relativePath] else None;
      uploads := uploads + [Upload(files[i].name, targetFolderId)];
    }
  }

  method UploadHere(files: seq<FileWithPath>, folderId: Option<Id>) returns (uploads: seq<Upload>)
    ensures |uploads| == |files|
    ensures forall i :: 0 <= i < |files| ==> uploads[i] == Upload(files[i].name, folderId)
  {
    uploads := [];
    for i := 0 to |files|
      invariant |uploads| == i
      invariant forall j :: 0 <= j < i ==> uploads[j] == Upload(files[j].name, folderId)
    {
      uploads := uploads + [Upload(files[i].name, folderId)];
    }
  }

  // The drop target is there and has no folder with the name of a top-level directory of the drop.
  ghost predicate Welcome(before: map<Id, FolderRow>, top: Option<Id>, items: seq<Entry>) {
    forall name, dirs :: Occurrences(items, dirs, name) > 0 && dirs != [] ==>
      IsThere(before, top) && !HasFolder(before, top, dirs[0])
  }

  // No request for one of the directories of the drop is lost.
  ghost predicate NoneLost(items: seq<Entry>, lost: string -> bool) {
    forall name, dirs, k :: Occurrences(items, dirs, name) > 0 && 0 < k <= |dirs| ==> !lost(JoinParts(dirs[..k]))
  }

  // A drop succeeds if and only if no request is lost and no top-level directory meets a namesake.
  method HandleDrop(server: FolderServer, items: seq<Entry>, folderId: Option<Id>, lost: string -> bool)
    returns (ok: bool, uploads: seq<Upload>, ghost places: seq<Place>)
    requires server.Valid() && forall e :: e in items ==> GoodEntry(e)
    modifies server
    ensures ok <==> NoneLost(items, lost) && Welcome(old(server.folders), folderId, items)
    ensures Listing(items, places)
    ensures ok ==> Rebuilt(old(server.folders), server.folders, folderId, places, uploads)
    ensures !ok ==> uploads == []
  {
    hide GoodPath, FolderPaths, Created, GoodNames, IsFolderOf, PlacesOfAll, Rebuilt, WithPaths, ByDepth, NoRepeats,
      Acceptable, Welcome, PlacesFree, NoneLost, Listing, Occurrences;
    var files := ProcessDroppedItems(items);
    places := PlacesOfAll(items, []);
    PlacesAreTheFiles(items);
    GoodPlacesOfAll(items, []);
    PlacesWelcome(old(server.folders), folderId, items, places);
    PlacesArrive(items, places, lost);
    GoodFiles(places);
    if exists i :: 0 <= i < |files| && files[i].relativePath != "" {
      var paths := ExtractFolderPaths(files);
      FolderPathsOf(files, paths);
      AcceptableDrop(old(server.folders), folderId, places, paths);
      var created, pathToId := CreateFolders(server, paths, folderId, lost);
      if !created {
        return false, [], places;
      }
      uploads := UploadByPath(files, pathToId);
      RebuiltByPath(old(server.folders), server.folders, folderId, paths, pathToId, places, uploads);
    } else {
      NoFolders(files);
      NoDirectories(old(server.folders), folderId, places);
      uploads := UploadHere(files, folderId);
      RebuiltHere(server.folders, folderId, places, uploads);
    }
    ok := true;
  }

  lemma GoodFiles(places: seq<Place>)
    requires forall i :: 0 <= i < |places| ==> GoodNames(places[i].dirs)
    ensures forall f :: f in WithPaths(places) ==> GoodPath(f.relativePath)
  {
    forall i | 0 <= i < |places|
      ensures GoodPath(WithPaths(places)[i].relativePath)
    {
      assert GoodNames(places[i].dirs) && WithPaths(places)[i].relativePath == JoinParts(places[i].dirs);
    }
  }

  lemma RebuiltByPath(before: map<Id, FolderRow>, now: map<Id, FolderRow>, top: Option<Id>, paths: seq<string>,
                      ids: map<string, Option<Id>>, places: seq<Place>, uploads: seq<Upload>)
    requires Created(before, now, top, paths, ids)
    requires forall i :: 0 <= i < |places| ==> GoodNames(places[i].dirs)
    requires var files := WithPaths(places);
             && (forall p, f :: f in files && IsFolderOf(p, f) ==> p in paths)
             && |uploads| == |files|
             && forall i :: 0 <= i < |files| ==>
                  uploads[i] == Upload(files[i].name,
                                       if files[i].relativePath in ids then ids[files[i].relativePath] else None)
    ensures Rebuilt(before, now, top, places, uploads)
  {
    hide Created, GoodNames, IsFolderOf, Leads;
    var files := WithPaths(places);
    forall i | 0 <= i < |places|
      ensures uploads[i].name == places[i].name && Leads(before, now, uploads[i].folderId, top, places[i].dirs)
    {
      assert files[i] in files;
      PlaceFound(before, now, top, paths, ids, files[i], places[i]);
    }
  }

  lemma RebuiltHere(now: map<Id, FolderRow>, top: Option<Id>, places: seq<Place>, uploads: seq<Upload>)
    requires forall i :: 0 <= i < |places| ==> GoodNames(places[i].dirs)
    requires var files := WithPaths(places);
             && (forall i :: 0 <= i < |files| ==> files[i].relativePath == "")
             && |uploads| == |files| && forall i :: 0 <= i < |files| ==> uploads[i] == Upload(files[i].name, top)
    ensures Rebuilt(now, now, top, places, uploads)
  {
    forall i | 0 <= i < |places|
      ensures places[i].dirs == []
    {
      assert WithPaths(places)[i].relativePath == "";
      TopLevelPlace(places[i]);
    }
  }

  ghost predicate PlacesFree(before: map<Id, FolderRow>, top: Option<Id>, places: seq<Place>) {
    forall i :: 0 <= i < |places| && places[i].dirs != [] ==>
      IsThere(before, top) && !HasFolder(before, top, places[i].dirs[0])
  }

  lemma ListedPlaces(items: seq<Entry>, places: seq<Place>)
    requires Listing(items, places)
    ensures forall i :: 0 <= i < |places| ==> Occurrences(items, places[i].dirs, places[i].name) > 0
    ensures forall name, dirs :: Occurrences(items, dirs, name) > 0 ==>
              exists i :: 0 <= i < |places| && places[i] == Place(name, dirs)
  {
    forall i | 0 <= i < |places|
      ensures Occurrences(items, places[i].dirs, places[i].name) > 0
    {
      assert multiset(places)[Place(places[i].name, places[i].dirs)] > 0;
    }
    forall name, dirs | Occurrences(items, dirs, name) > 0
      ensures exists i :: 0 <= i < |places| && places[i] == Place(name, dirs)
    {
      assert Place(name, dirs) in multiset(places);
    }
  }

  lemma PlacesWelcome(before: map<Id, FolderRow>, top: Option<Id>, items: seq<Entry>, places: seq<Place>)
    requires Listing(items, places)
    ensures PlacesFree(before, top, places) <==> Welcome(before, top, items)
  {
    ListedPlaces(items, places);
    hide Listing, Occurrences, HasFolder;
  }

  lemma PlacesArrive(items: seq<Entry>, places: seq<Place>, lost: string -> bool)
    requires Listing(items, places) && forall i :: 0 <= i < |places| ==> GoodNames(places[i].dirs)
    ensures NoneLost(items, lost) <==> forall p, f :: f in WithPaths(places) && IsFolderOf(p, f) ==> !lost(p)
  {
    ListedPlaces(items, places);
    hide Listing, Occurrences, GoodNames, IsFolderOf, JoinParts;
    forall i, p | 0 <= i < |places|
      ensures IsFolderOf(p, WithPaths(places)[i]) <==>
              exists k :: 0 < k <= |places[i].dirs| && p == JoinParts(places[i].dirs[..k])
    {
      DirectoriesOf(places[i], p);
    }
    if NoneLost(items, lost) {
      forall p, f | f in WithPaths(places) && IsFolderOf(p, f)
        ensures !lost(p)
      {
        var i :| 0 <= i < |places| && WithPaths(places)[i] == f;
        var k :| 0 < k <= |places[i].dirs| && p == JoinParts(places[i].dirs[..k]);
        assert Occurrences(items, places[i].dirs, places[i].name) > 0;
      }
    }
    if forall p, f :: f in WithPaths(places) && IsFolderOf(p, f) ==> !lost(p) {
      forall name, dirs, k | Occurrences(items, dirs, name) > 0 && 0 < k <= |dirs|
        ensures !lost(JoinParts(dirs[..k]))
      {
        var i :| 0 <= i < |places| && places[i] == Place(name, dirs);
        assert IsFolderOf(JoinParts(dirs[..k]), WithPaths(places)[i]);
        assert WithPaths(places)[i] in WithPaths(places);
      }
    }
  }

  lemma DirectoriesOf(place: Place, p: string)
    requires GoodNames(place.dirs)
    ensures IsFolderOf(p, FileWithPath(place.name, JoinParts(place.dirs))) <==>
            exists k :: 0 < k <= |place.dirs| && p == JoinParts(place.dirs[..k])
  {
    var dirs, f := place.dirs, FileWithPath(place.name, JoinParts(place.dirs));
    TopLevelPlace(place);
    if dirs != [] {
      SplitJoined(dirs);
      hide Split, JoinParts;
      if k :| 0 < k <= |dirs| && p == JoinParts(dirs[..k]) {
        assert IsPrefixOf(p, f, k);
      }
    }
  }

  // The top-level directory of a place is the one folder of its file without a parent path.
  lemma FirstDirectory(place: Place, p: string)
    requires GoodNames(place.dirs)
    ensures var f := FileWithPath(place.name, JoinParts(place.dirs));
            IsFolderOf(p, f) && ParentPath(p) == "" <==> place.dirs != [] && p == place.dirs[0]
  {
    var dirs, f := place.dirs, FileWithPath(place.name, JoinParts(place.dirs));
    TopLevelPlace(place);
    if dirs != [] {
      SplitJoined(dirs);
      if p == dirs[0] {
        assert GoodName(dirs[0]) && dirs[..1] == [dirs[0]];
        assert IsPrefixOf(p, f, 1);
        assert Split(p) == [p] && [p][..0] == [];
      }
      if IsFolderOf(p, f) && ParentPath(p) == "" {
        var k: nat :| IsPrefixOf(p, f, k);
        SplitJoined(dirs[..k]);
        assert dirs[..k][..k - 1] == dirs[..k - 1];
        TopLevelPlace(Place(place.name, dirs[..k - 1]));
        assert k == 1;
      }
    }
  }

  lemma AcceptableDrop(before: map<Id, FolderRow>, top: Option<Id>, places: seq<Place>, paths: seq<string>)
    requires forall i :: 0 <= i < |places| ==> GoodNames(places[i].dirs)
    requires forall p :: p in paths <==> exists f :: f in WithPaths(places) && IsFolderOf(p, f)
    ensures Acceptable(before, top, paths) <==> PlacesFree(before, top, places)
  {
    var files := WithPaths(places);
    hide GoodNames, IsFolderOf, ParentPath, JoinParts, HasFolder;
    forall i | 0 <= i < |places| && places[i].dirs != []
      ensures places[i].dirs[0] in paths && ParentPath(places[i].dirs[0]) == ""
    {
      FirstDirectory(places[i], places[i].dirs[0]);
      assert files[i] in files;
    }
    forall p | p in paths
      ensures exists i :: 0 <= i < |places| && places[i].dirs != [] && (ParentPath(p) == "" ==> p == places[i].dirs[0])
    {
      var f :| f in files && IsFolderOf(p, f);
      var i :| 0 <= i < |files| && files[i] == f;
      FirstDirectory(places[i], p);
      HasDirectories(places[i], p);
      assert places[i].dirs != [];
    }
    if PlacesFree(before, top, places) && paths != [] {
      var p := paths[0];
      assert p in paths;
      assert IsThere(before, top);
    }
  }

  lemma HasDirectories(place: Place, p: string)
    requires IsFolderOf(p, FileWithPath(place.name, JoinParts(place.dirs)))
    ensures place.dirs != []
  {
  }

  lemma NoDirectories(before: map<Id, FolderRow>, top: Option<Id>, places: seq<Place>)
    requires forall i :: 0 <= i < |places| ==> GoodNames(places[i].dirs)
    requires var files := WithPaths(places); forall i :: 0 <= i < |files| ==> files[i].relativePath == ""
    ensures PlacesFree(before, top, places)
  {
    forall i | 0 <= i < |places|
      ensures places[i].dirs == []
    {
      assert WithPaths(places)[i].relativePath == "";
      TopLevelPlace(places[i]);
    }
  }

  lemma NoFolders(files: seq<FileWithPath>)
    requires forall f :: f in files ==> f.relativePath == ""
    ensures forall p, f :: f in files ==> !IsFolderOf(p, f)
  {
  }

  lemma TopLevelPlace(place: Place)
    requires GoodNames(place.dirs)
    ensures JoinParts(place.dirs) == "" <==> place.dirs == []
  {
    JoinLonger(place.dirs, "x");
  }

  lemma PlaceFound(before: map<Id, FolderRow>, now: map<Id, FolderRow>, top: Option<Id>, paths: seq<string>,
                   ids: map<string, Option<Id>>, f: FileWithPath, place: Place)
    requires Created(before, now, top, paths, ids) && GoodNames(place.dirs) && f.relativePath == JoinParts(place.dirs)
    requires forall p :: IsFolderOf(p, f) ==> p in paths
    ensures f.relativePath in ids && Leads(before, now, ids[f.relativePath], top, place.dirs)
  {
    TopLevelPlace(place);
    if place.dirs != [] {
      SplitJoined(place.dirs);
      assert IsPrefixOf(f.relativePath, f, |place.dirs|) by {
        assert place.dirs[..|place.dirs|] == place.dirs;
      }
      hide Leads;
      assert IsFolderOf(f.relativePath, f);
    }
  }

  lemma {:induction false} GoodPlaces(e: Entry, dirs: seq<string>)
    requires GoodEntry(e) && GoodNames(dirs)
    ensures forall i :: 0 <= i < |Places(e, dirs)| ==> GoodNames(Places(e, dirs)[i].dirs)
    decreases e, 0
  {
    if e.DirectoryEntry? {
      GoodPlacesOfAll(e.children, dirs + [e.name]);
    }
  }

  lemma {:induction false} GoodPlacesOfAll(es: seq<Entry>, dirs: seq<string>)
    requires (forall e :: e in es ==> GoodEntry(e)) && GoodNames(dirs)
    ensures forall i :: 0 <= i < |PlacesOfAll(es, dirs)| ==> GoodNames(PlacesOfAll(es, dirs)[i].dirs)
    decreases es
  {
    if es != [] {
      GoodPlacesOfAll(es[..|es| - 1], dirs);
      GoodPlaces(es[|es| - 1], dirs);
    }
  }
}
