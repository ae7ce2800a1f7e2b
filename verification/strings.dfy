// Splitting and joining paths at slashes.
module Strings {

  function IndexOf(s: string, sep: char): (k: nat)
    requires sep in s
    ensures k < |s| && s[k] == sep && sep !in s[..k]
  {
    if s[0] == sep then 0 else 1 + IndexOf(s[1..], sep)
  }

  // strings.Split
  function Split(s: string): (parts: seq<string>)
    ensures |parts| >= 1
    decreases |s|
  {
    if '/' !in s then [s]
    else [s[..IndexOf(s, '/')]] + Split(s[IndexOf(s, '/') + 1..])
  }

  // strings.SplitN
  function SplitN(s: string, n: nat): (parts: seq<string>)
    requires n >= 1
    ensures 1 <= |parts| <= n
    decreases n
  {
    if n == 1 || '/' !in s then [s]
    else [s[..IndexOf(s, '/')]] + SplitN(s[IndexOf(s, '/') + 1..], n - 1)
  }

  // strings.Join
  function JoinParts(parts: seq<string>): string {
    if parts == [] then "" else if |parts| == 1 then parts[0] else parts[0] + "/" + JoinParts(parts[1..])
  }

  lemma {:induction false} SplitFirst(a: string, rest: string)
    requires '/' !in a
    ensures '/' in a + "/" + rest && IndexOf(a + "/" + rest, '/') == |a|
    ensures (a + "/" + rest)[..|a|] == a && (a + "/" + rest)[|a| + 1..] == rest
    decreases |a|
  {
    var s := a + "/" + rest;
    assert s[|a|] == '/';
    if a != "" {
      SplitFirst(a[1..], rest);
      assert s[1..] == a[1..] + "/" + rest;
    }
  }

  lemma SplitStep(a: string, rest: string)
    requires '/' !in a
    ensures Split(a + "/" + rest) == [a] + Split(rest)
  {
    SplitFirst(a, rest);
  }

  lemma SplitNPlain(a: string, n: nat)
    requires '/' !in a && n >= 1
    ensures SplitN(a, n) == [a]
  {
  }

  lemma SplitNStep(a: string, rest: string, n: nat)
    requires '/' !in a && n >= 1
    ensures SplitN(a + "/" + rest, n + 1) == [a] + SplitN(rest, n)
  {
    SplitFirst(a, rest);
  }

  predicate SlashFree(parts: seq<string>) {
    forall i :: 0 <= i < |parts| ==> '/' !in parts[i]
  }

  lemma {:induction false} SplitJoined(parts: seq<string>)
    requires parts != [] && SlashFree(parts)
    ensures Split(JoinParts(parts)) == parts
    decreases |parts|
  {
    assert '/' !in parts[0];
    if |parts| > 1 {
      hide Split;
      SplitStep(parts[0], JoinParts(parts[1..]));
      SplitJoined(parts[1..]);
    }
  }

  lemma {:induction false} SplitNJoined(parts: seq<string>, n: nat)
    requires parts != [] && SlashFree(parts) && |parts| <= n
    ensures SplitN(JoinParts(parts), n) == parts
    decreases |parts|
  {
    hide SplitN;
    assert '/' !in parts[0];
    SplitNPlain(parts[0], n);
    if |parts| > 1 {
      SplitNStep(parts[0], JoinParts(parts[1..]), n - 1);
      SplitNJoined(parts[1..], n - 1);
    }
  }
}
