// internal/cache/common.go (GetRateLimit) and internal/middlewares/ratelimiter.go. Time is in whole
// seconds; INCR and EXPIRE are one atomic step.
module RateLimit {

  const WINDOW := 60

  // The counter key of one identifier; it is gone when it has expired.
  datatype Counter = NoKey | Key(count: nat, expires: nat)

  predicate Lives(k: Counter, now: nat) {
    k.Key? && now < k.expires
  }

  // The counter after a request.
  function Count(k: Counter, now: nat): (k': Counter)
    ensures Lives(k', now)
  {
    if Lives(k, now) && k.count > 0 then Key(k.count + 1, k.expires) else Key(1, now + WINDOW)
  }

  predicate Admits(k: Counter, now: nat, limit: nat) {
    Count(k, now).count <= limit
  }

  class RueidisCache {
    var counters: map<string, Counter>

    function Of(id: string): Counter
      reads this
    {
      if id in counters then counters[id] else NoKey
    }

    method GetRateLimit(id: string, requestsPerMinute: nat, now: nat) returns (retryAfter: nat)
      modifies this
      ensures Of(id) == Count(old(Of(id)), now)
      ensures forall other :: other != id ==> Of(other) == old(Of(other))
      ensures retryAfter == if Admits(old(Of(id)), now, requestsPerMinute) then 0 else Of(id).expires - now
    {
      var k := Of(id);
      var count, expires := if Lives(k, now) then k.count + 1 else 1, if Lives(k, now) then k.expires else 0;
      if count == 1 {
        expires := now + WINDOW;
      }
      counters := counters[id := Key(count, expires)];
      if count > requestsPerMinute {
        return expires - now;
      }
      retryAfter := 0;
    }

    method ApplyRateLimit(id: string, requestsPerMinute: nat, now: nat) returns (served: bool)
      modifies this
      ensures Of(id) == Count(old(Of(id)), now)
      ensures forall other :: other != id ==> Of(other) == old(Of(other))
      ensures served <==> Admits(old(Of(id)), now, requestsPerMinute)
    {
      var retryAfter := GetRateLimit(id, requestsPerMinute, now);
      served := retryAfter == 0;
    }
  }

  // The wait that a refused client is told is the right one: the next request is admitted if and only
  // if it comes no earlier.
  lemma WaitIsExact(k: Counter, now: nat, limit: nat, later: nat)
    requires limit >= 1 && !Admits(k, now, limit)
    ensures Admits(Count(k, now), later, limit) <==> later >= Count(k, now).expires
  {
  }

  // ----- over a sequence of requests of one identifier

  predicate Ordered(times: seq<nat>) {
    forall i, j :: 0 <= i <= j < |times| ==> times[i] <= times[j]
  }

  // How many of the requests in [from, from + WINDOW) are served.
  function Served(k: Counter, times: seq<nat>, limit: nat, from: nat): nat
    decreases |times|
  {
    if times == [] then 0
    else
      (if from <= times[0] < from + WINDOW && Admits(k, times[0], limit) then 1 else 0)
      + Served(Count(k, times[0]), times[1..], limit, from)
  }

  // How many of the requests are served while the key of `k` lives.
  function ServedByKey(k: Counter, times: seq<nat>, limit: nat): nat
    decreases |times|
  {
    if times == [] || !Lives(k, times[0]) then 0
    else (if Admits(k, times[0], limit) then 1 else 0) + ServedByKey(Count(k, times[0]), times[1..], limit)
  }

  function Left(k: Counter, limit: nat): nat {
    if k.Key? && k.count < limit then limit - k.count else 0
  }

  // One window: from the request that creates the key until the key expires.
  lemma {:induction false} WindowServesAtMost(k: Counter, times: seq<nat>, limit: nat)
    requires k.Key? && k.count >= 1
    ensures ServedByKey(k, times, limit) <= Left(k, limit)
    decreases |times|
  {
    if times != [] && Lives(k, times[0]) {
      WindowServesAtMost(Count(k, times[0]), times[1..], limit);
    }
  }

  lemma {:induction false} NothingAfter(k: Counter, times: seq<nat>, limit: nat, from: nat)
    requires forall i :: 0 <= i < |times| ==> times[i] >= from + WINDOW
    ensures Served(k, times, limit, from) == 0
    decreases |times|
  {
    if times != [] {
      NothingAfter(Count(k, times[0]), times[1..], limit, from);
    }
  }

  function Most(limit: nat): nat {
    if limit == 0 then 0 else 2 * limit - 1
  }

  // What may still be served in the interval when the key was created at `k.expires - WINDOW`.
  function Bound(k: Counter, limit: nat, from: nat): nat {
    if k.NoKey? || from >= k.expires then Most(limit)
    else if from + WINDOW <= k.expires then Left(k, limit)
    else Left(k, limit) + limit
  }

  lemma {:induction false} ServedAtMost(k: Counter, times: seq<nat>, limit: nat, from: nat)
    requires Ordered(times)
    requires k.Key? ==> k.count >= 1 && forall i :: 0 <= i < |times| ==> times[i] + WINDOW >= k.expires
    ensures Served(k, times, limit, from) <= Bound(k, limit, from)
    decreases |times|
  {
    if times != [] {
      var t, k' := times[0], Count(k, times[0]);
      assert forall i :: 0 <= i < |times| ==> times[0] <= times[i];
      if t >= from + WINDOW {
        NothingAfter(k, times, limit, from);
      } else {
        assert forall i :: 0 <= i < |times[1..]| ==> times[1..][i] == times[i + 1];
        ServedAtMost(k', times[1..], limit, from);
      }
    }
  }

  // In any 60 seconds fewer than twice the limit are served: when two windows meet in them, the
  // request that opened the earlier one came before.
  lemma LessThanTwiceTheLimit(times: seq<nat>, limit: nat, from: nat)
    requires Ordered(times)
    ensures Served(NoKey, times, limit, from) <= Most(limit)
  {
    ServedAtMost(NoKey, times, limit, from);
  }

  function Times(n: nat, t: nat): seq<nat> {
    if n == 0 then [] else [t] + Times(n - 1, t)
  }

  lemma {:induction false} ServedBurst(k: Counter, n: nat, t: nat, rest: seq<nat>, limit: nat, from: nat)
    requires Lives(k, t) && k.count >= 1 && k.count + n <= limit && from <= t < from + WINDOW
    ensures Served(k, Times(n, t) + rest, limit, from) == n + Served(Key(k.count + n, k.expires), rest, limit, from)
    decreases n
  {
    if n == 0 {
      assert Times(0, t) + rest == rest;
    } else {
      assert (Times(n, t) + rest)[1..] == Times(n - 1, t) + rest;
      ServedBurst(Count(k, t), n - 1, t, rest, limit, from);
    }
  }

  // A burst at the end of one window and another at the start of the next reach the bound.
  lemma BoundIsReached(limit: nat) returns (times: seq<nat>)
    requires limit >= 1
    ensures Ordered(times) && Served(NoKey, times, limit, 1) == Most(limit)
  {
    var second := Times(limit, WINDOW);
    times := [0] + (Times(limit - 1, WINDOW - 1) + second);
    AllAt(limit - 1, WINDOW - 1);
    AllAt(limit, WINDOW);
    assert times[1..] == Times(limit - 1, WINDOW - 1) + second;
    ServedBurst(Key(1, WINDOW), limit - 1, WINDOW - 1, second, limit, 1);
    assert second[1..] == Times(limit - 1, WINDOW);
    assert Times(limit - 1, WINDOW) + [] == Times(limit - 1, WINDOW);
    ServedBurst(Key(1, WINDOW + WINDOW), limit - 1, WINDOW, [], limit, 1);
  }

  lemma {:induction false} AllAt(n: nat, t: nat)
    ensures |Times(n, t)| == n && forall i :: 0 <= i < n ==> Times(n, t)[i] == t
    decreases n
  {
    if n > 0 {
      AllAt(n - 1, t);
    }
  }
}
