/** The fixed-window counter (backend/store/ratelimit.go). */
module RateLimit {
  import opened Model

  // A stored counter; without an expiry it never goes away.
  datatype Counter = Counter(count: nat, expiresAt: Option<Time>)

  datatype Fault = NoFault | IncrFails | ExpireFails | TtlFails

  // The counter that a call at `now` finds: an expired key is gone.
  function Found(c: Option<Counter>, now: Time): Option<Counter> {
    if c.Some? && c.value.expiresAt.Some? && c.value.expiresAt.value <= now then None else c
  }

  // The key's time has come.
  predicate IsOver(c: Counter, now: Time) {
    c.expiresAt.Some? && c.expiresAt.value <= now
  }

  // INCR, then EXPIRE on the call that created the key.
  function Bumped(c: Option<Counter>, window: Time, now: Time, fault: Fault): Option<Counter> {
    var found := Found(c, now);
    if fault.IncrFails? then found
    else if found.None? then Some(Counter(1, if fault.ExpireFails? then None else Some(now + window)))
    else if found.value.count + 1 == 1 && !fault.ExpireFails? then Some(Counter(1, Some(now + window)))
    else Some(found.value.(count := found.value.count + 1))
  }

  // Any call that cannot be counted, or whose key cannot be given an expiry, is let through.
  predicate Allows(c: Option<Counter>, limit: int, now: Time, fault: Fault) {
    var found := Found(c, now);
    var count := if found.None? then 1 else found.value.count + 1;
    fault.IncrFails? || (count == 1 && fault.ExpireFails?) || count <= limit
  }

  class Limiter {
    // Whether a counter store is configured.
    const connected: bool
    var counters: map<string, Counter>

    constructor (connected: bool)
      ensures this.connected == connected && counters == map[]
    {
      this.connected := connected;
      counters := map[];
    }

    function Get(key: string): Option<Counter>
      reads this
    {
      if key in counters then Some(counters[key]) else None
    }

    // Without a counter store every call is allowed. A key that is unknown or has expired
    // starts at one call and lives for a window; a live one counts on, and a call is allowed
    // while the count is within the limit. A refused call is told to wait for what is left
    // of the key's life, or a whole window when that is unknown.
    method Allow(key: string, limit: int, window: Time, now: Time, fault: Fault)
      returns (allowed: bool, retryAfter: Time, failed: bool)
      modifies this
      ensures !connected ==> allowed && !failed && retryAfter == 0 && counters == old(counters)
      ensures connected && (fault.NoFault? || fault.TtlFails?) && (key !in old(counters) || IsOver(old(counters)[key], now)) ==>
                (allowed <==> limit >= 1) && key in counters && counters[key] == Counter(1, Some(now + window))
      ensures connected && (fault.NoFault? || fault.TtlFails?) && key in old(counters) && !IsOver(old(counters)[key], now) &&
              old(counters)[key].count > 0 ==>
                (allowed <==> old(counters)[key].count + 1 <= limit) && key in counters &&
                counters[key] == Counter(old(counters)[key].count + 1, old(counters)[key].expiresAt)
      ensures connected && (fault.IncrFails? || (fault.ExpireFails? && key !in old(counters))) ==> allowed && failed
      ensures connected ==> allowed == Allows(old(Get(key)), limit, now, fault)
      ensures fault.IncrFails? ==> counters == old(counters)
      ensures connected && !fault.IncrFails? ==> Get(key) == Bumped(old(Get(key)), window, now, fault)
      ensures forall other :: other != key ==> (other in counters <==> other in old(counters))
      ensures forall other :: other != key && other in counters ==> counters[other] == old(counters)[other]
      ensures !allowed ==> Get(key).Some?
      ensures !allowed && window > 0 ==>
                var expiry := Get(key).value.expiresAt;
                retryAfter == if expiry.Some? && !fault.TtlFails? then expiry.value - now else window
      ensures !allowed && window > 0 ==> retryAfter > 0
      ensures allowed ==> retryAfter == 0
      ensures failed ==> allowed && !fault.NoFault?
    {
      if !connected {
        return true, 0, false;
      }
      if fault.IncrFails? {
        return true, 0, true;
      }
      var found := Found(Get(key), now);
      var c := if found.Some? then found.value.(count := found.value.count + 1) else Counter(1, None);
      counters := counters[key := c];
      if c.count == 1 {
        if fault.ExpireFails? {
          return true, 0, true;
        }
        counters := counters[key := c.(expiresAt := Some(now + window))];
      }
      if c.count > limit {
        var ttl := if counters[key].expiresAt.Some? then counters[key].expiresAt.value - now else -1;
        if fault.TtlFails? || ttl < 0 {
          ttl := window;
        }
        return false, ttl, false;
      }
      return true, 0, false;
    }
  }

  // ------------------------------------------------------- one key, every call counted

  predicate Sorted(calls: seq<Time>) {
    forall j, k :: 0 <= j < k < |calls| ==> calls[j] <= calls[k]
  }

  function CounterAfter(calls: seq<Time>, window: Time): Option<Counter> {
    if |calls| == 0 then None
    else Bumped(CounterAfter(calls[..|calls| - 1], window), window, calls[|calls| - 1], NoFault)
  }

  predicate Allowed(calls: seq<Time>, j: nat, limit: int, window: Time)
    requires j < |calls|
  {
    Allows(CounterAfter(calls[..j], window), limit, calls[j], NoFault)
  }

  // The call that created the key which call j finds or creates.
  function Creator(calls: seq<Time>, j: nat, window: Time): (s: nat)
    requires j < |calls|
    ensures s <= j
  {
    if j == 0 then 0
    else
      var s := Creator(calls, j - 1, window);
      if calls[j] < calls[s] + window then s else j
  }

  // The counter holds the calls since the key's creation and expires one window after it.
  lemma {:induction false} CounterIsLife(calls: seq<Time>, j: nat, window: Time)
    requires j < |calls| && window > 0
    ensures var s := Creator(calls, j, window);
            CounterAfter(calls[..j + 1], window) == Some(Counter(j - s + 1, Some(calls[s] + window)))
  {
    assert calls[..j + 1][..j] == calls[..j];
    if j > 0 {
      CounterIsLife(calls, j - 1, window);
      assert calls[..j - 1 + 1] == calls[..j];
    }
  }

  // Between a key's creation and its expiry exactly the first `limit` calls are allowed.
  lemma FirstCallsAreAllowed(calls: seq<Time>, j: nat, limit: int, window: Time)
    requires j < |calls| && window > 0
    ensures Allowed(calls, j, limit, window) <==> j - Creator(calls, j, window) < limit
  {
    if j > 0 {
      CounterIsLife(calls, j - 1, window);
      assert calls[..j - 1 + 1] == calls[..j];
    }
  }

  // Allowed calls with index in [a, b).
  function AllowedBetween(calls: seq<Time>, a: nat, b: nat, limit: int, window: Time): nat
    requires a <= b <= |calls|
  {
    if a == b then 0
    else AllowedBetween(calls, a, b - 1, limit, window) + if Allowed(calls, b - 1, limit, window) then 1 else 0
  }

  lemma {:induction false} CreatorsInOrder(calls: seq<Time>, j: nat, k: nat, window: Time)
    requires j <= k < |calls|
    ensures Creator(calls, j, window) <= Creator(calls, k, window)
    ensures Creator(calls, k, window) <= j ==> Creator(calls, j, window) == Creator(calls, k, window)
    decreases k
  {
    if j < k { CreatorsInOrder(calls, j, k - 1, window); }
  }

  lemma {:induction false} CreatorCreatesItself(calls: seq<Time>, j: nat, window: Time)
    requires j < |calls|
    ensures Creator(calls, Creator(calls, j, window), window) == Creator(calls, j, window)
  {
    if j > 0 { CreatorCreatesItself(calls, j - 1, window); }
  }

  // Within one life of the key, from its a-th call on, at most the rest of the limit is allowed.
  lemma {:induction false} OneLife(calls: seq<Time>, a: nat, b: nat, s: nat, limit: nat, window: Time)
    requires a < b <= |calls| && window > 0 && s <= a && Creator(calls, b - 1, window) == s
    ensures AllowedBetween(calls, a, b, limit, window) <= if s + limit > a then s + limit - a else 0
    ensures AllowedBetween(calls, a, b, limit, window) <= b - a
    decreases b - a
  {
    FirstCallsAreAllowed(calls, b - 1, limit, window);
    if a < b - 1 {
      CreatorsInOrder(calls, b - 2, b - 1, window);
      OneLife(calls, a, b - 1, s, limit, window);
    }
  }

  lemma {:induction false} SplitAllowed(calls: seq<Time>, a: nat, m: nat, b: nat, limit: int, window: Time)
    requires a <= m <= b <= |calls|
    ensures AllowedBetween(calls, a, b, limit, window) ==
            AllowedBetween(calls, a, m, limit, window) + AllowedBetween(calls, m, b, limit, window)
  {
    if m < b { SplitAllowed(calls, a, m, b - 1, limit, window); }
  }

  // A key created by call s replaces one that was created at least a window before.
  lemma CreatedAfterExpiry(calls: seq<Time>, s: nat, window: Time)
    requires 0 < s < |calls| && Creator(calls, s, window) == s
    ensures calls[Creator(calls, s - 1, window)] + window <= calls[s]
  {
  }

  // Calls of two lives of the key: the first of them lost its creating call to the time before.
  lemma TwoLives(calls: seq<Time>, a: nat, s: nat, b: nat, limit: nat, window: Time)
    requires Sorted(calls) && a < s < b <= |calls| && window > 0 && limit > 0 && calls[b - 1] < calls[a] + window
    requires Creator(calls, b - 1, window) == s == Creator(calls, s, window)
    ensures AllowedBetween(calls, a, b, limit, window) <= 2 * limit - 1
  {
    CreatedAfterExpiry(calls, s, window);
    var r := Creator(calls, s - 1, window);
    assert calls[r] < calls[a];
    SplitAllowed(calls, a, s, b, limit, window);
    OneLife(calls, s, b, s, limit, window);
    OneLife(calls, a, s, r, limit, window);
  }

  // Calls that fit into one window length belong to at most two lives of the key.
  lemma CloseCallsAreBounded(calls: seq<Time>, a: nat, b: nat, limit: nat, window: Time)
    requires Sorted(calls) && a < b <= |calls| && window > 0 && limit > 0 && calls[b - 1] < calls[a] + window
    ensures AllowedBetween(calls, a, b, limit, window) <= 2 * limit - 1
  {
    var s := Creator(calls, b - 1, window);
    if s <= a {
      OneLife(calls, a, b, s, limit, window);
    } else {
      CreatorCreatesItself(calls, b - 1, window);
      TwoLives(calls, a, s, b, limit, window);
    }
  }

  // Allowed calls among the first n with a time in [from, to).
  function AllowedIn(calls: seq<Time>, n: nat, from: Time, to: Time, limit: int, window: Time): nat
    requires n <= |calls|
  {
    if n == 0 then 0
    else
      AllowedIn(calls, n - 1, from, to, limit, window) +
      if from <= calls[n - 1] < to && Allowed(calls, n - 1, limit, window) then 1 else 0
  }

  // The calls of an interval are consecutive.
  lemma {:induction false} IntervalIsRange(calls: seq<Time>, n: nat, from: Time, to: Time, limit: int, window: Time)
    returns (a: nat, b: nat)
    requires Sorted(calls) && n <= |calls| && from < to
    ensures a <= b <= n && AllowedIn(calls, n, from, to, limit, window) == AllowedBetween(calls, a, b, limit, window)
    ensures forall j :: a <= j < b ==> from <= calls[j] < to
    ensures forall j :: 0 <= j < a ==> calls[j] < from
    ensures forall j :: b <= j < n ==> calls[j] >= to
  {
    if n == 0 {
      a, b := 0, 0;
    } else {
      a, b := IntervalIsRange(calls, n - 1, from, to, limit, window);
      if calls[n - 1] < from {
        a, b := n, n;
        NoneBefore(calls, n, from, to, limit, window);
      } else if calls[n - 1] < to {
        b := n;
      }
    }
  }

  lemma {:induction false} NoneBefore(calls: seq<Time>, n: nat, from: Time, to: Time, limit: int, window: Time)
    requires n <= |calls| && forall j :: 0 <= j < n ==> calls[j] < from
    ensures AllowedIn(calls, n, from, to, limit, window) == 0
  {
    if n > 0 { NoneBefore(calls, n - 1, from, to, limit, window); }
  }

  // Any time interval of one window length holds fewer than twice the limit of allowed
  // calls, wherever it lies against the key's own windows.
  lemma AnyWindowIsBounded(calls: seq<Time>, from: Time, limit: nat, window: Time)
    requires Sorted(calls) && window > 0 && limit > 0
    ensures AllowedIn(calls, |calls|, from, from + window, limit, window) <= 2 * limit - 1
  {
    var a, b := IntervalIsRange(calls, |calls|, from, from + window, limit, window);
    if a < b { CloseCallsAreBounded(calls, a, b, limit, window); }
  }

  // One call opens the key, limit - 1 calls come just before it expires and limit calls
  // just after.
  function Burst(limit: nat, window: Time): (calls: seq<Time>)
    ensures |calls| == 2 * limit
    ensures forall k :: 0 <= k < |calls| ==> calls[k] == if k == 0 then 0 else if k < limit then window - 1 else window
  {
    seq(2 * limit, k requires 0 <= k < 2 * limit => if k == 0 then 0 else if k < limit then window - 1 else window)
  }

  lemma {:induction false} BurstCreators(limit: nat, window: Time, j: nat)
    requires limit > 0 && window > 1 && j < 2 * limit
    ensures Creator(Burst(limit, window), j, window) == if j < limit then 0 else limit
  {
    if j > 0 { BurstCreators(limit, window, j - 1); }
  }

  lemma {:induction false} BurstIsAllowed(limit: nat, window: Time, n: nat)
    requires limit > 0 && window > 1 && n <= 2 * limit
    ensures AllowedIn(Burst(limit, window), n, window - 1, window - 1 + window, limit, window) == if n == 0 then 0 else n - 1
  {
    if n > 0 {
      BurstIsAllowed(limit, window, n - 1);
      BurstCreators(limit, window, n - 1);
      FirstCallsAreAllowed(Burst(limit, window), n - 1, limit, window);
    }
  }

  // The bound is reached for every limit and every window of more than one time unit.
  lemma BoundIsReached(limit: nat, window: Time) returns (calls: seq<Time>, from: Time)
    requires limit > 0 && window > 1
    ensures Sorted(calls) && AllowedIn(calls, |calls|, from, from + window, limit, window) == 2 * limit - 1
  {
    calls, from := Burst(limit, window), window - 1;
    BurstIsAllowed(limit, window, 2 * limit);
  }
}
