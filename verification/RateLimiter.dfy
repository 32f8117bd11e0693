// The rate limiter: a counter per key that starts at a first request and disappears one window later.
// The clock counts whole seconds.
module RateLimiter {
  import opened Models

  type Count = n: int | 1 <= n witness 1

  datatype Counter = Counter(count: Count, expiresAt: int)

  datatype Limits = Limits(limit: int, window: int)

  // The stored counter of one key, as the store sees it at an instant: an expired key is gone.
  function Live(stored: Option<Counter>, now: int): Option<Counter> {
    if stored.Some? && now < stored.value.expiresAt then stored else None
  }

  // Increment; the first request of a counter also sets its expiry.
  function Counted(c: Limits, stored: Option<Counter>, now: int): Counter {
    match Live(stored, now)
    case Some(counter) => counter.(count := counter.count + 1)
    case None => Counter(1, now + c.window)
  }

  function RetryAfter(c: Limits, counter: Counter, now: int): int {
    if counter.expiresAt - now > 0 then counter.expiresAt - now else c.window
  }

  // ---- all the requests for one key ----

  ghost predicate Ordered(arrivals: seq<int>) {
    forall i, j :: 0 <= i < j < |arrivals| ==> arrivals[i] <= arrivals[j]
  }

  // The counter right after the first n requests.
  function After(c: Limits, arrivals: seq<int>, n: nat): Option<Counter>
    requires n <= |arrivals|
  {
    if n == 0 then None else Some(Counted(c, After(c, arrivals, n - 1), arrivals[n - 1]))
  }

  predicate IsAdmitted(c: Limits, arrivals: seq<int>, k: nat)
    requires k < |arrivals|
  {
    After(c, arrivals, k + 1).value.count <= c.limit
  }

  // How many of the requests i, ..., j - 1 were let through.
  function Admitted(c: Limits, arrivals: seq<int>, i: nat, j: nat): nat
    requires i <= j <= |arrivals|
  {
    if i == j then 0
    else Admitted(c, arrivals, i, j - 1) + if IsAdmitted(c, arrivals, j - 1) then 1 else 0
  }

  predicate StartsCounter(c: Limits, arrivals: seq<int>, k: nat)
    requires k < |arrivals|
  {
    Live(After(c, arrivals, k), arrivals[k]).None?
  }

  lemma {:induction false} AdmittedSplits(c: Limits, arrivals: seq<int>, i: nat, m: nat, j: nat)
    requires i <= m <= j <= |arrivals|
    ensures Admitted(c, arrivals, i, j) == Admitted(c, arrivals, i, m) + Admitted(c, arrivals, m, j)
  {
    if m < j {
      AdmittedSplits(c, arrivals, i, m, j - 1);
    }
  }

  // Requests i, ..., j - 1 made while one counter lives: each adds one, so the first of them up to the limit get in.
  lemma {:induction false} OneCounter(c: Limits, arrivals: seq<int>, i: nat, j: nat)
    requires i < j <= |arrivals| && Ordered(arrivals)
    requires arrivals[j - 1] < After(c, arrivals, i + 1).value.expiresAt
    ensures var first, last := After(c, arrivals, i + 1).value, After(c, arrivals, j).value;
            && last == first.(count := first.count + (j - i - 1))
            && Admitted(c, arrivals, i, j)
               == Positive(Min(c.limit, last.count) - (first.count - 1))
  {
    if i < j - 1 {
      assert arrivals[j - 2] <= arrivals[j - 1];
      OneCounter(c, arrivals, i, j - 1);
    } else {
      assert Admitted(c, arrivals, i, i) == 0;
    }
  }

  // A counter's lifetime lets exactly min(limit, requests) through.
  lemma LifetimeAdmits(c: Limits, arrivals: seq<int>, i: nat, j: nat)
    requires i < j <= |arrivals| && Ordered(arrivals)
    requires StartsCounter(c, arrivals, i) && arrivals[j - 1] < arrivals[i] + c.window
    ensures Admitted(c, arrivals, i, j) == Positive(Min(c.limit, j - i))
  {
    OneCounter(c, arrivals, i, j);
  }

  // The first request in i, ..., j - 1 that the counter of request i no longer covers.
  lemma {:induction false} NextCounter(c: Limits, arrivals: seq<int>, i: nat, j: nat) returns (m: nat)
    requires i < j <= |arrivals| && Ordered(arrivals) && c.window >= 1
    ensures i < m <= j && arrivals[m - 1] < After(c, arrivals, i + 1).value.expiresAt
    ensures m < j ==> StartsCounter(c, arrivals, m) && arrivals[m] >= After(c, arrivals, i + 1).value.expiresAt
  {
    m := i + 1;
    while m < j && arrivals[m] < After(c, arrivals, i + 1).value.expiresAt
      invariant i < m <= j && arrivals[m - 1] < After(c, arrivals, i + 1).value.expiresAt
    {
      m := m + 1;
    }
    if m < j {
      OneCounter(c, arrivals, i, m);
    }
  }

  // Any stretch of time no longer than the window lets at most twice the limit through, wherever it starts.
  lemma WindowAdmits(c: Limits, arrivals: seq<int>, i: nat, j: nat)
    requires i < j <= |arrivals| && Ordered(arrivals) && arrivals[j - 1] - arrivals[i] <= c.window
    requires c.window >= 1
    ensures Admitted(c, arrivals, i, j) <= 2 * Positive(c.limit)
  {
    assert arrivals[i] + 1 <= After(c, arrivals, i + 1).value.expiresAt;
    var m := NextCounter(c, arrivals, i, j);
    OneCounter(c, arrivals, i, m);
    AdmittedSplits(c, arrivals, i, m, j);
    if m < j {
      assert arrivals[m] <= arrivals[j - 1];
      LifetimeAdmits(c, arrivals, m, j);
    }
  }

  lemma {:induction false} NothingAdmitted(c: Limits, arrivals: seq<int>, i: nat, j: nat)
    requires i <= j <= |arrivals| && c.limit <= 0
    ensures Admitted(c, arrivals, i, j) == 0
  {
    if i < j {
      NothingAdmitted(c, arrivals, i, j - 1);
    }
  }

  // Without a positive window every counter expires as it is made, and everything gets in.
  lemma {:induction false} EverythingAdmitted(c: Limits, arrivals: seq<int>, i: nat, j: nat)
    requires i <= j <= |arrivals| && Ordered(arrivals) && c.window <= 0 < c.limit
    ensures Admitted(c, arrivals, i, j) == j - i
  {
    if i < j {
      EverythingAdmitted(c, arrivals, i, j - 1);
      OnlyFreshCounters(c, arrivals, j);
    }
  }

  lemma {:induction false} OnlyFreshCounters(c: Limits, arrivals: seq<int>, n: nat)
    requires 0 < n <= |arrivals| && Ordered(arrivals) && c.window <= 0
    ensures After(c, arrivals, n) == Some(Counter(1, arrivals[n - 1] + c.window))
  {
    if n > 1 {
      OnlyFreshCounters(c, arrivals, n - 1);
      assert arrivals[n - 2] <= arrivals[n - 1];
    }
  }

  ghost predicate Bounds(c: Limits) {
    forall arrivals: seq<int>, i: nat, j: nat ::
      i < j <= |arrivals| && Ordered(arrivals) && arrivals[j - 1] - arrivals[i] <= Positive(c.window)
      ==> Admitted(c, arrivals, i, j) <= 2 * Positive(c.limit)
  }

  // For which settings the limiter limits at all.
  lemma LimiterBoundsIff(c: Limits)
    ensures Bounds(c) <==> c.window >= 1 || c.limit <= 0
  {
    if c.window >= 1 || c.limit <= 0 {
      forall arrivals: seq<int>, i: nat, j: nat |
        i < j <= |arrivals| && Ordered(arrivals) && arrivals[j - 1] - arrivals[i] <= Positive(c.window)
        ensures Admitted(c, arrivals, i, j) <= 2 * Positive(c.limit)
      {
        if c.limit <= 0 {
          NothingAdmitted(c, arrivals, i, j);
        } else {
          WindowAdmits(c, arrivals, i, j);
        }
      }
    } else {
      var burst := seq(2 * c.limit + 1, _ => 0);
      EverythingAdmitted(c, burst, 0, |burst|);
    }
  }

  class RateLimiter {
    var store: map<string, Counter>

    ghost function Stored(key: string): Option<Counter>
      reads this
    {
      if key in store then Some(store[key]) else None
    }

    constructor ()
      ensures store == map[]
    {
      store := map[];
    }

    method CheckRateLimit(key: string, limit: int, windowSeconds: int, now: int)
        returns (allowed: bool, retryAfter: int)
      modifies this
      ensures Stored(key) == Some(Counted(Limits(limit, windowSeconds), old(Stored(key)), now))
      ensures forall other :: other != key ==> Stored(other) == old(Stored(other))
      ensures allowed <==> Stored(key).value.count <= limit
      ensures retryAfter == if allowed then 0 else RetryAfter(Limits(limit, windowSeconds), Stored(key).value, now)
    {
      var count := 1;
      if key in store && now < store[key].expiresAt {
        count := store[key].count + 1;
        store := store[key := Counter(count, store[key].expiresAt)];
      }
      if count == 1 {
        store := store[key := Counter(1, now + windowSeconds)];
      }
      if count > limit {
        var ttl := store[key].expiresAt - now;
        return false, if ttl > 0 then ttl else windowSeconds;
      }
      return true, 0;
    }
  }
}
