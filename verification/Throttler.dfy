/**
 The per-tenant rate limiter: a counter per clock window, kept in a store that drops it
 some time after it was first incremented.
*/
module Throttler {
  import opened Arithmetic
  import opened Options

  type Tenant = string

  /** None: the call that sets the expiry never came. */
  datatype Counter = Counter(count: nat, deadline: Option<int>)

  /**
   One request of a resolved tenant at a clock reading in milliseconds. If it starts a
   counter, delay is how much later the expiry is set, or None if a crash comes first.
  */
  datatype Attempt = Attempt(now: int, tenant: Tenant, delay: Option<nat>)

  type Key = (Tenant, int)

  const GRACE_SECONDS := 5

  function Width(ttl: nat): nat {
    ttl * 1000
  }

  function WindowOf(now: int, ttl: nat): int
    requires ttl >= 1
  {
    now / Width(ttl)
  }

  predicate Live(counters: map<Key, Counter>, key: Key, now: int) {
    key in counters && (counters[key].deadline.Some? ==> now < counters[key].deadline.value)
  }

  /** The increment, followed by the expiry if the counter is new. */
  function Incremented(counters: map<Key, Counter>, a: Attempt, ttl: nat): Counter
    requires ttl >= 1
  {
    var key := (a.tenant, WindowOf(a.now, ttl));
    var current := if Live(counters, key, a.now) then counters[key].count + 1 else 1;
    Counter(current,
            if current == 1 then (if a.delay.None? then None else Some(Deadline(a.now + a.delay.value, ttl)))
            else counters[key].deadline)
  }

  /** When the store drops a counter whose expiry is set at the given instant. */
  function Deadline(at: int, ttl: nat): int {
    at + (ttl + GRACE_SECONDS) * 1000
  }

  class TenantThrottlerGuard {
    const ttl: nat
    const limit: nat
    var counters: map<Key, Counter>

    constructor (ttl: nat, limit: nat)
      requires ttl >= 1
      ensures this.ttl == ttl && this.limit == limit && counters == map[]
    {
      this.ttl, this.limit := ttl, limit;
      counters := map[];
    }

    /** False stands for the throttler exception. */
    method CanActivate(a: Attempt) returns (accepted: bool)
      requires ttl >= 1
      modifies this
      ensures counters == old(counters)[(a.tenant, WindowOf(a.now, ttl)) := Incremented(old(counters), a, ttl)]
      ensures accepted == (Incremented(old(counters), a, ttl).count <= limit)
      ensures var key := (a.tenant, a.now / (ttl * 1000));
        && key in counters && (forall other :: other != key && other in counters ==> other in old(counters))
        && (forall other :: other != key && other in old(counters) ==>
              other in counters && counters[other] == old(counters)[other])
        && (accepted <==> counters[key].count <= limit)
        && if key in old(counters) && (old(counters)[key].deadline == None || a.now < old(counters)[key].deadline.value)
              && old(counters)[key].count > 0 then
             counters[key] == old(counters)[key].(count := old(counters)[key].count + 1)
           else
             counters[key].count == 1 && (a.delay.Some? ==>
               counters[key].deadline == Some(a.now + a.delay.value + (ttl + 5) * 1000))
    {
      var key := (a.tenant, WindowOf(a.now, ttl));
      var current := 1;
      if Live(counters, key, a.now) {
        current := counters[key].count + 1;
        counters := counters[key := counters[key].(count := current)];
      } else {
        counters := counters[key := Counter(1, None)];
      }
      if current == 1 {
        var expiry := if a.delay.None? then None else Some(Deadline(a.now + a.delay.value, ttl));
        counters := counters[key := Counter(1, expiry)];
      }
      if current > limit {
        return false;
      }
      return true;
    }

    /** Requests one after the other. */
    method Serve(trace: seq<Attempt>) returns (accepted: seq<bool>)
      requires ttl >= 1 && counters == map[]
      modifies this
      ensures counters == CountersAfter(trace, ttl)
      ensures |accepted| == |trace| && forall i :: 0 <= i < |trace| ==> accepted[i] == Accepts(trace, i, ttl, limit)
    {
      accepted := [];
      for i := 0 to |trace|
        invariant counters == CountersAfter(trace[..i], ttl)
        invariant |accepted| == i && forall j :: 0 <= j < i ==> accepted[j] == Accepts(trace, j, ttl, limit)
      {
        assert trace[..i + 1][..i] == trace[..i];
        var ok := CanActivate(trace[i]);
        accepted := accepted + [ok];
      }
      assert trace[..|trace|] == trace;
    }
  }

  // ---- traces ----

  function CountersAfter(trace: seq<Attempt>, ttl: nat): map<Key, Counter>
    requires ttl >= 1
  {
    if trace == [] then map[]
    else
      var before, a := CountersAfter(trace[..|trace| - 1], ttl), trace[|trace| - 1];
      before[(a.tenant, WindowOf(a.now, ttl)) := Incremented(before, a, ttl)]
  }

  /** The guard lets the i-th request of the trace through. */
  predicate Accepts(trace: seq<Attempt>, i: nat, ttl: nat, limit: nat)
    requires ttl >= 1 && i < |trace|
  {
    Incremented(CountersAfter(trace[..i], ttl), trace[i], ttl).count <= limit
  }

  /** How many requests of the tenant fall into the window, counters and expiry aside. */
  function Attempts(trace: seq<Attempt>, tenant: Tenant, window: int, ttl: nat): nat
    requires ttl >= 1
  {
    if trace == [] then 0
    else
      var a := trace[|trace| - 1];
      Attempts(trace[..|trace| - 1], tenant, window, ttl)
      + if a.tenant == tenant && WindowOf(a.now, ttl) == window then 1 else 0
  }

  lemma WindowBounds(now: int, ttl: nat)
    requires ttl >= 1
    ensures WindowOf(now, ttl) * Width(ttl) <= now < (WindowOf(now, ttl) + 1) * Width(ttl)
  {
  }

  /** A counter that exists outlives its own window: its expiry comes later than any request in it. */
  ghost predicate OutlivesWindow(key: Key, c: Counter, ttl: nat)
  {
    c.deadline.Some? ==> c.deadline.value >= (key.1 + 1) * Width(ttl)
  }

  lemma {:induction false} CountersCount(trace: seq<Attempt>, ttl: nat)
    requires ttl >= 1
    ensures forall key :: key in CountersAfter(trace, ttl) <==> Attempts(trace, key.0, key.1, ttl) > 0
    ensures forall key :: key in CountersAfter(trace, ttl) ==>
              CountersAfter(trace, ttl)[key].count == Attempts(trace, key.0, key.1, ttl)
              && OutlivesWindow(key, CountersAfter(trace, ttl)[key], ttl)
  {
    if trace != [] {
      var before, a := trace[..|trace| - 1], trace[|trace| - 1];
      CountersCount(before, ttl);
      CounterIsLive(before, a, ttl);
      StartedCounterOutlives(a, ttl);
    }
  }

  lemma CounterIsLive(before: seq<Attempt>, a: Attempt, ttl: nat)
    requires ttl >= 1
    requires forall key :: key in CountersAfter(before, ttl)
                           ==> OutlivesWindow(key, CountersAfter(before, ttl)[key], ttl)
    ensures var key := (a.tenant, WindowOf(a.now, ttl));
      Live(CountersAfter(before, ttl), key, a.now) <==> key in CountersAfter(before, ttl)
  {
    WindowBounds(a.now, ttl);
  }

  lemma StartedCounterOutlives(a: Attempt, ttl: nat)
    requires ttl >= 1
    ensures a.delay.Some? ==> Deadline(a.now + a.delay.value, ttl) >= (WindowOf(a.now, ttl) + 1) * Width(ttl)
  {
    WindowBounds(a.now, ttl);
    assert (WindowOf(a.now, ttl) + 1) * Width(ttl) == WindowOf(a.now, ttl) * Width(ttl) + Width(ttl);
  }

  /**
   In each window exactly the first requests up to the limit are accepted: the expiry never
   drops a counter inside its window, whenever it was set and even if it never was.
  */
  lemma AcceptsFirstAttempts(trace: seq<Attempt>, i: nat, ttl: nat, limit: nat)
    requires ttl >= 1 && i < |trace|
    ensures Accepts(trace, i, ttl, limit)
        <==> Attempts(trace[..i], trace[i].tenant, WindowOf(trace[i].now, ttl), ttl) < limit
  {
    CountersCount(trace[..i], ttl);
    CounterIsLive(trace[..i], trace[i], ttl);
  }

  // ---- the bound ----

  /** Accepted requests of the tenant in the half-open span from lo to hi. */
  function AcceptedIn(trace: seq<Attempt>, tenant: Tenant, lo: int, hi: int, ttl: nat, limit: nat): nat
    requires ttl >= 1
  {
    if trace == [] then 0
    else
      var n := |trace| - 1;
      AcceptedIn(trace[..n], tenant, lo, hi, ttl, limit)
      + if trace[n].tenant == tenant && lo <= trace[n].now < hi && Accepts(trace, n, ttl, limit) then 1 else 0
  }

  lemma {:induction false} SpansAdd(trace: seq<Attempt>, tenant: Tenant, lo: int, mid: int, hi: int, ttl: nat,
      limit: nat)
    requires ttl >= 1 && lo <= mid <= hi
    ensures AcceptedIn(trace, tenant, lo, hi, ttl, limit)
         == AcceptedIn(trace, tenant, lo, mid, ttl, limit) + AcceptedIn(trace, tenant, mid, hi, ttl, limit)
  {
    if trace != [] { SpansAdd(trace[..|trace| - 1], tenant, lo, mid, hi, ttl, limit); }
  }

  /** Requests of the tenant in the half-open span from lo to hi, in milliseconds. */
  function AttemptsIn(trace: seq<Attempt>, tenant: Tenant, lo: int, hi: int): nat {
    if trace == [] then 0
    else
      var a := trace[|trace| - 1];
      AttemptsIn(trace[..|trace| - 1], tenant, lo, hi) + if a.tenant == tenant && lo <= a.now < hi then 1 else 0
  }

  lemma {:induction false} AttemptsByClock(trace: seq<Attempt>, tenant: Tenant, window: int, ttl: nat)
    requires ttl >= 1
    ensures Attempts(trace, tenant, window, ttl)
         == AttemptsIn(trace, tenant, window * Width(ttl), (window + 1) * Width(ttl))
  {
    if trace != [] {
      AttemptsByClock(trace[..|trace| - 1], tenant, window, ttl);
      InWindow(trace[|trace| - 1].now, window, ttl);
    }
  }

  lemma {:induction false} WindowAccepts(trace: seq<Attempt>, tenant: Tenant, window: int, ttl: nat, limit: nat)
    requires ttl >= 1
    ensures AcceptedIn(trace, tenant, window * Width(ttl), (window + 1) * Width(ttl), ttl, limit)
         == Min(limit, Attempts(trace, tenant, window, ttl))
  {
    if trace != [] {
      var n := |trace| - 1;
      WindowAccepts(trace[..n], tenant, window, ttl, limit);
      AcceptsFirstAttempts(trace, n, ttl, limit);
      InWindow(trace[n].now, window, ttl);
    }
  }

  /** In seconds and milliseconds: a window of ttl seconds accepts the limit, or all attempts made in it
    if they are fewer. */
  lemma OneWindow(trace: seq<Attempt>, tenant: Tenant, window: int, ttl: nat, limit: nat)
    requires ttl >= 1
    ensures var lo, hi := window * (ttl * 1000), (window + 1) * (ttl * 1000);
      AcceptedIn(trace, tenant, lo, hi, ttl, limit) == Min(limit, AttemptsIn(trace, tenant, lo, hi))
  {
    WindowAccepts(trace, tenant, window, ttl, limit);
    AttemptsByClock(trace, tenant, window, ttl);
  }

  /**
   A request is accepted exactly if fewer than the limit were made by its tenant before it
   in its window of ttl seconds, whose number is that of the whole windows since instant 0.
  */
  lemma AcceptedIff(trace: seq<Attempt>, i: nat, window: int, ttl: nat, limit: nat)
    requires ttl >= 1 && i < |trace| && window * (ttl * 1000) <= trace[i].now < (window + 1) * (ttl * 1000)
    ensures Accepts(trace, i, ttl, limit)
      <==> AttemptsIn(trace[..i], trace[i].tenant, window * (ttl * 1000), (window + 1) * (ttl * 1000)) < limit
  {
    InWindow(trace[i].now, window, ttl);
    AcceptsFirstAttempts(trace, i, ttl, limit);
    AttemptsByClock(trace[..i], trace[i].tenant, window, ttl);
  }

  lemma InWindow(now: int, window: int, ttl: nat)
    requires ttl >= 1
    ensures WindowOf(now, ttl) == window <==> window * Width(ttl) <= now < (window + 1) * Width(ttl)
  {
    var w, width := WindowOf(now, ttl), Width(ttl);
    WindowBounds(now, ttl);
    if w < window { TimesKeepsOrder(w + 1, window, width); }
    if window < w { TimesKeepsOrder(window + 1, w, width); }
  }

  lemma {:induction false} Windows(trace: seq<Attempt>, tenant: Tenant, first: int, count: nat, ttl: nat, limit: nat)
    requires ttl >= 1
    ensures AcceptedIn(trace, tenant, first * Width(ttl), (first + count) * Width(ttl), ttl, limit) <= count * limit
  {
    var width := Width(ttl);
    if count == 0 {
      EmptySpan(trace, tenant, first * width, ttl, limit);
    } else {
      Windows(trace, tenant, first, count - 1, ttl, limit);
      WindowAccepts(trace, tenant, first + count - 1, ttl, limit);
      TimesKeepsOrder(first, first + count - 1, width);
      TimesKeepsOrder(first + count - 1, first + count, width);
      assert (first + (count - 1)) * width == (first + count - 1) * width;
      SpansAdd(trace, tenant, first * width, (first + count - 1) * width, (first + count) * width, ttl, limit);
      assert (count - 1) * limit + limit == count * limit;
    }
  }

  lemma {:induction false} EmptySpan(trace: seq<Attempt>, tenant: Tenant, at: int, ttl: nat, limit: nat)
    requires ttl >= 1
    ensures AcceptedIn(trace, tenant, at, at, ttl, limit) == 0
  {
    if trace != [] { EmptySpan(trace[..|trace| - 1], tenant, at, ttl, limit); }
  }

  lemma AlignedBound(trace: seq<Attempt>, tenant: Tenant, from: int, k: nat, ttl: nat, limit: nat)
    requires ttl >= 1
    ensures AcceptedIn(trace, tenant, from, from + k * Width(ttl), ttl, limit) <= (k + 1) * limit
  {
    var width := Width(ttl);
    var first := WindowOf(from, ttl);
    var lo, hi := first * width, (first + (k + 1)) * width;
    WindowBounds(from, ttl);
    assert hi == (first + 1) * width + k * width;
    Windows(trace, tenant, first, k + 1, ttl, limit);
    SpansAdd(trace, tenant, lo, from, hi, ttl, limit);
    SpansAdd(trace, tenant, from, from + k * width, hi, ttl, limit);
  }

  /**
   The rate over any span, aligned with the windows or not: from any instant on, k times
   ttl seconds see at most k + 1 times the limit of one tenant's requests accepted.
  */
  lemma RateBound(trace: seq<Attempt>, tenant: Tenant, from: int, k: nat, ttl: nat, limit: nat)
    requires ttl >= 1
    ensures AcceptedIn(trace, tenant, from, from + k * ttl * 1000, ttl, limit) <= (k + 1) * limit
  {
    AlignedBound(trace, tenant, from, k, ttl, limit);
    assert k * Width(ttl) == k * ttl * 1000;
  }
}
