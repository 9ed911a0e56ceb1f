// The publish limiter: one fixed-window counter per tenant, kept in Redis.
module RateLimiter {
  import opened Common

  type TenantId = nat
  datatype Counter = Counter(count: nat, expiresAt: int)
  datatype Verdict = Accepted | RateLimited(retryAfterSec: int)

  const WINDOW_MS: int := 60_000

  // INCR, then EXPIRE when the key is new. A key past its expiry is absent.
  function Incr(key: Option<Counter>, now: int): Counter {
    if key.Some? && now < key.value.expiresAt then key.value.(count := key.value.count + 1)
    else Counter(1, now + WINDOW_MS)
  }

  // Redis answers TTL in seconds, rounded to the nearest.
  function Ttl(key: Counter, now: int): int {
    (key.expiresAt - now + 500) / 1000
  }

  // ---- the key after a run of requests, and its windows ----

  predicate Ordered(times: seq<int>) {
    forall i, k :: 0 <= i < k < |times| ==> times[i] <= times[k]
  }

  function KeyAfter(times: seq<int>): Option<Counter> {
    if times == [] then None else Some(Incr(KeyAfter(times[..|times| - 1]), times[|times| - 1]))
  }

  // The request that opened the window of request i: the previous one's, unless
  // that opened a whole window length ago.
  function WindowStart(times: seq<int>, i: nat): (w: nat)
    requires i < |times|
    ensures w <= i
  {
    if i == 0 then 0
    else
      var w := WindowStart(times, i - 1);
      if times[i] < times[w] + WINDOW_MS then w else i
  }

  // What the limiter answers to request i.
  predicate Passes(times: seq<int>, i: nat, cap: int)
    requires i < |times|
  {
    KeyAfter(times[..i + 1]).value.count <= cap
  }

  lemma {:induction false} KeyCountsWindow(times: seq<int>, i: nat)
    requires i < |times|
    ensures var w := WindowStart(times, i);
      KeyAfter(times[..i + 1]) == Some(Counter(i - w + 1, times[w] + WINDOW_MS))
  {
    assert times[..i + 1][..i] == times[..i];
    if i > 0 {
      KeyCountsWindow(times, i - 1);
    }
  }

  // Each window accepts its first `cap` requests and no other.
  lemma AcceptsFirstOfWindow(times: seq<int>, i: nat, cap: int)
    requires i < |times|
    ensures Passes(times, i, cap) <==> i < WindowStart(times, i) + cap
  {
    KeyCountsWindow(times, i);
  }

  // Windows are stretches of requests, each within WINDOW_MS of its first, and the
  // next opens no earlier than that.
  lemma {:induction false} WindowsAreApart(times: seq<int>, i: nat, k: nat)
    requires Ordered(times) && i <= k < |times|
    ensures times[WindowStart(times, i)] <= times[i] < times[WindowStart(times, i)] + WINDOW_MS
    ensures WindowStart(times, WindowStart(times, i)) == WindowStart(times, i) <= WindowStart(times, k)
    ensures WindowStart(times, i) != WindowStart(times, k) ==>
      i < WindowStart(times, k) && times[WindowStart(times, i)] + WINDOW_MS <= times[WindowStart(times, k)]
    decreases k
  {
    if i < k {
      WindowsAreApart(times, i, k - 1);
    } else if k > 0 {
      WindowsAreApart(times, k - 1, k - 1);
    }
  }

  // ---- the bound over any interval ----

  ghost function AcceptedIn(times: seq<int>, cap: int, from: int): set<nat> {
    set i: nat | i < |times| && from <= times[i] < from + WINDOW_MS && Passes(times, i, cap)
  }

  function Numbers(from: nat, count: nat): (s: set<nat>)
    ensures |s| == count && forall i :: i in s <==> from <= i < from + count
  {
    if count == 0 then {} else Numbers(from, count - 1) + {from + count - 1}
  }

  lemma SubsetIsSmaller(a: set<nat>, b: set<nat>)
    requires a <= b
    ensures |a| <= |b|
  {
    assert b == a + (b - a);
  }

  // An interval of one window length touches two windows at most, and of the first
  // of two it misses the opening request.
  lemma TouchesTwoWindows(times: seq<int>, from: int, low: nat, i: nat, high: nat)
    requires Ordered(times) && low <= i <= high < |times|
    requires from <= times[low] && times[high] < from + WINDOW_MS
    ensures WindowStart(times, i) == WindowStart(times, low) || WindowStart(times, i) == WindowStart(times, high)
    ensures WindowStart(times, low) != WindowStart(times, high) ==> times[WindowStart(times, low)] < from
  {
    WindowsAreApart(times, low, high);
    WindowsAreApart(times, low, i);
    WindowsAreApart(times, i, high);
    WindowsAreApart(times, high, high);
  }

  // Any half-open 60 s interval of any request sequence accepts at most 2 cap - 1.
  lemma IntervalBound(times: seq<int>, cap: nat, from: int)
    requires Ordered(times) && cap > 0
    ensures |AcceptedIn(times, cap, from)| <= 2 * cap - 1
  {
    var accepted := AcceptedIn(times, cap, from);
    if accepted != {} {
      var low, high := Extremes(accepted);
      var a, b := WindowStart(times, low), WindowStart(times, high);
      var reach := if a == b then Numbers(b, cap) else Numbers(a + 1, cap - 1) + Numbers(b, cap);
      forall i | i in accepted
        ensures i in reach
      {
        TouchesTwoWindows(times, from, low, i, high);
        AcceptsFirstOfWindow(times, i, cap);
      }
      SubsetIsSmaller(accepted, reach);
    }
  }

  lemma {:induction false} Extremes(s: set<nat>) returns (low: nat, high: nat)
    requires s != {}
    ensures low in s && high in s && forall i :: i in s ==> low <= i <= high
    decreases |s|
  {
    var x :| x in s;
    low, high := x, x;
    if s != {x} {
      var l, h := Extremes(s - {x});
      low, high := Min(l, x), Max(h, x);
      assert s == s - {x} + {x};
    }
  }

  // One request, cap - 1 more in the window's last millisecond, cap in the next.
  function BurstAt(cap: nat, i: int): int {
    if i == 0 then 0 else if i < cap then WINDOW_MS - 1 else WINDOW_MS
  }

  lemma BoundIsMet(cap: nat) returns (times: seq<int>)
    requires cap > 0
    ensures Ordered(times) && |AcceptedIn(times, cap, 1)| == 2 * cap - 1
  {
    times := seq(2 * cap, i => BurstAt(cap, i));
    forall i: nat | i < 2 * cap
      ensures Passes(times, i, cap)
    {
      Burst(times, cap, i);
      AcceptsFirstOfWindow(times, i, cap);
    }
    assert forall i: nat :: i in AcceptedIn(times, cap, 1) <==> 1 <= i < 1 + (2 * cap - 1);
    assert AcceptedIn(times, cap, 1) == Numbers(1, 2 * cap - 1);
  }

  lemma {:induction false} Burst(times: seq<int>, cap: nat, i: nat)
    requires 0 < cap && i < |times| == 2 * cap && forall k :: 0 <= k < 2 * cap ==> times[k] == BurstAt(cap, k)
    ensures WindowStart(times, i) == if i < cap then 0 else cap
  {
    if i > 0 {
      Burst(times, cap, i - 1);
    }
  }

  lemma TtlCoversWindow(key: Counter, now: int)
    requires now < key.expiresAt <= now + WINDOW_MS
    ensures Ttl(key, now) <= 60 && key.expiresAt - now <= 1000 * Max(1, Ttl(key, now)) + 500
  {
  }

  // A right answer to the last of a run of requests: it is among the first `cap` of
  // its window, or is refused for the rest of the window, told in whole seconds and
  // at most half a second short.
  predicate Answers(times: seq<int>, cap: int, verdict: Verdict)
    requires times != []
  {
    var last := |times| - 1;
    var start := WindowStart(times, last);
    && (verdict == Accepted <==> last < start + cap)
    && (verdict != Accepted ==>
         && 1 <= verdict.retryAfterSec <= 60
         && 0 < times[start] + WINDOW_MS - times[last] <= 1000 * verdict.retryAfterSec + 500)
  }

  function VerdictOf(key: Counter, now: int, cap: int): Verdict {
    if key.count > cap then RateLimited(Max(1, Ttl(key, now))) else Accepted
  }

  lemma ScriptAnswers(before: seq<int>, now: int, cap: int)
    requires Ordered(before + [now])
    ensures var key := Incr(KeyAfter(before), now);
      KeyAfter(before + [now]) == Some(key) && Answers(before + [now], cap, VerdictOf(key, now, cap))
  {
    var times := before + [now];
    assert times[..|before|] == before && times[..|before| + 1] == times;
    KeyCountsWindow(times, |before|);
    WindowsAreApart(times, |before|, |before|);
    assert KeyAfter(times) == Some(Incr(KeyAfter(before), now));
    TtlCoversWindow(Incr(KeyAfter(before), now), now);
  }

  // ---- the service ----

  predicate Counts(key: Option<Counter>, times: seq<int>) {
    Ordered(times) && key == KeyAfter(times)
  }

  class PublishRateLimiter {
    const free: int
    const pro: int
    var keys: map<TenantId, Counter>
    ghost var requests: map<TenantId, seq<int>>   // times of the counted requests

    ghost function Requests(tenant: TenantId): seq<int>
      reads this
    {
      if tenant in requests then requests[tenant] else []
    }

    function Key(tenant: TenantId): Option<Counter>
      reads this
    {
      if tenant in keys then Some(keys[tenant]) else None
    }

    ghost predicate Valid()
      reads this
    {
      forall tenant :: Counts(Key(tenant), Requests(tenant))
    }

    constructor (free: int, pro: int)
      ensures Valid() && this.free == free && this.pro == pro && forall tenant :: Requests(tenant) == []
    {
      this.free, this.pro := free, pro;
      keys, requests := map[], map[];
    }

    // The script runs alone on Redis. A limit of zero or less switches the limiter off;
    // any plan but PRO has the limit of FREE.
    method Consume(tenant: TenantId, plan: string, now: int) returns (verdict: Verdict)
      requires Valid() && forall i :: 0 <= i < |Requests(tenant)| ==> Requests(tenant)[i] <= now
      modifies this
      ensures Valid()
      ensures forall other :: other != tenant ==> Requests(other) == old(Requests(other))
      ensures var cap := if plan == "PRO" then pro else free;
        if cap <= 0 then verdict == Accepted && Requests(tenant) == old(Requests(tenant))
        else Requests(tenant) == old(Requests(tenant)) + [now] && Answers(Requests(tenant), cap, verdict)
    {
      var cap := if plan == "PRO" then pro else free;
      if cap <= 0 {
        return Accepted;
      }
      ghost var before := Requests(tenant);
      var key := Incr(Key(tenant), now);
      ScriptAnswers(before, now, cap);
      keys, requests := keys[tenant := key], requests[tenant := before + [now]];
      assert Counts(Key(tenant), before + [now]);
      assert forall other :: other != tenant ==> Counts(Key(other), Requests(other)) by {
        assert forall other :: other != tenant ==>
          Key(other) == old(Key(other)) && Requests(other) == old(Requests(other));
      }
      return VerdictOf(key, now, cap);
    }
  }
}
