// Retry delays: exponential backoff with full jitter, and the way a delay travels
// from the failed attempt to the queue.
module Backoff {
  import opened Common
  import opened Decimal
  import opened Arithmetic

  datatype RetryPolicy = RetryPolicy(baseMs: int, capMs: int, maxAttempts: int)

  const RETRY_DEFAULTS := RetryPolicy(30_000, 4 * 60 * 60 * 1000, 8)

  function ExponentialCeilingMs(failedAttemptNo: int, policy: RetryPolicy): int {
    Min(policy.capMs, policy.baseMs * Pow2(Max(0, failedAttemptNo - 1)))
  }

  // `random` in [0, 1).
  function FullJitterDelayMs(failedAttemptNo: int, policy: RetryPolicy, random: real): int {
    var ceiling := ExponentialCeilingMs(failedAttemptNo, policy);
    if ceiling <= 0 then 0 else Scaled(random, ceiling)
  }

  function Scaled(random: real, ceiling: int): int {
    (random * ceiling as real).Floor
  }

  // ---- one delay ----

  lemma CeilingGrowsToCap(n: int, k: int, policy: RetryPolicy)
    requires policy.baseMs >= 0 && n <= k
    ensures ExponentialCeilingMs(n, policy) <= ExponentialCeilingMs(k, policy) <= policy.capMs
  {
    Pow2Grows(Max(0, n - 1), Max(0, k - 1));
    ScaledGrows(policy.baseMs, Pow2(Max(0, n - 1)), Pow2(Max(0, k - 1)));
  }

  lemma JitterIsBelowCeiling(n: int, policy: RetryPolicy, random: real)
    requires 0.0 <= random < 1.0
    ensures var ceiling := ExponentialCeilingMs(n, policy); var delay := FullJitterDelayMs(n, policy, random);
      if ceiling > 0 then 0 <= delay < ceiling && delay as real <= random * ceiling as real < delay as real + 1.0
      else delay == 0
  {
    if ExponentialCeilingMs(n, policy) > 0 {
      ScaledBelow(random, ExponentialCeilingMs(n, policy));
    }
  }

  // The jitter is full: the possible delays are exactly the whole numbers below the ceiling.
  lemma JitterReachesExactly(n: int, policy: RetryPolicy, delay: int)
    requires ExponentialCeilingMs(n, policy) > 0
    ensures (exists random: real :: 0.0 <= random < 1.0 && FullJitterDelayMs(n, policy, random) == delay)
      <==> 0 <= delay < ExponentialCeilingMs(n, policy)
  {
    var c := ExponentialCeilingMs(n, policy);
    if 0 <= delay < c {
      var random := delay as real / c as real;
      QuotientBelowOne(delay as real, c as real);
      assert random * c as real == delay as real;
      assert Scaled(random, c) == delay;
      assert FullJitterDelayMs(n, policy, random) == delay;
    }
    forall random: real | 0.0 <= random < 1.0 && FullJitterDelayMs(n, policy, random) == delay
      ensures 0 <= delay < c
    {
      JitterIsBelowCeiling(n, policy, random);
    }
  }

  // Up to the first failure the ceiling is the base, unless the cap is lower.
  lemma FirstCeiling(n: int, policy: RetryPolicy)
    requires n <= 1
    ensures ExponentialCeilingMs(n, policy) == if policy.baseMs <= policy.capMs then policy.baseMs else policy.capMs
  {
    assert Pow2(Max(0, n - 1)) == 1;
  }

  lemma ScaledBelow(random: real, c: int)
    requires 0.0 <= random < 1.0 && c > 0
    ensures 0 <= Scaled(random, c) < c
  {
    var r := c as real;
    ProductIsPositive(random, r);
    ProductIsPositive(1.0 - random, r);
    assert (1.0 - random) * r == r - random * r;
    FloorBelow(random * r, c);
  }

  lemma ProductIsPositive(a: real, b: real)
    requires 0.0 <= a && 0.0 < b
    ensures 0.0 <= a * b && (0.0 < a ==> 0.0 < a * b)
  {
  }

  lemma FloorBelow(x: real, c: int)
    requires 0.0 <= x < c as real
    ensures 0 <= x.Floor < c
  {
  }

  lemma QuotientBelowOne(a: real, b: real)
    requires 0.0 <= a < b
    ensures 0.0 <= a / b < 1.0
  {
    assert (a / b) * b == a;
    assert (1.0 - a / b) * b == b - a;
  }

  // ---- the whole wait ----

  function SumOfCeilings(k: nat, policy: RetryPolicy): int {
    if k == 0 then 0 else SumOfCeilings(k - 1, policy) + ExponentialCeilingMs(k, policy)
  }

  // The first k failures are all below the cap.
  lemma {:induction false} SumBelowCap(k: nat, policy: RetryPolicy)
    requires policy.baseMs >= 0 && (k > 0 ==> policy.baseMs * Pow2(k - 1) <= policy.capMs)
    ensures SumOfCeilings(k, policy) == policy.baseMs * (Pow2(k) - 1)
  {
    if k > 1 {
      ScaledGrows(policy.baseMs, Pow2(k - 2), Pow2(k - 1));
    }
    if k > 0 {
      SumBelowCap(k - 1, policy);
      Distributes(policy.baseMs, Pow2(k - 1));
    }
  }

  lemma Distributes(a: int, p: int)
    ensures a * (p - 1) + a * p == a * (2 * p - 1)
  {
  }

  // m failures are below the cap and the next is not: from there on the sum is linear.
  lemma {:induction false} SumPastCap(m: nat, k: nat, policy: RetryPolicy)
    requires policy.baseMs >= 0 && m <= k
    requires m > 0 ==> policy.baseMs * Pow2(m - 1) <= policy.capMs
    requires policy.capMs <= policy.baseMs * Pow2(m)
    ensures SumOfCeilings(k, policy) == policy.baseMs * (Pow2(m) - 1) + (k - m) * policy.capMs
    decreases k
  {
    if m == k {
      SumBelowCap(k, policy);
    } else {
      SumPastCap(m, k - 1, policy);
      Pow2Grows(m, k - 1);
      ScaledGrows(policy.baseMs, Pow2(m), Pow2(k - 1));
      assert (k - m) * policy.capMs == (k - 1 - m) * policy.capMs + policy.capMs;
    }
  }

  // A positive base reaches any cap, so one of the two forms always applies.
  lemma CapIsReached(policy: RetryPolicy) returns (m: nat)
    requires policy.baseMs > 0
    ensures policy.capMs <= policy.baseMs * Pow2(m)
    ensures m > 0 ==> policy.baseMs * Pow2(m - 1) < policy.capMs
  {
    m := 0;
    var ceiling := policy.baseMs;
    while ceiling < policy.capMs
      invariant ceiling == policy.baseMs * Pow2(m) && ceiling > 0
      invariant m > 0 ==> policy.baseMs * Pow2(m - 1) < policy.capMs
      decreases policy.capMs - ceiling
    {
      m, ceiling := m + 1, 2 * ceiling;
      assert Pow2(m) == 2 * Pow2(m - 1);
    }
  }

  // The closed form for every k: geometric up to the first m failures, whose ceilings
  // are below the cap, linear after them.
  lemma SumOfCeilingsIs(k: nat, policy: RetryPolicy) returns (m: nat)
    requires policy.baseMs > 0
    ensures policy.capMs <= policy.baseMs * Pow2(m) && (m > 0 ==> policy.baseMs * Pow2(m - 1) < policy.capMs)
    ensures var below := if k <= m then k else m;
      SumOfCeilings(k, policy) == policy.baseMs * (Pow2(below) - 1) + (k - below) * policy.capMs
  {
    m := CapIsReached(policy);
    if k <= m {
      SumUpTo(m, k, policy);
    } else {
      SumPastCap(m, k, policy);
    }
  }

  lemma SumUpTo(m: nat, k: nat, policy: RetryPolicy)
    requires policy.baseMs > 0 && k <= m && (m > 0 ==> policy.baseMs * Pow2(m - 1) < policy.capMs)
    ensures SumOfCeilings(k, policy) == policy.baseMs * (Pow2(k) - 1)
  {
    if k > 0 {
      Pow2Grows(k - 1, m - 1);
      ScaledGrows(policy.baseMs, Pow2(k - 1), Pow2(m - 1));
    }
    SumBelowCap(k, policy);
  }

  // All waiting of a delivery whose i-th failure drew random number i.
  function TotalWait(randoms: seq<real>, policy: RetryPolicy): int {
    if randoms == [] then 0
    else TotalWait(randoms[..|randoms| - 1], policy) + FullJitterDelayMs(|randoms|, policy, randoms[|randoms| - 1])
  }

  lemma {:induction false} WaitIsBounded(randoms: seq<real>, policy: RetryPolicy)
    requires policy.baseMs >= 0 && policy.capMs >= 0 && forall i :: 0 <= i < |randoms| ==> 0.0 <= randoms[i] < 1.0
    ensures 0 <= TotalWait(randoms, policy) <= SumOfCeilings(|randoms|, policy)
    ensures randoms != [] && policy.baseMs > 0 && policy.capMs > 0 ==>
      TotalWait(randoms, policy) < SumOfCeilings(|randoms|, policy)
  {
    if randoms != [] {
      var n := |randoms|;
      WaitIsBounded(randoms[..n - 1], policy);
      JitterIsBelowCeiling(n, policy, randoms[n - 1]);
      ScaledGrows(policy.baseMs, 1, Pow2(Max(0, n - 1)));
    }
  }

  // With the defaults a delivery waits less than 3,810 s between its first failure
  // and its eighth, when it is DEAD.
  lemma DefaultsWaitUnderAnHourAndFourMinutes(randoms: seq<real>)
    requires |randoms| < RETRY_DEFAULTS.maxAttempts && forall i :: 0 <= i < |randoms| ==> 0.0 <= randoms[i] < 1.0
    ensures TotalWait(randoms, RETRY_DEFAULTS) < 3_810_000
  {
    WaitIsBounded(randoms, RETRY_DEFAULTS);
    assert Pow2(6) == 64 && Pow2(7) == 128;
    SumBelowCap(7, RETRY_DEFAULTS);
    SumsGrow(|randoms|, 7, RETRY_DEFAULTS);
  }

  lemma {:induction false} SumsGrow(a: nat, b: nat, policy: RetryPolicy)
    requires a <= b && policy.baseMs >= 0 && policy.capMs >= 0
    ensures SumOfCeilings(a, policy) <= SumOfCeilings(b, policy)
    decreases b
  {
    if a < b {
      SumsGrow(a, b - 1, policy);
      ScaledGrows(policy.baseMs, 0, Pow2(Max(0, b - 1)));
    }
  }

  // ---- from the attempt to the queue ----

  // An error as the queue hands it back: as thrown, or wrapped with its message only.
  datatype Error = RetrySignal(delayMs: nat) | Wrapped(message: string)

  const PREFIX := "retry in "
  const SUFFIX := "ms"

  function Message(error: Error): string {
    match error
    case RetrySignal(delay) => PREFIX + Print(delay) + SUFFIX
    case Wrapped(message) => message
  }

  // The text between `retry in ` and `ms`, when the message is of that form.
  function Middle(message: string): Option<string> {
    if |message| >= |PREFIX| + |SUFFIX| && message[..|PREFIX|] == PREFIX && message[|message| - |SUFFIX|..] == SUFFIX
    then Some(message[|PREFIX|..|message| - |SUFFIX|]) else None
  }

  function BackoffStrategy(error: Option<Error>): nat {
    match error
    case None => RETRY_DEFAULTS.baseMs
    case Some(RetrySignal(delay)) => delay
    case Some(Wrapped(message)) =>
      var digits := Middle(message);
      if digits.Some? && IsDigits(digits.value) then Value(digits.value) else RETRY_DEFAULTS.baseMs
  }

  lemma MiddleOf(text: string)
    ensures Middle(PREFIX + text + SUFFIX) == Some(text)
  {
    var message := PREFIX + text + SUFFIX;
    assert message[..|PREFIX|] == PREFIX;
    assert message[|message| - |SUFFIX|..] == SUFFIX;
    assert message[|PREFIX|..|message| - |SUFFIX|] == text;
  }

  // Wrapping loses nothing: the queue uses the delay the worker drew.
  lemma DelaySurvivesWrapping(delay: nat)
    ensures BackoffStrategy(Some(RetrySignal(delay))) == delay
    ensures BackoffStrategy(Some(Wrapped(Message(RetrySignal(delay))))) == delay
  {
    MiddleOf(Print(delay));
    ValueOfPrinted(delay);
  }

  // Without an error the delay is the default base.
  lemma NoErrorNoDelay()
    ensures BackoffStrategy(None) == 30_000
  {
  }

  // No other message tells a delay: a wrapped error gives one other than the
  // default only if it is that of a RetrySignal, up to leading zeros.
  lemma OnlySignalsTellDelays(message: string)
    requires BackoffStrategy(Some(Wrapped(message))) != RETRY_DEFAULTS.baseMs
    ensures exists digits: string ::
      (IsDigits(digits) && message == PREFIX + digits + SUFFIX
      && BackoffStrategy(Some(Wrapped(message))) == Value(digits)
      && (IsCanonical(digits) ==> message == Message(RetrySignal(Value(digits)))))
  {
    var digits := Middle(message).value;
    assert message == message[..|PREFIX|] + digits + message[|message| - |SUFFIX|..];
    if IsCanonical(digits) {
      PrintOfValue(digits);
    }
  }
}
