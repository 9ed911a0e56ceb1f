// What the pipeline promises about whole runs, read off the invariant.
module Guarantees {
  import opened Common
  import opened Pipeline
  import opened Invariant

  // ---- sets of numbers ----

  lemma {:induction false} SizeOfNumbersUpTo(numbers: set<nat>, n: nat)
    requires forall i :: i in numbers ==> 1 <= i <= n
    ensures |numbers| <= n
  {
    if n == 0 {
      assert numbers == {};
    } else {
      SizeOfNumbersUpTo(numbers - {n}, n - 1);
      assert numbers <= (numbers - {n}) + {n};
    }
  }

  function ClaimedNumbers(s: State, d: DeliveryId): set<nat> {
    set a | a in s.attempts && a.delivery == d :: a.no
  }

  // ---- what each kind of action leaves alone ----

  // Deliveries, requests and redeliveries are as before, rows keep their targets and never
  // become PENDING again.
  ghost predicate Aside(s: State, t: State) {
    t.deliveries == s.deliveries && t.sent == s.sent && t.redelivered == s.redelivered && RowsStay(s, t)
  }

  ghost predicate RowsStay(s: State, t: State) {
    forall x :: x in s.outbox ==>
      && x in t.outbox && t.outbox[x] == s.outbox[x].(published := t.outbox[x].published)
      && (s.outbox[x].published ==> t.outbox[x].published)
  }

  lemma ApiLeaves(s: State, call: ApiCall)
    requires ApiEnabled(s, call)
    ensures var t := AfterApi(s, call); t.sent == s.sent && RowsStay(s, t)
    ensures AfterApi(s, call).redelivered ==
      s.redelivered + if call.Redeliver? then multiset{call.delivery} else multiset{}
  {
  }

  lemma RelayLeaves(s: State, k: TickId, step: RelayStep)
    requires RelayEnabled(s, k, step)
    ensures Aside(s, AfterRelay(s, k, step))
  {
  }

  lemma QueueLeaves(s: State, j: JobKey, step: QueueStep)
    requires QueueEnabled(s, j, step)
    ensures Aside(s, AfterQueue(s, j, step))
  {
  }

  lemma StepLeaves(m: MaxAttempts, s: State, r: RunId, step: RunStep)
    requires StepEnabled(s, r, step)
    ensures var t := AfterStep(m, s, r, step); t.redelivered == s.redelivered && t.outbox == s.outbox
    ensures AfterStep(m, s, r, step).sent ==
      s.sent + if step == Send then {Attempt(s.runs[r].job.delivery, s.runs[r].pc.no)} else {}
  {
  }

  lemma EndLeaves(m: MaxAttempts, s: State, r: RunId, end: RunEnd)
    requires EndEnabled(s, r, end)
    ensures Aside(s, AfterEnd(m, s, r, end))
  {
  }

  lemma ActionLeaves(m: MaxAttempts, s: State, a: Action)
    requires Enabled(s, a)
    ensures RowsStay(s, Apply(m, s, a))
    ensures Apply(m, s, a).redelivered ==
      s.redelivered + if a.Api? && a.call.Redeliver? then multiset{a.call.delivery} else multiset{}
    ensures Apply(m, s, a).sent ==
      s.sent + if a.Worker? && a.step == Send then {Attempt(s.runs[a.run].job.delivery, s.runs[a.run].pc.no)} else {}
  {
    match a
    case Api(call) => ApiLeaves(s, call);
    case Relay(t, step) => RelayLeaves(s, t, step);
    case Queue(j, step) => QueueLeaves(s, j, step);
    case Worker(r, step) => StepLeaves(m, s, r, step);
    case Ends(r, end) => EndLeaves(m, s, r, end);
    case Receive(_) =>
  }

  // ---- the claim is a lock ----

  // Claimed numbers are 1 to attemptCount, or one more, and only that one can lack
  // its result.
  lemma ClaimsAreConsecutive(m: MaxAttempts, s: State, d: DeliveryId)
    requires Reachable(m, s) && d in s.deliveries
    ensures var k := s.deliveries[d].attemptCount;
      var top := if Attempt(d, k + 1) in s.attempts then k + 1 else k;
      forall n: nat :: n in ClaimedNumbers(s, d) <==> 1 <= n <= top
    ensures forall n :: 1 <= n <= s.deliveries[d].attemptCount ==>
      Attempt(d, n) in s.attempts && s.attempts[Attempt(d, n)].result.Some?
  {
    ReachableKeepsInv(m, s);
    var k := s.deliveries[d].attemptCount;
    forall n: nat | 1 <= n <= k + 1 && (n <= k || Attempt(d, n) in s.attempts) ensures n in ClaimedNumbers(s, d) {
      assert Attempt(d, n) in s.attempts;
    }
  }

  lemma OneRunAtATime(m: MaxAttempts, s: State, r: RunId, q: RunId)
    requires Reachable(m, s) && r in s.runs && q in s.runs
    requires Window(s.runs[r].pc) && Window(s.runs[q].pc) && s.runs[r].job.delivery == s.runs[q].job.delivery
    ensures r == q
    ensures s.runs[r].job.delivery in s.deliveries
    ensures s.runs[r].pc.no == s.deliveries[s.runs[r].job.delivery].attemptCount + 1
  {
    ReachableKeepsInv(m, s);
    assert PcOk(m, s.deliveries, s.attempts, r, s.runs[r]) && PcOk(m, s.deliveries, s.attempts, q, s.runs[q]);
  }

  // The attempts whose HTTP request an action puts on the wire.
  ghost function SentBy(s: State, a: Action): (sent: seq<Attempt>)
    requires Enabled(s, a)
    ensures |sent| <= 1
  {
    if a.Worker? && a.step == Send then [Attempt(s.runs[a.run].job.delivery, s.runs[a.run].pc.no)] else []
  }

  // The HTTP requests of a trace, in order.
  ghost function SendLog(m: MaxAttempts, s: State, trace: seq<Action>): seq<Attempt>
    requires ValidTrace(m, s, trace)
    decreases |trace|
  {
    if trace == [] then [] else SentBy(s, trace[0]) + SendLog(m, Apply(m, s, trace[0]), trace[1..])
  }

  lemma SendIsNew(m: MaxAttempts, s: State, a: Action)
    requires Sends(s.attempts, s.runs, s.sent, s.acked) && Enabled(s, a)
    ensures forall x :: x in SentBy(s, a) ==> x !in s.sent
  {
    if a.Worker? && a.step == Send {
      assert RunEvidence(s.runs[a.run], s.sent, s.acked);
    }
  }

  // A log of requests none of which is in `sent`, and none twice.
  ghost predicate NewTo(sent: set<Attempt>, log: seq<Attempt>) {
    && (forall i :: 0 <= i < |log| ==> log[i] !in sent)
    && (forall i, k :: 0 <= i < k < |log| ==> log[i] != log[k])
  }

  lemma NewToPrepend(sent: set<Attempt>, first: seq<Attempt>, rest: seq<Attempt>)
    requires |first| <= 1 && forall x :: x in first ==> x !in sent
    requires NewTo(if first == [] then sent else sent + {first[0]}, rest)
    ensures NewTo(sent, first + rest)
  {
  }

  lemma {:induction false} LaterSendsAreNew(m: MaxAttempts, s: State, trace: seq<Action>)
    requires Inv(m, s) && ValidTrace(m, s, trace)
    ensures NewTo(s.sent, SendLog(m, s, trace))
    decreases |trace|
  {
    if trace != [] {
      StepKeepsInv(m, s, trace[0]);
      SendIsNew(m, s, trace[0]);
      ActionLeaves(m, s, trace[0]);
      LaterSendsAreNew(m, Apply(m, s, trace[0]), trace[1..]);
      NewToPrepend(s.sent, SentBy(s, trace[0]), SendLog(m, Apply(m, s, trace[0]), trace[1..]));
    }
  }

  // Over any run from the start, no attempt of a delivery is sent twice.
  lemma EachAttemptIsSentOnce(m: MaxAttempts, trace: seq<Action>, i: nat, k: nat)
    requires ValidTrace(m, INIT, trace) && i < k < |SendLog(m, INIT, trace)|
    ensures SendLog(m, INIT, trace)[i] != SendLog(m, INIT, trace)[k]
  {
    LaterSendsAreNew(m, INIT, trace);
  }

  // A result row says truly whether the request went out and was taken in.
  lemma ResultsAreTrue(m: MaxAttempts, s: State, a: Attempt)
    requires Reachable(m, s) && a in s.attempts && a.delivery in s.deliveries
    requires a.no <= s.deliveries[a.delivery].attemptCount
    ensures s.attempts[a].result.Some?
    ensures s.attempts[a].result.value == CircuitOpen <==> a !in s.sent
    ensures s.attempts[a].result.value == Ok ==> a.delivery in s.processed
  {
    ReachableKeepsInv(m, s);
    assert a == Attempt(a.delivery, a.no);
  }

  // ---- attempts and statuses ----

  predicate Redelivers(a: Action, d: DeliveryId) {
    a.Api? && a.call.Redeliver? && a.call.delivery == d
  }

  function Redeliveries(trace: seq<Action>, d: DeliveryId): nat {
    if trace == [] then 0 else (if Redelivers(trace[0], d) then 1 else 0) + Redeliveries(trace[1..], d)
  }

  lemma {:induction false} TraceCountsRedeliveries(m: MaxAttempts, s: State, trace: seq<Action>, d: DeliveryId)
    requires ValidTrace(m, s, trace)
    ensures After(m, s, trace).redelivered[d] == s.redelivered[d] + Redeliveries(trace, d)
    decreases |trace|
  {
    if trace != [] {
      ActionLeaves(m, s, trace[0]);
      TraceCountsRedeliveries(m, Apply(m, s, trace[0]), trace[1..], d);
    }
  }

  // However many jobs, relays and crashes: maxAttempts claims, and one more for
  // each redelivery asked for.
  lemma ClaimsAreBounded(m: MaxAttempts, trace: seq<Action>, d: DeliveryId)
    requires ValidTrace(m, INIT, trace)
    ensures |ClaimedNumbers(After(m, INIT, trace), d)| <= m + Redeliveries(trace, d)
  {
    var s := After(m, INIT, trace);
    TraceKeepsInv(m, INIT, trace);
    TraceCountsRedeliveries(m, INIT, trace, d);
    SizeOfNumbersUpTo(ClaimedNumbers(s, d), m + Redeliveries(trace, d));
  }

  lemma StatusFitsCount(m: MaxAttempts, s: State, d: DeliveryId)
    requires Reachable(m, s) && d in s.deliveries
    ensures var delivery := s.deliveries[d];
      && (delivery.status == FailedRetrying ==> 1 <= delivery.attemptCount < m)
      && (delivery.status == Dead ==> m <= delivery.attemptCount)
      && (delivery.status == Succeeded ==> 1 <= delivery.attemptCount)
  {
    ReachableKeepsInv(m, s);
    assert StatusOk(m, s.deliveries[d], s.redelivered[d]);
  }

  ghost predicate Forward(s: State, t: State, d: DeliveryId, redelivered: bool)
    requires d in s.deliveries
  {
    && d in t.deliveries && s.deliveries[d].attemptCount <= t.deliveries[d].attemptCount
    && (Terminal(s.deliveries[d].status) && !redelivered ==> t.deliveries[d] == s.deliveries[d])
  }

  lemma ApiMovesForward(s: State, call: ApiCall, d: DeliveryId)
    requires ApiEnabled(s, call) && d in s.deliveries
    ensures Forward(s, AfterApi(s, call), d, call.Redeliver? && call.delivery == d)
  {
  }

  lemma StepMovesForward(m: MaxAttempts, s: State, r: RunId, step: RunStep, d: DeliveryId)
    requires Holders(m, s.deliveries, s.attempts, s.runs) && StepEnabled(s, r, step) && d in s.deliveries
    ensures Forward(s, AfterStep(m, s, r, step), d, false)
  {
    assert PcOk(m, s.deliveries, s.attempts, r, s.runs[r]);
  }

  lemma ActionMovesForward(m: MaxAttempts, s: State, a: Action, d: DeliveryId)
    requires Holders(m, s.deliveries, s.attempts, s.runs) && Enabled(s, a) && d in s.deliveries
    ensures Forward(s, Apply(m, s, a), d, Redelivers(a, d))
  {
    match a
    case Api(call) => ApiMovesForward(s, call, d);
    case Relay(t, step) => RelayLeaves(s, t, step);
    case Queue(j, step) => QueueLeaves(s, j, step);
    case Worker(r, step) => StepMovesForward(m, s, r, step, d);
    case Ends(r, end) => EndLeaves(m, s, r, end);
    case Receive(_) =>
  }

  lemma ForwardChains(s: State, t: State, u: State, d: DeliveryId, first: bool, rest: bool)
    requires d in s.deliveries && Forward(s, t, d, first) && Forward(t, u, d, rest)
    ensures Forward(s, u, d, first || rest)
  {
  }

  // attemptCount never decreases, and only a redelivery moves a finished delivery.
  lemma {:induction false} HistoryMovesForward(m: MaxAttempts, s: State, trace: seq<Action>, d: DeliveryId)
    requires Inv(m, s) && ValidTrace(m, s, trace) && d in s.deliveries
    ensures Forward(s, After(m, s, trace), d, Redeliveries(trace, d) > 0)
    decreases |trace|
  {
    if trace != [] {
      StepKeepsInv(m, s, trace[0]);
      ActionMovesForward(m, s, trace[0], d);
      HistoryMovesForward(m, Apply(m, s, trace[0]), trace[1..], d);
      var t, u := Apply(m, s, trace[0]), After(m, s, trace);
      ForwardChains(s, t, u, d, Redelivers(trace[0], d), Redeliveries(trace[1..], d) > 0);
    }
  }

  // ---- the queue's counter ----

  // A job's RetrySignals are for distinct attempt numbers below maxAttempts, so the
  // queue's own budget outlasts them: unless other exceptions spent it, the job of a
  // retrying delivery is delayed again and never dropped.
  lemma RetriesFitTheBudget(m: MaxAttempts, s: State, r: RunId)
    requires Reachable(m, s) && EndEnabled(s, r, Signal) && Owns(s, r)
    ensures var j := s.runs[r].job; var job := s.jobs[j];
      && s.runs[r].pc.no !in job.signalled
      && job.made == |job.signalled| + job.faults
      && |job.signalled| + 1 < m
    ensures var j := s.runs[r].job; s.jobs[j].faults == 0 ==>
      j in AfterSignal(m, s, r).jobs && AfterSignal(m, s, r).jobs[j].state == Delayed
  {
    ReachableKeepsInv(m, s);
    var j := s.runs[r].job;
    var no := s.runs[r].pc.no;
    assert PcOk(m, s.deliveries, s.attempts, r, s.runs[r]);
    SizeOfNumbersUpTo(s.jobs[j].signalled + {no}, m - 1);
    assert |s.jobs[j].signalled + {no}| == |s.jobs[j].signalled| + 1;
  }

  // ---- the relay ----

  lemma PublishedIsEnqueued(m: MaxAttempts, s: State, x: RowId, d: DeliveryId)
    requires Reachable(m, s) && x in s.outbox && s.outbox[x].published && IsTarget(s.deliveries, s.outbox[x], d)
    ensures Target(x, d) in s.enqueued
  {
    ReachableKeepsInv(m, s);
    assert AllEnqueued(s.deliveries, s.outbox, s.enqueued, x);
  }

  // PUBLISHED is for good.
  lemma {:induction false} PublishedStays(m: MaxAttempts, s: State, trace: seq<Action>)
    requires ValidTrace(m, s, trace)
    ensures RowsStay(s, After(m, s, trace))
    decreases |trace|
  {
    if trace != [] {
      ActionLeaves(m, s, trace[0]);
      PublishedStays(m, Apply(m, s, trace[0]), trace[1..]);
    }
  }

  ghost predicate SameTargets(s: State, t: State, x: RowId) {
    x in s.outbox && x in t.outbox
    && forall d :: IsTarget(s.deliveries, s.outbox[x], d) <==> IsTarget(t.deliveries, t.outbox[x], d)
  }

  lemma ApiKeepsTargets(s: State, call: ApiCall, x: RowId)
    requires Refs(s.events, s.deliveries, s.outbox, s.jobs) && ApiEnabled(s, call) && x in s.outbox
    ensures SameTargets(s, AfterApi(s, call), x)
  {
  }

  lemma StepKeepsTargets(m: MaxAttempts, s: State, r: RunId, step: RunStep, x: RowId)
    requires StepEnabled(s, r, step) && x in s.outbox
    ensures SameTargets(s, AfterStep(m, s, r, step), x)
  {
  }

  lemma ActionKeepsTargets(m: MaxAttempts, s: State, a: Action, x: RowId)
    requires Refs(s.events, s.deliveries, s.outbox, s.jobs) && Enabled(s, a) && x in s.outbox
    ensures SameTargets(s, Apply(m, s, a), x)
  {
    match a
    case Api(call) => ApiKeepsTargets(s, call, x);
    case Relay(t, step) => RelayLeaves(s, t, step);
    case Queue(j, step) => QueueLeaves(s, j, step);
    case Worker(r, step) => StepKeepsTargets(m, s, r, step, x);
    case Ends(r, end) => EndLeaves(m, s, r, end);
    case Receive(_) =>
  }

  // A row's targets are settled in the transaction that writes it.
  lemma {:induction false} TargetsAreSettled(m: MaxAttempts, s: State, trace: seq<Action>, x: RowId)
    requires Inv(m, s) && ValidTrace(m, s, trace) && x in s.outbox
    ensures SameTargets(s, After(m, s, trace), x)
    decreases |trace|
  {
    if trace != [] {
      StepKeepsInv(m, s, trace[0]);
      ActionKeepsTargets(m, s, trace[0], x);
      TargetsAreSettled(m, Apply(m, s, trace[0]), trace[1..], x);
    }
  }

  // ---- exactly-once effect at an idempotent receiver ----

  lemma EffectIsExactlyOnce(m: MaxAttempts, s: State, d: DeliveryId)
    requires Reachable(m, s)
    ensures s.effects[d] <= 1
    ensures d in s.deliveries && s.deliveries[d].status == Succeeded ==> s.effects[d] == 1
    ensures forall a :: a in s.attempts && a.delivery == d && s.attempts[a].result == Some(Ok) ==> s.effects[d] == 1
  {
    ReachableKeepsInv(m, s);
  }
}
