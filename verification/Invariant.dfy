// What every step of the pipeline keeps, whatever is interleaved with what.
// The predicates take the tables they speak of, so that a step is checked only
// against those that mention what it writes.
module Invariant {
  import opened Common
  import opened Pipeline

  // ---- references between tables, queue and runs ----

  ghost predicate Refs(events: set<EventId>, deliveries: map<DeliveryId, Delivery>, outbox: map<RowId, Row>,
      jobs: map<JobKey, Job>) {
    && (forall d :: d in deliveries ==> deliveries[d].event in events)
    && (forall x :: x in outbox ==> outbox[x].event in events)
    && (forall x :: x in outbox && outbox[x].delivery.Some? ==>
          outbox[x].delivery.value in deliveries && deliveries[outbox[x].delivery.value].event == outbox[x].event)
    && (forall x, y ::
          (x in outbox && y in outbox && outbox[x].delivery == None == outbox[y].delivery
            && outbox[x].event == outbox[y].event)
          ==> x == y)
    && (forall j :: j in jobs ==> j.delivery in deliveries)
  }

  // A run whose delivery is not dropped still holds the queue's lock on its job.
  ghost predicate Locks(deliveries: map<DeliveryId, Delivery>, jobs: map<JobKey, Job>, runs: map<RunId, Run>,
      nextRun: RunId, dropped: set<DeliveryId>) {
    && (forall r :: r in runs ==> r < nextRun && runs[r].job.delivery in deliveries)
    && (forall j :: j in jobs && jobs[j].state.Active? ==>
          jobs[j].state.run < nextRun && (jobs[j].state.run in runs ==> runs[jobs[j].state.run].job == j))
    && (forall r :: r in runs && runs[r].job.delivery !in dropped ==>
          runs[r].job in jobs && jobs[runs[r].job].state == Active(r))
  }

  // ---- the claim is a lock ----

  ghost predicate Claims(deliveries: map<DeliveryId, Delivery>, attempts: map<Attempt, ClaimRow>) {
    && (forall a :: a in attempts ==> a.delivery in deliveries && 1 <= a.no <= deliveries[a.delivery].attemptCount + 1)
    && (forall d, n :: d in deliveries && 1 <= n <= deliveries[d].attemptCount ==>
          Attempt(d, n) in attempts && attempts[Attempt(d, n)].result.Some?)
  }

  ghost predicate PcOk(m: MaxAttempts, deliveries: map<DeliveryId, Delivery>, attempts: map<Attempt, ClaimRow>,
      r: RunId, run: Run) {
    var d := run.job.delivery;
    && d in deliveries
    && var k := deliveries[d].attemptCount;
    && (run.pc.HasRead? ==> run.pc.count <= k && (run.pc.count == k ==> !Terminal(deliveries[d].status)))
    && (Window(run.pc) ==>
          && run.pc.no == k + 1
          && !Terminal(deliveries[d].status)
          && Attempt(d, k + 1) in attempts
          && attempts[Attempt(d, k + 1)] == ClaimRow(r, if run.pc.Recorded? then Some(run.pc.outcome) else None))
    && (run.pc.MustRetry? ==> 1 <= run.pc.no <= k && run.pc.no < m)
  }

  ghost predicate Holders(m: MaxAttempts, deliveries: map<DeliveryId, Delivery>, attempts: map<Attempt, ClaimRow>,
      runs: map<RunId, Run>) {
    forall r :: r in runs ==> PcOk(m, deliveries, attempts, r, runs[r])
  }

  // ---- what an outcome says about HTTP ----

  ghost predicate Evidence(a: Attempt, outcome: Outcome, sent: set<Attempt>, acked: set<Attempt>) {
    match outcome
    case Ok => a in acked
    case HttpFailed => a in sent
    case CircuitOpen => a !in sent
  }

  ghost predicate RunEvidence(run: Run, sent: set<Attempt>, acked: set<Attempt>) {
    && (run.pc.Claimed? ==> Attempt(run.job.delivery, run.pc.no) !in sent)
    && (run.pc.Sent? ==> Attempt(run.job.delivery, run.pc.no) in sent)
    && (run.pc.Answered? ==> Evidence(Attempt(run.job.delivery, run.pc.no), run.pc.outcome, sent, acked))
  }

  ghost predicate Sends(attempts: map<Attempt, ClaimRow>, runs: map<RunId, Run>, sent: set<Attempt>,
      acked: set<Attempt>) {
    && acked <= sent <= attempts.Keys
    && (forall a :: a in attempts && attempts[a].result.Some? ==> Evidence(a, attempts[a].result.value, sent, acked))
    && (forall r :: r in runs ==> RunEvidence(runs[r], sent, acked))
  }

  ghost predicate Effects(deliveries: map<DeliveryId, Delivery>, processed: set<DeliveryId>, acked: set<Attempt>,
      effects: multiset<DeliveryId>) {
    && effects == multiset(processed)
    && (forall a :: a in acked ==> a.delivery in processed)
    && (forall d :: d in deliveries && deliveries[d].status == Succeeded ==> d in processed)
  }

  // ---- attempts against maxAttempts ----

  ghost predicate Bounds(m: MaxAttempts, deliveries: map<DeliveryId, Delivery>, attempts: map<Attempt, ClaimRow>,
      runs: map<RunId, Run>, redelivered: multiset<DeliveryId>) {
    && (forall d :: d in deliveries ==> StatusOk(m, deliveries[d], redelivered[d]))
    && (forall a :: a in attempts ==> a.no <= m + redelivered[a.delivery])
    && (forall r :: r in runs && runs[r].pc.HasRead? ==> runs[r].pc.count + 1 <= m + redelivered[runs[r].job.delivery])
  }

  ghost predicate StatusOk(m: MaxAttempts, delivery: Delivery, redeliveries: nat) {
    var k := delivery.attemptCount;
    && k <= m + redeliveries
    && match delivery.status
       case Pending => k + 1 <= m + redeliveries
       case FailedRetrying => 1 <= k < m
       case Succeeded => 1 <= k
       case Dead => m <= k
  }

  // ---- the queue's attempt counter against the delivery's ----

  ghost predicate Counters(m: MaxAttempts, deliveries: map<DeliveryId, Delivery>, jobs: map<JobKey, Job>,
      runs: map<RunId, Run>) {
    && (forall j :: j in jobs ==> jobs[j].made == |jobs[j].signalled| + jobs[j].faults)
    && (forall j, n :: j in jobs && n in jobs[j].signalled ==>
          j.delivery in deliveries && 1 <= n < m && n <= deliveries[j.delivery].attemptCount)
    && (forall r :: r in runs && runs[r].pc.MustRetry? ==>
          var j := runs[r].job;
          j in jobs && jobs[j].state == Active(r) ==> runs[r].pc.no !in jobs[j].signalled)
  }

  // ---- the relay ----

  ghost predicate AllEnqueued(deliveries: map<DeliveryId, Delivery>, outbox: map<RowId, Row>, enqueued: set<Target>,
      x: RowId) {
    x in outbox && forall d :: IsTarget(deliveries, outbox[x], d) ==> Target(x, d) in enqueued
  }

  ghost predicate Relayed(deliveries: map<DeliveryId, Delivery>, outbox: map<RowId, Row>, jobs: map<JobKey, Job>,
      enqueued: set<Target>) {
    && (forall x :: x in outbox && outbox[x].published ==> AllEnqueued(deliveries, outbox, enqueued, x))
    && (forall t :: t in enqueued ==> t.row in outbox && IsTarget(deliveries, outbox[t.row], t.delivery))
    && (forall j :: j in jobs ==> JobEnqueued(deliveries, outbox, enqueued, j))
  }

  // The rows a job key stands for have been enqueued: the row it names, or the
  // fan-out row of its delivery's event.
  ghost predicate JobEnqueued(deliveries: map<DeliveryId, Delivery>, outbox: map<RowId, Row>, enqueued: set<Target>,
      j: JobKey) {
    match j
    case RowJob(d, x) => Target(x, d) in enqueued
    case FanoutJob(d) =>
      forall x :: x in outbox && outbox[x].delivery == None && IsTarget(deliveries, outbox[x], d) ==>
        Target(x, d) in enqueued
  }

  ghost predicate TickOk(deliveries: map<DeliveryId, Delivery>, outbox: map<RowId, Row>, enqueued: set<Target>,
      tick: Tick) {
    && tick.at <= |tick.batch|
    && (forall i :: 0 <= i < |tick.batch| ==> tick.batch[i] in outbox)
    && (forall i :: 0 <= i < tick.at ==> AllEnqueued(deliveries, outbox, enqueued, tick.batch[i]))
    && (forall d :: d in tick.added ==> tick.at < |tick.batch| && Target(tick.batch[tick.at], d) in enqueued)
  }

  ghost predicate Ticks(deliveries: map<DeliveryId, Delivery>, outbox: map<RowId, Row>, enqueued: set<Target>,
      ticks: map<TickId, Tick>) {
    forall t :: t in ticks ==> TickOk(deliveries, outbox, enqueued, ticks[t])
  }

  // The deliveries' side of the pipeline: who tried what, and what came of it.
  ghost predicate Work(m: MaxAttempts, s: State) {
    && Claims(s.deliveries, s.attempts)
    && Holders(m, s.deliveries, s.attempts, s.runs)
    && Sends(s.attempts, s.runs, s.sent, s.acked)
    && Effects(s.deliveries, s.processed, s.acked, s.effects)
    && Bounds(m, s.deliveries, s.attempts, s.runs, s.redelivered)
  }

  // The jobs' side: locks and counters.
  ghost predicate Hold(m: MaxAttempts, s: State) {
    && Locks(s.deliveries, s.jobs, s.runs, s.nextRun, s.dropped)
    && Counters(m, s.deliveries, s.jobs, s.runs)
  }

  // The outbox's side.
  ghost predicate Feed(s: State) {
    && Refs(s.events, s.deliveries, s.outbox, s.jobs)
    && Relayed(s.deliveries, s.outbox, s.jobs, s.enqueued)
    && Ticks(s.deliveries, s.outbox, s.enqueued, s.ticks)
  }

  ghost predicate Inv(m: MaxAttempts, s: State) {
    Work(m, s) && Hold(m, s) && Feed(s)
  }

  // ---- Work ----

  // Runs that end, start or give up change nothing the deliveries' side speaks of.
  lemma CalmKeepsWork(m: MaxAttempts, s: State, t: State)
    requires Work(m, s)
    requires t.deliveries == s.deliveries && t.attempts == s.attempts && t.sent == s.sent && t.acked == s.acked
    requires t.processed == s.processed && t.effects == s.effects && t.redelivered == s.redelivered
    requires forall r :: r in t.runs ==>
      (r in s.runs && t.runs[r] == s.runs[r])
      || ((t.runs[r].pc == Taken || t.runs[r].pc == Finishing) && t.runs[r].job.delivery in t.deliveries)
    ensures Work(m, t)
  {
  }

  lemma ReadKeepsWork(m: MaxAttempts, s: State, r: RunId)
    requires Work(m, s) && StepEnabled(s, r, Read)
    ensures Work(m, AfterRead(s, r))
  {
  }

  lemma WonClaimKeepsClaims(m: MaxAttempts, s: State, r: RunId)
    requires Work(m, s) && r in s.runs && s.runs[r].pc.HasRead?
    requires Attempt(s.runs[r].job.delivery, s.runs[r].pc.count + 1) !in s.attempts
    ensures var t := AfterClaim(s, r);
      Claims(t.deliveries, t.attempts) && Bounds(m, t.deliveries, t.attempts, t.runs, t.redelivered)
    ensures s.runs[r].pc.count == s.deliveries[s.runs[r].job.delivery].attemptCount
  {
  }

  lemma WonClaimKeepsHolders(m: MaxAttempts, s: State, r: RunId)
    requires Work(m, s) && r in s.runs && s.runs[r].pc.HasRead?
    requires Attempt(s.runs[r].job.delivery, s.runs[r].pc.count + 1) !in s.attempts
    requires s.runs[r].pc.count == s.deliveries[s.runs[r].job.delivery].attemptCount
    ensures var t := AfterClaim(s, r); Holders(m, t.deliveries, t.attempts, t.runs)
  {
    var t := AfterClaim(s, r);
    forall q | q in t.runs
      ensures PcOk(m, t.deliveries, t.attempts, q, t.runs[q])
    {
      assert PcOk(m, s.deliveries, s.attempts, q, s.runs[q]);
    }
  }

  lemma WonClaimKeepsSends(m: MaxAttempts, s: State, r: RunId)
    requires Work(m, s) && r in s.runs && s.runs[r].pc.HasRead?
    requires Attempt(s.runs[r].job.delivery, s.runs[r].pc.count + 1) !in s.attempts
    ensures var t := AfterClaim(s, r); Sends(t.attempts, t.runs, t.sent, t.acked)
  {
  }

  lemma ClaimKeepsWork(m: MaxAttempts, s: State, r: RunId)
    requires Work(m, s) && StepEnabled(s, r, Claim)
    ensures Work(m, AfterClaim(s, r))
  {
    if Attempt(s.runs[r].job.delivery, s.runs[r].pc.count + 1) in s.attempts {
      CalmKeepsWork(m, s, AfterClaim(s, r));
    } else {
      WonClaimKeepsClaims(m, s, r);
      WonClaimKeepsHolders(m, s, r);
      WonClaimKeepsSends(m, s, r);
    }
  }

  // The outcome of an attempt becomes known to its run.
  lemma AnswerKeepsWork(m: MaxAttempts, s: State, r: RunId, outcome: Outcome)
    requires Work(m, s) && r in s.runs
    requires (s.runs[r].pc.Claimed? && outcome == CircuitOpen)
          || (s.runs[r].pc.Sent? && outcome != CircuitOpen
              && (outcome == Ok ==> Attempt(s.runs[r].job.delivery, s.runs[r].pc.no) in s.acked))
    ensures Work(m, s.(runs := WithPc(s, r, Answered(s.runs[r].pc.no, outcome))))
  {
  }

  lemma SendKeepsHolders(m: MaxAttempts, s: State, r: RunId)
    requires Work(m, s) && StepEnabled(s, r, Send)
    ensures var t := AfterSend(s, r);
      Holders(m, t.deliveries, t.attempts, t.runs) && Bounds(m, t.deliveries, t.attempts, t.runs, t.redelivered)
  {
  }

  lemma SendKeepsSends(m: MaxAttempts, s: State, r: RunId)
    requires Work(m, s) && StepEnabled(s, r, Send)
    ensures var t := AfterSend(s, r); Sends(t.attempts, t.runs, t.sent, t.acked)
  {
  }

  lemma RecordKeepsClaims(m: MaxAttempts, s: State, r: RunId)
    requires Work(m, s) && StepEnabled(s, r, Record)
    ensures var t := AfterRecord(s, r); Claims(t.deliveries, t.attempts)
  {
    assert PcOk(m, s.deliveries, s.attempts, r, s.runs[r]);
  }

  lemma RecordKeepsHolders(m: MaxAttempts, s: State, r: RunId)
    requires Work(m, s) && StepEnabled(s, r, Record)
    ensures var t := AfterRecord(s, r); Holders(m, t.deliveries, t.attempts, t.runs)
  {
    var t := AfterRecord(s, r);
    forall q | q in t.runs
      ensures PcOk(m, t.deliveries, t.attempts, q, t.runs[q])
    {
      assert PcOk(m, s.deliveries, s.attempts, q, s.runs[q]) && PcOk(m, s.deliveries, s.attempts, r, s.runs[r]);
    }
  }

  lemma RecordKeepsSends(m: MaxAttempts, s: State, r: RunId)
    requires Work(m, s) && StepEnabled(s, r, Record)
    ensures var t := AfterRecord(s, r);
      Sends(t.attempts, t.runs, t.sent, t.acked) && Bounds(m, t.deliveries, t.attempts, t.runs, t.redelivered)
  {
  }

  lemma WriteKeepsHolders(m: MaxAttempts, s: State, r: RunId)
    requires Work(m, s) && StepEnabled(s, r, Write)
    ensures var t := AfterWrite(m, s, r); Holders(m, t.deliveries, t.attempts, t.runs)
  {
    var t := AfterWrite(m, s, r);
    forall q | q in t.runs
      ensures PcOk(m, t.deliveries, t.attempts, q, t.runs[q])
    {
      assert PcOk(m, s.deliveries, s.attempts, q, s.runs[q]) && PcOk(m, s.deliveries, s.attempts, r, s.runs[r]);
    }
  }

  lemma WriteKeepsClaims(m: MaxAttempts, s: State, r: RunId)
    requires Work(m, s) && StepEnabled(s, r, Write)
    ensures var t := AfterWrite(m, s, r); Claims(t.deliveries, t.attempts) && Sends(t.attempts, t.runs, t.sent, t.acked)
  {
  }

  lemma WriteKeepsOutcomes(m: MaxAttempts, s: State, r: RunId)
    requires Work(m, s) && StepEnabled(s, r, Write)
    ensures var t := AfterWrite(m, s, r);
      Effects(t.deliveries, t.processed, t.acked, t.effects)
      && Bounds(m, t.deliveries, t.attempts, t.runs, t.redelivered)
  {
    var d, no := s.runs[r].job.delivery, s.runs[r].pc.no;
    assert Attempt(d, no) in s.attempts;
  }

  lemma ReceiveKeepsWork(m: MaxAttempts, s: State, a: Attempt)
    requires Work(m, s) && Enabled(s, Receive(a))
    ensures Work(m, AfterReceive(s, a))
  {
  }

  // New deliveries start Pending with no attempt.
  lemma NewDeliveriesKeepWork(m: MaxAttempts, s: State, t: State, event: EventId, ids: set<DeliveryId>)
    requires Work(m, s) && ids !! s.deliveries.Keys
    requires t.deliveries == s.deliveries + NewDeliveries(event, ids)
    requires t.attempts == s.attempts && t.runs == s.runs && t.sent == s.sent && t.acked == s.acked
    requires t.processed == s.processed && t.effects == s.effects && t.redelivered == s.redelivered
    ensures Work(m, t)
  {
  }

  lemma RedeliverKeepsHolders(m: MaxAttempts, s: State, d: DeliveryId, row: RowId)
    requires Work(m, s) && ApiEnabled(s, Redeliver(d, row))
    ensures var t := AfterRedeliver(s, d, row);
      Claims(t.deliveries, t.attempts) && Holders(m, t.deliveries, t.attempts, t.runs)
      && Sends(t.attempts, t.runs, t.sent, t.acked)
  {
    var t := AfterRedeliver(s, d, row);
    forall q | q in t.runs
      ensures PcOk(m, t.deliveries, t.attempts, q, t.runs[q])
    {
      assert PcOk(m, s.deliveries, s.attempts, q, s.runs[q]);
    }
  }

  lemma RedeliverKeepsBounds(m: MaxAttempts, s: State, d: DeliveryId, row: RowId)
    requires Work(m, s) && ApiEnabled(s, Redeliver(d, row))
    ensures var t := AfterRedeliver(s, d, row);
      Effects(t.deliveries, t.processed, t.acked, t.effects)
      && Bounds(m, t.deliveries, t.attempts, t.runs, t.redelivered)
  {
  }

  lemma RedeliverKeepsWork(m: MaxAttempts, s: State, d: DeliveryId, row: RowId)
    requires Work(m, s) && ApiEnabled(s, Redeliver(d, row))
    ensures Work(m, AfterRedeliver(s, d, row))
  {
    RedeliverKeepsHolders(m, s, d, row);
    RedeliverKeepsBounds(m, s, d, row);
  }

  // ---- Hold ----

  // A run moves on without reaching MustRetry.
  lemma PcKeepsHold(m: MaxAttempts, s: State, t: State, r: RunId, pc: Pc)
    requires Hold(m, s) && r in s.runs && !pc.MustRetry?
    requires t.jobs == s.jobs && t.runs == WithPc(s, r, pc) && t.nextRun == s.nextRun && s.dropped <= t.dropped
    requires t.deliveries == s.deliveries
    ensures Hold(m, t)
  {
  }

  lemma WriteKeepsHold(m: MaxAttempts, s: State, r: RunId)
    requires Work(m, s) && Hold(m, s) && StepEnabled(s, r, Write)
    ensures Hold(m, AfterWrite(m, s, r))
  {
  }

  lemma TakeKeepsHold(m: MaxAttempts, s: State, j: JobKey)
    requires Hold(m, s) && QueueEnabled(s, j, Take) && j.delivery in s.deliveries
    ensures Hold(m, AfterTake(s, j))
  {
  }

  // A job becomes waiting or delayed while no run that counts on it holds it.
  lemma IdleKeepsHold(m: MaxAttempts, s: State, t: State, j: JobKey, state: JobState)
    requires Hold(m, s) && j in s.jobs && !state.Active?
    requires t.jobs == s.jobs[j := s.jobs[j].(state := state)] && t.runs == s.runs && t.nextRun == s.nextRun
    requires s.dropped <= t.dropped && t.deliveries == s.deliveries
    requires s.jobs[j].state.Active? && s.jobs[j].state.run in s.runs ==> j.delivery in t.dropped
    ensures Hold(m, t)
  {
  }

  // A run ends, and its job, when the run owns it, is left in any inactive state or removed.
  lemma EndKeepsLocks(m: MaxAttempts, s: State, t: State, r: RunId)
    requires Hold(m, s) && r in s.runs && t.runs == s.runs - {r} && t.nextRun == s.nextRun && s.dropped <= t.dropped
    requires t.deliveries == s.deliveries
    requires forall j :: j in t.jobs ==> j in s.jobs && (t.jobs[j] == s.jobs[j] || !t.jobs[j].state.Active?)
    requires forall j :: j in s.jobs && !(j == s.runs[r].job && Owns(s, r)) ==> j in t.jobs && t.jobs[j] == s.jobs[j]
    ensures Locks(t.deliveries, t.jobs, t.runs, t.nextRun, t.dropped)
  {
  }

  lemma EndKeepsCounters(m: MaxAttempts, s: State, t: State, r: RunId)
    requires Hold(m, s) && r in s.runs && t.runs == s.runs - {r} && t.deliveries == s.deliveries
    requires forall j :: j in t.jobs ==>
      j in s.jobs && t.jobs[j].made == s.jobs[j].made && t.jobs[j].signalled == s.jobs[j].signalled
      && t.jobs[j].faults == s.jobs[j].faults
      && (t.jobs[j].state.Active? ==> t.jobs[j].state == s.jobs[j].state)
    ensures Counters(m, t.deliveries, t.jobs, t.runs)
  {
  }

  lemma SignalKeepsCounters(m: MaxAttempts, s: State, r: RunId)
    requires Work(m, s) && Hold(m, s) && EndEnabled(s, r, Signal)
    ensures var t := AfterSignal(m, s, r); Counters(m, t.deliveries, t.jobs, t.runs)
  {
    assert PcOk(m, s.deliveries, s.attempts, r, s.runs[r]);
  }

  lemma FaultKeepsCounters(m: MaxAttempts, s: State, r: RunId)
    requires Hold(m, s) && EndEnabled(s, r, Fault)
    ensures var t := AfterFault(m, s, r); Counters(m, t.deliveries, t.jobs, t.runs)
  {
  }

  lemma AddKeepsHold(m: MaxAttempts, s: State, t: TickId, d: DeliveryId)
    requires Hold(m, s) && RelayEnabled(s, t, Add(d))
    ensures Hold(m, AfterAdd(s, t, d))
  {
  }

  // More deliveries, and nothing else the jobs' side speaks of.
  lemma NewDeliveriesKeepHold(m: MaxAttempts, s: State, t: State)
    requires Hold(m, s) && s.deliveries.Keys <= t.deliveries.Keys
    requires forall d :: d in s.deliveries ==> t.deliveries[d].attemptCount == s.deliveries[d].attemptCount
    requires t.jobs == s.jobs && t.runs == s.runs && t.nextRun == s.nextRun
    requires forall d :: d in s.dropped && d !in t.dropped ==> NoStray(s, d)
    ensures Hold(m, t)
  {
  }

  // ---- Feed ----

  lemma FewerJobsKeepFeed(s: State, t: State)
    requires Feed(s) && t.events == s.events && t.deliveries == s.deliveries && t.outbox == s.outbox
    requires t.enqueued == s.enqueued && t.ticks == s.ticks && t.jobs.Keys <= s.jobs.Keys
    ensures Feed(t)
  {
  }

  // Deliveries change their status and count, never their event.
  lemma SameEventsKeepFeed(s: State, t: State)
    requires Feed(s) && t.deliveries.Keys == s.deliveries.Keys
    requires forall d :: d in s.deliveries ==> t.deliveries[d].event == s.deliveries[d].event
    requires t.events == s.events && t.outbox == s.outbox && t.enqueued == s.enqueued && t.ticks == s.ticks
    requires t.jobs == s.jobs
    ensures Feed(t)
  {
  }

  lemma AddKeepsRelayed(s: State, t: TickId, d: DeliveryId)
    requires Feed(s) && RelayEnabled(s, t, Add(d))
    ensures var z := AfterAdd(s, t, d);
      Refs(z.events, z.deliveries, z.outbox, z.jobs) && Relayed(z.deliveries, z.outbox, z.jobs, z.enqueued)
  {
  }

  lemma AddKeepsTicks(s: State, t: TickId, d: DeliveryId)
    requires Feed(s) && RelayEnabled(s, t, Add(d))
    ensures var z := AfterAdd(s, t, d); Ticks(z.deliveries, z.outbox, z.enqueued, z.ticks)
  {
  }

  lemma NextRowKeepsFeed(s: State, t: TickId)
    requires Feed(s) && RelayEnabled(s, t, NextRow)
    ensures Feed(AfterNextRow(s, t))
  {
  }

  lemma StartTickKeepsFeed(s: State, t: TickId, batch: seq<RowId>, size: nat)
    requires Feed(s) && RelayEnabled(s, t, StartTick(batch, size))
    ensures Feed(AfterStartTick(s, t, batch))
  {
  }

  lemma MarkKeepsRefs(s: State, t: TickId)
    requires Feed(s) && RelayEnabled(s, t, Mark)
    ensures var z := AfterMark(s, t); Refs(z.events, z.deliveries, z.outbox, z.jobs)
  {
  }

  lemma MarkKeepsRelayed(s: State, t: TickId)
    requires Feed(s) && RelayEnabled(s, t, Mark)
    ensures var z := AfterMark(s, t); Relayed(z.deliveries, z.outbox, z.jobs, z.enqueued)
  {
  }

  lemma MarkKeepsTicks(s: State, t: TickId)
    requires Feed(s) && RelayEnabled(s, t, Mark)
    ensures var z := AfterMark(s, t); Ticks(z.deliveries, z.outbox, z.enqueued, z.ticks)
  {
  }

  // A transaction adds an event with its deliveries, and an outbox row or none.
  ghost predicate AddsEvent(s: State, t: State, event: EventId, ids: set<DeliveryId>, x: RowId, row: Row) {
    && event !in s.events && ids !! s.deliveries.Keys && x !in s.outbox
    && row.event == event && !row.published && (row.delivery.Some? ==> row.delivery.value in ids)
    && t.events == s.events + {event} && t.deliveries == s.deliveries + NewDeliveries(event, ids)
    && (t.outbox == s.outbox || t.outbox == s.outbox[x := row])
    && t.enqueued == s.enqueued && t.ticks == s.ticks && t.jobs == s.jobs
  }

  lemma NewEventKeepsRefs(s: State, t: State, event: EventId, ids: set<DeliveryId>, x: RowId, row: Row)
    requires Feed(s) && AddsEvent(s, t, event, ids, x, row)
    ensures Refs(t.events, t.deliveries, t.outbox, t.jobs)
  {
  }

  lemma NewEventKeepsRelayed(s: State, t: State, event: EventId, ids: set<DeliveryId>, x: RowId, row: Row)
    requires Feed(s) && AddsEvent(s, t, event, ids, x, row)
    ensures Relayed(t.deliveries, t.outbox, t.jobs, t.enqueued)
  {
  }

  lemma NewEventKeepsTicks(s: State, t: State, event: EventId, ids: set<DeliveryId>, x: RowId, row: Row)
    requires Feed(s) && AddsEvent(s, t, event, ids, x, row)
    ensures Ticks(t.deliveries, t.outbox, t.enqueued, t.ticks)
  {
  }

  lemma RedeliverKeepsRefs(s: State, d: DeliveryId, row: RowId)
    requires Feed(s) && ApiEnabled(s, Redeliver(d, row))
    ensures var z := AfterRedeliver(s, d, row); Refs(z.events, z.deliveries, z.outbox, z.jobs)
  {
  }

  lemma RedeliverKeepsTicks(s: State, d: DeliveryId, row: RowId)
    requires Feed(s) && ApiEnabled(s, Redeliver(d, row))
    ensures var z := AfterRedeliver(s, d, row); Ticks(z.deliveries, z.outbox, z.enqueued, z.ticks)
  {
  }

  lemma RedeliverKeepsRelayed(s: State, d: DeliveryId, row: RowId)
    requires Feed(s) && ApiEnabled(s, Redeliver(d, row))
    ensures var z := AfterRedeliver(s, d, row); Relayed(z.deliveries, z.outbox, z.jobs, z.enqueued)
  {
  }

  // ---- every action keeps all of it ----

  lemma PublishKeepsInv(m: MaxAttempts, s: State, e: EventId, ids: set<DeliveryId>, x: RowId)
    requires Inv(m, s) && ApiEnabled(s, Publish(e, ids, x))
    ensures Inv(m, AfterPublish(s, e, ids, x))
  {
    var t := AfterPublish(s, e, ids, x);
    NewEventKeepsInv(m, s, t, e, ids, x, Row(e, None, false));
  }

  lemma PingKeepsInv(m: MaxAttempts, s: State, e: EventId, d: DeliveryId, x: RowId)
    requires Inv(m, s) && ApiEnabled(s, Ping(e, d, x))
    ensures Inv(m, AfterPing(s, e, d, x))
  {
    var t := AfterPing(s, e, d, x);
    assert t.deliveries == s.deliveries + NewDeliveries(e, {d});
    NewEventKeepsInv(m, s, t, e, {d}, x, Row(e, Some(d), false));
  }

  lemma NewEventKeepsInv(m: MaxAttempts, s: State, t: State, event: EventId, ids: set<DeliveryId>, x: RowId, row: Row)
    requires Inv(m, s) && AddsEvent(s, t, event, ids, x, row)
    requires t.attempts == s.attempts && t.runs == s.runs && t.sent == s.sent && t.acked == s.acked
    requires t.nextRun == s.nextRun
    requires t.processed == s.processed && t.effects == s.effects && t.redelivered == s.redelivered
    requires t.dropped == s.dropped
    ensures Inv(m, t)
  {
    NewDeliveriesKeepWork(m, s, t, event, ids);
    NewDeliveriesKeepHold(m, s, t);
    NewEventKeepsRefs(s, t, event, ids, x, row);
    NewEventKeepsRelayed(s, t, event, ids, x, row);
    NewEventKeepsTicks(s, t, event, ids, x, row);
  }

  lemma RedeliverKeepsInv(m: MaxAttempts, s: State, d: DeliveryId, x: RowId)
    requires Inv(m, s) && ApiEnabled(s, Redeliver(d, x))
    ensures Inv(m, AfterRedeliver(s, d, x))
  {
    RedeliverKeepsWork(m, s, d, x);
    NewDeliveriesKeepHold(m, s, AfterRedeliver(s, d, x));
    RedeliverKeepsRefs(s, d, x);
    RedeliverKeepsTicks(s, d, x);
    RedeliverKeepsRelayed(s, d, x);
  }

  lemma ApiKeepsInv(m: MaxAttempts, s: State, call: ApiCall)
    requires Inv(m, s) && ApiEnabled(s, call)
    ensures Inv(m, AfterApi(s, call))
  {
    match call
    case Publish(e, ids, x) => PublishKeepsInv(m, s, e, ids, x);
    case Ping(e, d, x) => PingKeepsInv(m, s, e, d, x);
    case Redeliver(d, x) => RedeliverKeepsInv(m, s, d, x);
  }

  lemma RelayKeepsInv(m: MaxAttempts, s: State, t: TickId, step: RelayStep)
    requires Inv(m, s) && RelayEnabled(s, t, step)
    ensures Inv(m, AfterRelay(s, t, step))
  {
    match step
    case StartTick(batch, size) => StartTickKeepsFeed(s, t, batch, size);
    case Add(d) =>
      AddKeepsHold(m, s, t, d);
      AddKeepsRelayed(s, t, d);
      AddKeepsTicks(s, t, d);
    case NextRow => NextRowKeepsFeed(s, t);
    case AddFails =>
    case Mark =>
      MarkKeepsRefs(s, t);
      MarkKeepsRelayed(s, t);
      MarkKeepsTicks(s, t);
    case TickDies =>
  }

  lemma QueueKeepsInv(m: MaxAttempts, s: State, j: JobKey, step: QueueStep)
    requires Inv(m, s) && QueueEnabled(s, j, step)
    ensures Inv(m, AfterQueue(s, j, step))
  {
    var t := AfterQueue(s, j, step);
    FewerJobsKeepFeed(s, t);
    CalmKeepsWork(m, s, t);
    match step
    case Promote => IdleKeepsHold(m, s, t, j, Waiting);
    case Take => TakeKeepsHold(m, s, j);
    case Stall => IdleKeepsHold(m, s, t, j, Waiting);
  }

  lemma StepKeepsWork(m: MaxAttempts, s: State, r: RunId, step: RunStep)
    requires Work(m, s) && StepEnabled(s, r, step)
    ensures Work(m, AfterStep(m, s, r, step))
  {
    match step
    case Read => ReadKeepsWork(m, s, r);
    case SkipEndpoint => CalmKeepsWork(m, s, AfterSkipEndpoint(s, r));
    case Claim => ClaimKeepsWork(m, s, r);
    case Deny => AnswerKeepsWork(m, s, r, CircuitOpen);
    case Send =>
      SendKeepsHolders(m, s, r);
      SendKeepsSends(m, s, r);
    case Respond(ok) => AnswerKeepsWork(m, s, r, if ok then Ok else HttpFailed);
    case Record =>
      RecordKeepsClaims(m, s, r);
      RecordKeepsHolders(m, s, r);
      RecordKeepsSends(m, s, r);
    case Write =>
      WriteKeepsHolders(m, s, r);
      WriteKeepsClaims(m, s, r);
      WriteKeepsOutcomes(m, s, r);
  }

  lemma StepKeepsHold(m: MaxAttempts, s: State, r: RunId, step: RunStep)
    requires Work(m, s) && Hold(m, s) && StepEnabled(s, r, step)
    ensures Hold(m, AfterStep(m, s, r, step))
  {
    var t := AfterStep(m, s, r, step);
    if step == Write {
      WriteKeepsHold(m, s, r);
    } else {
      PcKeepsHold(m, s, t, r, t.runs[r].pc);
    }
  }

  lemma StepKeepsFeed(m: MaxAttempts, s: State, r: RunId, step: RunStep)
    requires Feed(s) && StepEnabled(s, r, step)
    ensures Feed(AfterStep(m, s, r, step))
  {
    SameEventsKeepFeed(s, AfterStep(m, s, r, step));
  }

  lemma SignalKeepsHold(m: MaxAttempts, s: State, r: RunId)
    requires Work(m, s) && Hold(m, s) && EndEnabled(s, r, Signal)
    ensures Hold(m, AfterSignal(m, s, r))
  {
    EndKeepsLocks(m, s, AfterSignal(m, s, r), r);
    SignalKeepsCounters(m, s, r);
  }

  lemma FaultKeepsHold(m: MaxAttempts, s: State, r: RunId)
    requires Hold(m, s) && EndEnabled(s, r, Fault)
    ensures Hold(m, AfterFault(m, s, r))
  {
    EndKeepsLocks(m, s, AfterFault(m, s, r), r);
    FaultKeepsCounters(m, s, r);
  }

  lemma EndKeepsHold(m: MaxAttempts, s: State, r: RunId, end: RunEnd)
    requires Work(m, s) && Hold(m, s) && EndEnabled(s, r, end)
    ensures Hold(m, AfterEnd(m, s, r, end))
  {
    match end
    case Signal => SignalKeepsHold(m, s, r);
    case Fault => FaultKeepsHold(m, s, r);
    case _ =>
      EndKeepsLocks(m, s, AfterEnd(m, s, r, end), r);
      EndKeepsCounters(m, s, AfterEnd(m, s, r, end), r);
  }

  lemma EndKeepsWork(m: MaxAttempts, s: State, r: RunId, end: RunEnd)
    requires Work(m, s) && EndEnabled(s, r, end)
    ensures Work(m, AfterEnd(m, s, r, end))
  {
    CalmKeepsWork(m, s, AfterEnd(m, s, r, end));
  }

  lemma EndKeepsFeed(m: MaxAttempts, s: State, r: RunId, end: RunEnd)
    requires Feed(s) && EndEnabled(s, r, end)
    ensures Feed(AfterEnd(m, s, r, end))
  {
    FewerJobsKeepFeed(s, AfterEnd(m, s, r, end));
  }

  // Every action of every process keeps the invariant.
  lemma StepKeepsInv(m: MaxAttempts, s: State, a: Action)
    requires Inv(m, s) && Enabled(s, a)
    ensures Inv(m, Apply(m, s, a))
  {
    match a
    case Api(call) => ApiKeepsInv(m, s, call);
    case Relay(t, step) => RelayKeepsInv(m, s, t, step);
    case Queue(j, step) => QueueKeepsInv(m, s, j, step);
    case Worker(r, step) =>
      StepKeepsWork(m, s, r, step);
      StepKeepsHold(m, s, r, step);
      StepKeepsFeed(m, s, r, step);
    case Ends(r, end) =>
      EndKeepsHold(m, s, r, end);
      EndKeepsWork(m, s, r, end);
      EndKeepsFeed(m, s, r, end);
    case Receive(attempt) => ReceiveKeepsWork(m, s, attempt);
  }

  lemma {:induction false} TraceKeepsInv(m: MaxAttempts, s: State, trace: seq<Action>)
    requires Inv(m, s) && ValidTrace(m, s, trace)
    ensures Inv(m, After(m, s, trace))
    decreases |trace|
  {
    if trace != [] {
      StepKeepsInv(m, s, trace[0]);
      TraceKeepsInv(m, Apply(m, s, trace[0]), trace[1..]);
    }
  }

  lemma ReachableKeepsInv(m: MaxAttempts, s: State)
    requires Reachable(m, s)
    ensures Inv(m, s)
  {
    var trace :| IsRun(m, Anyone, INIT, trace, s);
    TraceKeepsInv(m, INIT, trace);
  }
}
