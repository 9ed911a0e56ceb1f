// Each way of losing a delivery that NoOrphan exempts does happen: a reachable state
// for each, with one delivery, unfinished, and nothing left that will work on it.
module Losses {
  import opened Common
  import opened Pipeline
  import opened Traces
  import opened Wedge
  import opened NoOrphan

  const JOB := RowJob(0, 0)

  // Delivery 0 of a ping, its rows enqueued and PUBLISHED, no relay at work, and these
  // attempts, jobs and runs.
  ghost predicate Scene(m: MaxAttempts, s: State, delivery: Delivery, attempts: map<Attempt, ClaimRow>,
      jobs: map<JobKey, Job>, runs: map<RunId, Run>) {
    && Reachable(m, s)
    && s.deliveries == map[0 := delivery] && s.ticks == map[]
    && (forall x :: x in s.outbox ==> s.outbox[x].published && Target(x, 0) in s.enqueued)
    && s.attempts == attempts && s.jobs == jobs && s.runs == runs
  }

  // Neither redelivered nor dropped nor rescued in between.
  ghost predicate Same(s: State, t: State) {
    t.dropped == s.dropped && t.outbox == s.outbox && t.redelivered == s.redelivered
  }

  const NEW := Delivery(0, Pending, 0)

  // A job with these numbers of failures, waiting for a worker.
  function WaitingJob(faults: nat): Job {
    Job(Waiting, faults, {}, faults)
  }

  // Nothing is left that will work on it.
  ghost predicate Stranded(s: State, d: DeliveryId) {
    Unfinished(s, d) && !Live(s, d)
  }

  lemma NoJobNoWork(m: MaxAttempts, s: State, delivery: Delivery, attempts: map<Attempt, ClaimRow>,
      runs: map<RunId, Run>)
    requires Scene(m, s, delivery, attempts, map[], runs) && !Terminal(delivery.status)
    ensures Stranded(s, 0)
  {
  }

  // The relay enqueues the one PENDING row and marks it.
  lemma IsRelayed(m: MaxAttempts, s: State, x: RowId) returns (t: State)
    requires Reachable(m, s) && s.deliveries == map[0 := NEW] && s.ticks == map[] && s.jobs == map[]
    requires x in s.outbox && s.outbox[x] == Row(0, Some(0), false)
    requires forall y :: y in s.outbox && y != x ==> s.outbox[y].published && Target(y, 0) in s.enqueued
    ensures Scene(m, t, NEW, s.attempts, map[RowJob(0, x) := WaitingJob(0)], s.runs)
    ensures t.outbox.Keys == s.outbox.Keys && t.nextRun == s.nextRun
    ensures t.dropped == s.dropped && t.redelivered == s.redelivered
  {
    assert IsBatch(s, [x], 1);
    var a := Go(m, Anyone, INIT, s, Relay(0, StartTick([x], 1)));
    assert a.ticks == map[0 := Tick([x], 0, {}, false)];
    var b := IsAdded(m, a, x);
    t := IsMarked(m, b, x);
  }

  lemma IsAdded(m: MaxAttempts, s: State, x: RowId) returns (t: State)
    requires Reachable(m, s) && s.deliveries == map[0 := NEW] && s.ticks == map[0 := Tick([x], 0, {}, false)]
    requires s.jobs == map[] && x in s.outbox && s.outbox[x].delivery == Some(0)
    ensures Reachable(m, t) && t.deliveries == s.deliveries && t.ticks == map[0 := Tick([x], 0, {0}, false)]
    ensures t.jobs == map[RowJob(0, x) := WaitingJob(0)] && t.enqueued == s.enqueued + {Target(x, 0)} && Same(s, t)
    ensures t.attempts == s.attempts && t.runs == s.runs && t.nextRun == s.nextRun
  {
    t := Go(m, Anyone, INIT, s, Relay(0, Add(0)));
    assert {} + {0} == {0};
  }

  lemma IsMarked(m: MaxAttempts, s: State, x: RowId) returns (t: State)
    requires Reachable(m, s) && s.deliveries == map[0 := NEW] && s.ticks == map[0 := Tick([x], 0, {0}, false)]
    requires x in s.outbox && s.outbox[x].delivery == Some(0)
    requires forall y :: y in s.outbox ==> Target(y, 0) in s.enqueued && (y == x || s.outbox[y].published)
    ensures Scene(m, t, NEW, s.attempts, s.jobs, s.runs)
    ensures t.outbox.Keys == s.outbox.Keys && t.nextRun == s.nextRun
    ensures t.dropped == s.dropped && t.redelivered == s.redelivered
  {
    var a := Go(m, Anyone, INIT, s, Relay(0, NextRow));
    assert a.ticks[0].batch[..1] == [x];
    t := Go(m, Anyone, INIT, a, Relay(0, Mark));
    assert t.ticks == map[];
  }

  lemma PingQueues(m: MaxAttempts) returns (s: State)
    ensures Scene(m, s, NEW, map[], map[JOB := WaitingJob(0)], map[])
    ensures s.nextRun == 0 && s.dropped == {} && s.outbox.Keys == {0} && s.redelivered == multiset{}
  {
    Stays(m, Anyone, INIT);
    var a := Go(m, Anyone, INIT, INIT, Api(Ping(0, 0, 0)));
    s := IsRelayed(m, a, 0);
  }

  // ---- the steps the stories share ----

  lemma Takes(m: MaxAttempts, s: State, attempts: map<Attempt, ClaimRow>, j: JobKey, job: Job, runs: map<RunId, Run>)
      returns (t: State)
    requires Scene(m, s, NEW, attempts, map[j := job], runs) && job.state == Waiting
    ensures var r := s.nextRun;
      Scene(m, t, NEW, attempts, map[j := job.(state := Active(r))], runs[r := Run(j, Taken)])
    ensures t.nextRun == s.nextRun + 1 && Same(s, t)
  {
    t := Go(m, Anyone, INIT, s, Queue(j, Take));
  }

  lemma Reads(m: MaxAttempts, s: State, attempts: map<Attempt, ClaimRow>, jobs: map<JobKey, Job>,
      runs: map<RunId, Run>, r: RunId)
      returns (t: State)
    requires Scene(m, s, NEW, attempts, jobs, runs) && r in runs && runs[r].pc == Taken && runs[r].job.delivery == 0
    ensures Scene(m, t, NEW, attempts, jobs, runs[r := Run(runs[r].job, HasRead(0))])
    ensures t.nextRun == s.nextRun && Same(s, t)
  {
    t := Go(m, Anyone, INIT, s, Worker(r, Read));
  }

  // The first attempt is claimed by run r.
  function ClaimedBy(r: RunId, result: Option<Outcome>): map<Attempt, ClaimRow> {
    map[Attempt(0, 1) := ClaimRow(r, result)]
  }

  lemma Claims(m: MaxAttempts, s: State, jobs: map<JobKey, Job>, r: RunId) returns (t: State)
    requires Scene(m, s, NEW, map[], jobs, map[r := Run(JOB, HasRead(0))])
    ensures Scene(m, t, NEW, ClaimedBy(r, None), jobs, map[r := Run(JOB, Claimed(1))])
    ensures t.nextRun == s.nextRun && Same(s, t)
  {
    t := Go(m, Anyone, INIT, s, Worker(r, Claim));
  }

  // A waiting job is taken and its first attempt claimed.
  lemma TakesAndClaims(m: MaxAttempts, s: State, job: Job) returns (t: State)
    requires Scene(m, s, NEW, map[], map[JOB := job], map[]) && job.state == Waiting
    ensures Scene(m, t, NEW, ClaimedBy(s.nextRun, None), map[JOB := job.(state := Active(s.nextRun))],
      map[s.nextRun := Run(JOB, Claimed(1))])
    ensures t.nextRun == s.nextRun + 1 && Same(s, t)
  {
    var r, jobs := s.nextRun, map[JOB := job.(state := Active(s.nextRun))];
    var a := Takes(m, s, map[], JOB, job, map[]);
    var b := Reads(m, a, map[], jobs, map[r := Run(JOB, Taken)], r);
    t := Claims(m, b, jobs, r);
  }

  // The claimed attempt is denied by the circuit, and its result written.
  lemma IsDenied(m: MaxAttempts, s: State, jobs: map<JobKey, Job>, r: RunId) returns (t: State)
    requires m >= 2 && Scene(m, s, NEW, ClaimedBy(r, None), jobs, map[r := Run(JOB, Claimed(1))])
    ensures var attempts := ClaimedBy(r, Some(CircuitOpen));
      Scene(m, t, Delivery(0, FailedRetrying, 1), attempts, jobs, map[r := Run(JOB, MustRetry(1))])
    ensures t.nextRun == s.nextRun && Same(s, t)
  {
    var a := DeniedAndRecorded(m, s, jobs, r);
    t := Go(m, Anyone, INIT, a, Worker(r, Write));
    assert t.runs == map[r := Run(JOB, MustRetry(1))];
  }

  lemma DeniedAndRecorded(m: MaxAttempts, s: State, jobs: map<JobKey, Job>, r: RunId) returns (t: State)
    requires Scene(m, s, NEW, ClaimedBy(r, None), jobs, map[r := Run(JOB, Claimed(1))])
    ensures Scene(m, t, NEW, ClaimedBy(r, Some(CircuitOpen)), jobs, map[r := Run(JOB, Recorded(1, CircuitOpen))])
    ensures t.nextRun == s.nextRun && Same(s, t)
  {
    var a := Go(m, Anyone, INIT, s, Worker(r, Deny));
    t := IsRecorded(m, a, jobs, r);
  }

  lemma IsRecorded(m: MaxAttempts, s: State, jobs: map<JobKey, Job>, r: RunId) returns (t: State)
    requires Scene(m, s, NEW, ClaimedBy(r, None), jobs, map[r := Run(JOB, Answered(1, CircuitOpen))])
    ensures Scene(m, t, NEW, ClaimedBy(r, Some(CircuitOpen)), jobs, map[r := Run(JOB, Recorded(1, CircuitOpen))])
    ensures t.nextRun == s.nextRun && Same(s, t)
  {
    t := Go(m, Anyone, INIT, s, Worker(r, Record));
    assert t.runs == map[r := Run(JOB, Recorded(1, CircuitOpen))];
    assert t.attempts == ClaimedBy(r, Some(CircuitOpen));
  }

  // Another run takes a waiting job, finds the number claimed, and completes the job.
  lemma Collides(m: MaxAttempts, s: State, j: JobKey, first: RunId, runs: map<RunId, Run>) returns (t: State)
    requires Scene(m, s, NEW, ClaimedBy(first, None), map[j := WaitingJob(0)], runs) && s.nextRun !in runs
    requires j.delivery == 0
    ensures Scene(m, t, NEW, ClaimedBy(first, None), map[], runs) && t.nextRun == s.nextRun + 1 && Same(s, t)
  {
    var r, jobs := s.nextRun, map[j := WaitingJob(0).(state := Active(s.nextRun))];
    var a := Takes(m, s, ClaimedBy(first, None), j, WaitingJob(0), runs);
    var b := Reads(m, a, ClaimedBy(first, None), jobs, runs[r := Run(j, Taken)], r);
    t := FindsClaim(m, b, j, first, runs, r);
  }

  lemma FindsClaim(m: MaxAttempts, s: State, j: JobKey, first: RunId, runs: map<RunId, Run>, r: RunId)
      returns (t: State)
    requires var jobs := map[j := Job(Active(r), 0, {}, 0)];
      Scene(m, s, NEW, ClaimedBy(first, None), jobs, runs[r := Run(j, HasRead(0))])
    requires j.delivery == 0 && r !in runs
    ensures Scene(m, t, NEW, ClaimedBy(first, None), map[], runs) && t.nextRun == s.nextRun && Same(s, t)
  {
    var a := Go(m, Anyone, INIT, s, Worker(r, Claim));
    assert a.runs == runs[r := Run(j, Finishing)];
    t := CompletesJob(m, a, j, first, runs, r);
  }

  lemma CompletesJob(m: MaxAttempts, s: State, j: JobKey, first: RunId, runs: map<RunId, Run>, r: RunId)
      returns (t: State)
    requires var jobs := map[j := Job(Active(r), 0, {}, 0)];
      Scene(m, s, NEW, ClaimedBy(first, None), jobs, runs[r := Run(j, Finishing)])
    requires r !in runs
    ensures Scene(m, t, NEW, ClaimedBy(first, None), map[], runs) && t.nextRun == s.nextRun && Same(s, t)
  {
    t := Go(m, Anyone, INIT, s, Ends(r, Complete));
    assert t.runs == runs && t.jobs == map[];
  }

  // ---- an unusable endpoint ----

  lemma SkippingStrands(m: MaxAttempts) returns (s: State)
    ensures Reachable(m, s) && Stranded(s, 0) && !Wedged(s, 0) && s.dropped == {0} && s.runs == map[]
  {
    var a := PingQueues(m);
    var b := Go(m, Anyone, INIT, a, Queue(JOB, Take));
    var c := Go(m, Anyone, INIT, b, Worker(0, Read));
    var d := Go(m, Anyone, INIT, c, Worker(0, SkipEndpoint));
    s := Go(m, Anyone, INIT, d, Ends(0, Complete));
    NoJobNoWork(m, s, NEW, map[], map[]);
  }

  // ---- exceptions that use up the job's attempts ----

  lemma Throws(m: MaxAttempts, s: State, n: nat) returns (t: State)
    requires n < m && Scene(m, s, NEW, map[], map[JOB := WaitingJob(n).(state := Active(n))], map[n := Run(JOB, Taken)])
    ensures var jobs := if n + 1 < m then map[JOB := WaitingJob(n + 1).(state := Delayed)] else map[];
      Scene(m, t, NEW, map[], jobs, map[])
    ensures t.nextRun == s.nextRun && t.dropped == s.dropped + if n + 1 < m then {} else {0}
  {
    t := Go(m, Anyone, INIT, s, Ends(n, Fault));
    assert t.runs == map[];
    assert FaultedJob(s.jobs[JOB]) == WaitingJob(n + 1).(state := Active(n));
    if n + 1 >= m {
      assert t.jobs == map[];
    } else {
      assert t.jobs == map[JOB := WaitingJob(n + 1).(state := Delayed)];
    }
  }

  lemma {:induction false} FaultsPileUp(m: MaxAttempts, n: nat) returns (s: State)
    requires n < m
    ensures Scene(m, s, NEW, map[], map[JOB := WaitingJob(n)], map[]) && s.nextRun == n && s.dropped == {}
  {
    if n == 0 {
      s := PingQueues(m);
    } else {
      var a := FaultsPileUp(m, n - 1);
      s := OneMoreFault(m, a, n - 1);
    }
  }

  lemma OneMoreFault(m: MaxAttempts, s: State, n: nat) returns (t: State)
    requires n + 1 < m && Scene(m, s, NEW, map[], map[JOB := WaitingJob(n)], map[]) && s.nextRun == n
    ensures Scene(m, t, NEW, map[], map[JOB := WaitingJob(n + 1)], map[])
    ensures t.nextRun == n + 1 && t.dropped == s.dropped
  {
    var a := Takes(m, s, map[], JOB, WaitingJob(n), map[]);
    var b := Throws(m, a, n);
    t := IsPromoted(m, b, n + 1);
  }

  lemma IsPromoted(m: MaxAttempts, s: State, n: nat) returns (t: State)
    requires Scene(m, s, NEW, map[], map[JOB := WaitingJob(n).(state := Delayed)], map[])
    ensures Scene(m, t, NEW, map[], map[JOB := WaitingJob(n)], map[]) && t.nextRun == s.nextRun
    ensures Same(s, t)
  {
    t := Go(m, Anyone, INIT, s, Queue(JOB, Promote));
    assert t.jobs == map[JOB := WaitingJob(n)];
  }

  lemma FaultsStrand(m: MaxAttempts) returns (s: State)
    ensures Reachable(m, s) && Stranded(s, 0) && !Wedged(s, 0) && s.dropped == {0} && s.runs == map[]
  {
    var a := FaultsPileUp(m, m - 1);
    var b := Takes(m, a, map[], JOB, WaitingJob(m - 1), map[]);
    s := Throws(m, b, m - 1);
    NoJobNoWork(m, s, NEW, map[], map[]);
  }

  // The attempt that the exceptions left over fails, and must be retried.
  lemma RetryAfterFaultsStrands(m: MaxAttempts) returns (s: State)
    requires m >= 2
    ensures Reachable(m, s) && Stranded(s, 0) && !Wedged(s, 0) && s.dropped == {0} && s.runs == map[]
  {
    var r := m - 1;
    var a := FaultsPileUp(m, r);
    var b := TakesAndClaims(m, a, WaitingJob(r));
    var c := IsDenied(m, b, map[JOB := WaitingJob(r).(state := Active(r))], r);
    s := Go(m, Anyone, INIT, c, Ends(r, Signal));
    assert s.jobs == map[] && s.runs == map[];
    NoJobNoWork(m, s, Delivery(0, FailedRetrying, 1), ClaimedBy(r, Some(CircuitOpen)), map[]);
  }

  // ---- a stalled job whose run lives ----

  lemma StallTakesJob(m: MaxAttempts) returns (s: State)
    ensures Scene(m, s, NEW, ClaimedBy(0, None), map[], map[0 := Run(JOB, Claimed(1))])
    ensures s.nextRun == 2 && s.dropped == {0} && s.outbox.Keys == {0} && s.redelivered == multiset{}
  {
    var a := PingQueues(m);
    var b := TakesAndClaims(m, a, WaitingJob(0));
    var c := Go(m, Anyone, INIT, b, Queue(JOB, Stall));
    s := Collides(m, c, JOB, 0, map[0 := Run(JOB, Claimed(1))]);
  }

  // The run that lost its job fails, and has none to retry.
  lemma StrayFails(m: MaxAttempts, s: State) returns (t: State)
    requires Scene(m, s, NEW, ClaimedBy(0, None), map[], map[0 := Run(JOB, Claimed(1))])
    ensures Reachable(m, t) && Stranded(t, 0) && !Wedged(t, 0) && Same(s, t) && (m >= 2 ==> t.runs == map[])
  {
    if m >= 2 {
      var a := IsDenied(m, s, map[], 0);
      t := Go(m, Anyone, INIT, a, Ends(0, Signal));
      assert t.runs == map[];
      NoJobNoWork(m, t, Delivery(0, FailedRetrying, 1), ClaimedBy(0, Some(CircuitOpen)), map[]);
    } else {
      t := s;
      NoJobNoWork(m, t, NEW, ClaimedBy(0, None), map[0 := Run(JOB, Claimed(1))]);
      assert Window(t.runs[0].pc);
    }
  }

  // The second run throws the job away; the first then fails.
  lemma StallStrands(m: MaxAttempts) returns (s: State)
    ensures Reachable(m, s) && Stranded(s, 0) && !Wedged(s, 0) && s.dropped == {0} && (m >= 2 ==> s.runs == map[])
  {
    var a := StallTakesJob(m);
    s := StrayFails(m, a);
  }

  // A redelivery while the stray run is at work does not help: its job meets the
  // stray's claim, and is gone before the stray fails.
  lemma StrayOutlivesRedelivery(m: MaxAttempts) returns (s: State)
    ensures Reachable(m, s) && Stranded(s, 0) && !Wedged(s, 0) && s.dropped == {0} && (m >= 2 ==> s.runs == map[])
    ensures s.redelivered == multiset{0}
  {
    var a := StallTakesJob(m);
    var b := Go(m, Anyone, INIT, a, Api(Redeliver(0, 1)));
    assert !Owns(a, 0);
    assert b.deliveries == map[0 := NEW];
    var c := IsRelayed(m, b, 1);
    var d := Collides(m, c, RowJob(0, 1), 0, map[0 := Run(JOB, Claimed(1))]);
    s := StrayFails(m, d);
  }

  // ---- a crash between claim and result ----

  lemma CrashIsNoticed(m: MaxAttempts, s: State) returns (t: State)
    requires var jobs := map[JOB := WaitingJob(0).(state := Active(0))];
      Scene(m, s, NEW, ClaimedBy(0, None), jobs, map[0 := Run(JOB, Claimed(1))])
    ensures Scene(m, t, NEW, ClaimedBy(0, None), map[JOB := WaitingJob(0)], map[])
    ensures t.nextRun == s.nextRun && Same(s, t)
  {
    var a := Go(m, Anyone, INIT, s, Ends(0, Crash));
    assert a.runs == map[] && a.jobs == s.jobs;
    t := Go(m, Anyone, INIT, a, Queue(JOB, Stall));
    assert t.jobs == map[JOB := WaitingJob(0)];
  }

  lemma LostClaimWedges(m: MaxAttempts, s: State)
    requires Scene(m, s, NEW, ClaimedBy(0, None), map[], map[])
    ensures Wedged(s, 0) && Unfinished(s, 0)
  {
  }

  // A worker dies with its claim; the next collides with it and completes the job.
  lemma CrashStrands(m: MaxAttempts) returns (s: State)
    ensures Reachable(m, s) && Stranded(s, 0) && Wedged(s, 0) && s.dropped == {} && s.runs == map[]
  {
    var a := PingQueues(m);
    var b := TakesAndClaims(m, a, WaitingJob(0));
    var c := CrashIsNoticed(m, b);
    s := Collides(m, c, JOB, 0, map[]);
    LostClaimWedges(m, s);
    NoJobNoWork(m, s, NEW, ClaimedBy(0, None), map[]);
  }
}
