// The two exemptions of NoOrphan come about in no way but those named.
module Causes {
  import opened Pipeline
  import opened Invariant
  import opened Wedge
  import NoOrphan

  // ---- what drops a delivery ----

  // The run owns its job, which is of d, and the job has no attempt after this.
  ghost predicate IsLastAttempt(m: MaxAttempts, s: State, r: RunId, d: DeliveryId)
    requires r in s.runs
  {
    var j := s.runs[r].job;
    j.delivery == d && j in s.jobs && s.jobs[j].state == Active(r) && s.jobs[j].made + 1 >= m
  }

  ghost predicate DropsEnd(m: MaxAttempts, s: State, r: RunId, end: RunEnd, d: DeliveryId)
    requires r in s.runs
  {
    (end == Signal || end == Fault) && IsLastAttempt(m, s, r, d)
  }

  ghost predicate DropsQueue(s: State, j: JobKey, step: QueueStep, d: DeliveryId) {
    step == Stall && j.delivery == d && j in s.jobs && s.jobs[j].state.Active? && s.jobs[j].state.run in s.runs
  }

  lemma ApiDropsNothing(s: State, call: ApiCall)
    requires ApiEnabled(s, call)
    ensures AfterApi(s, call).dropped <= s.dropped
  {
  }

  lemma RelayDropsNothing(s: State, k: TickId, step: RelayStep)
    requires RelayEnabled(s, k, step)
    ensures AfterRelay(s, k, step).dropped == s.dropped
  {
  }

  lemma QueueDrops(s: State, j: JobKey, step: QueueStep, d: DeliveryId)
    requires QueueEnabled(s, j, step) && d in AfterQueue(s, j, step).dropped
    ensures d in s.dropped || DropsQueue(s, j, step, d)
  {
  }

  lemma StepDrops(m: MaxAttempts, s: State, r: RunId, step: RunStep, d: DeliveryId)
    requires StepEnabled(s, r, step) && d in AfterStep(m, s, r, step).dropped
    ensures d in s.dropped || (step == SkipEndpoint && s.runs[r].job.delivery == d)
  {
  }

  lemma EndDrops(m: MaxAttempts, s: State, r: RunId, end: RunEnd, d: DeliveryId)
    requires EndEnabled(s, r, end) && d in AfterEnd(m, s, r, end).dropped
    ensures d in s.dropped || DropsEnd(m, s, r, end, d)
  {
  }

  ghost predicate Drops(m: MaxAttempts, s: State, a: Action, d: DeliveryId)
    requires Enabled(s, a)
  {
    match a
    case Api(_) => false
    case Relay(_, _) => false
    case Queue(j, step) => DropsQueue(s, j, step, d)
    case Worker(r, step) => step == SkipEndpoint && s.runs[r].job.delivery == d
    case Ends(r, end) => DropsEnd(m, s, r, end, d)
    case Receive(_) => false
  }

  // Only three things drop a delivery: a run of it that finds its endpoint unusable, a
  // stall of its job while the run lives, and a failure that was the job's last attempt.
  lemma DroppedOnlyWhen(m: MaxAttempts, s: State, a: Action, d: DeliveryId)
    requires Enabled(s, a) && d in Apply(m, s, a).dropped
    ensures d in s.dropped || Drops(m, s, a, d)
  {
    match a
    case Api(call) => ApiDropsNothing(s, call);
    case Relay(k, step) => RelayDropsNothing(s, k, step);
    case Queue(j, step) => QueueDrops(s, j, step, d);
    case Worker(r, step) => StepDrops(m, s, r, step, d);
    case Ends(r, end) => EndDrops(m, s, r, end, d);
    case Receive(_) =>
  }

  // ---- what wedges one ----

  // Claims and counts as before, and no run in its window gone.
  lemma HolderRemains(s: State, t: State, d: DeliveryId)
    requires t.attempts.Keys == s.attempts.Keys && t.deliveries == s.deliveries && Wedged(t, d)
    requires forall r :: r in s.runs && s.runs[r].job.delivery == d && Window(s.runs[r].pc) ==>
      r in t.runs && t.runs[r].job == s.runs[r].job && Window(t.runs[r].pc)
    ensures Wedged(s, d)
  {
  }

  lemma ApiDoesNotWedge(s: State, call: ApiCall, d: DeliveryId)
    requires Claims(s.deliveries, s.attempts) && ApiEnabled(s, call) && Wedged(AfterApi(s, call), d)
    ensures Wedged(s, d)
  {
  }

  lemma RelayDoesNotWedge(s: State, k: TickId, step: RelayStep, d: DeliveryId)
    requires RelayEnabled(s, k, step) && Wedged(AfterRelay(s, k, step), d)
    ensures Wedged(s, d)
  {
    HolderRemains(s, AfterRelay(s, k, step), d);
  }

  lemma QueueDoesNotWedge(m: MaxAttempts, s: State, j: JobKey, step: QueueStep, d: DeliveryId)
    requires Hold(m, s) && QueueEnabled(s, j, step) && Wedged(AfterQueue(s, j, step), d)
    ensures Wedged(s, d)
  {
    HolderRemains(s, AfterQueue(s, j, step), d);
  }

  lemma ClaimDoesNotWedge(m: MaxAttempts, s: State, r: RunId, d: DeliveryId)
    requires Work(m, s) && StepEnabled(s, r, Claim) && Wedged(AfterClaim(s, r), d)
    ensures Wedged(s, d)
  {
    var t := AfterClaim(s, r);
    assert forall q :: q in s.runs && q != r ==> t.runs[q] == s.runs[q];
    assert t.runs[r].job == s.runs[r].job && (t.runs[r].pc.Claimed? || t.attempts == s.attempts);
  }

  lemma WriteDoesNotWedge(m: MaxAttempts, s: State, r: RunId, d: DeliveryId)
    requires Work(m, s) && StepEnabled(s, r, Write) && Wedged(AfterWrite(m, s, r), d)
    ensures Wedged(s, d)
  {
    var t := AfterWrite(m, s, r);
    assert PcOk(m, s.deliveries, s.attempts, r, s.runs[r]);
    assert forall q :: q in s.runs && q != r ==> t.runs[q] == s.runs[q];
  }

  lemma RecordDoesNotWedge(m: MaxAttempts, s: State, r: RunId, d: DeliveryId)
    requires Work(m, s) && StepEnabled(s, r, Record) && Wedged(AfterRecord(s, r), d)
    ensures Wedged(s, d)
  {
    assert PcOk(m, s.deliveries, s.attempts, r, s.runs[r]);
    HolderRemains(s, AfterRecord(s, r), d);
  }

  lemma OtherStepDoesNotWedge(m: MaxAttempts, s: State, r: RunId, step: RunStep, d: DeliveryId)
    requires StepEnabled(s, r, step) && !step.Claim? && !step.Write? && !step.Record?
    requires Wedged(AfterStep(m, s, r, step), d)
    ensures Wedged(s, d)
  {
    HolderRemains(s, AfterStep(m, s, r, step), d);
  }

  lemma StepDoesNotWedge(m: MaxAttempts, s: State, r: RunId, step: RunStep, d: DeliveryId)
    requires Work(m, s) && StepEnabled(s, r, step) && Wedged(AfterStep(m, s, r, step), d)
    ensures Wedged(s, d)
  {
    match step
    case Claim => ClaimDoesNotWedge(m, s, r, d);
    case Write => WriteDoesNotWedge(m, s, r, d);
    case Record => RecordDoesNotWedge(m, s, r, d);
    case _ => OtherStepDoesNotWedge(m, s, r, step, d);
  }

  ghost predicate WedgesEnd(s: State, r: RunId, end: RunEnd, d: DeliveryId)
    requires r in s.runs
  {
    (end == Crash || end == Fault) && Window(s.runs[r].pc) && s.runs[r].job.delivery == d
  }

  lemma EndWedges(m: MaxAttempts, s: State, r: RunId, end: RunEnd, d: DeliveryId)
    requires EndEnabled(s, r, end) && Wedged(AfterEnd(m, s, r, end), d)
    ensures Wedged(s, d) || WedgesEnd(s, r, end, d)
  {
    if !Window(s.runs[r].pc) || s.runs[r].job.delivery != d {
      HolderRemains(s, AfterEnd(m, s, r, end), d);
    }
  }

  // Only a crash or an exception between claim and delivery update wedges a delivery.
  lemma WedgedOnlyWhen(m: MaxAttempts, s: State, a: Action, d: DeliveryId)
    requires Inv(m, s) && Enabled(s, a) && Wedged(Apply(m, s, a), d)
    ensures Wedged(s, d) || (a.Ends? && WedgesEnd(s, a.run, a.end, d))
  {
    match a
    case Api(call) => ApiDoesNotWedge(s, call, d);
    case Relay(k, step) => RelayDoesNotWedge(s, k, step, d);
    case Queue(j, step) => QueueDoesNotWedge(m, s, j, step, d);
    case Worker(r, step) => StepDoesNotWedge(m, s, r, step, d);
    case Ends(r, end) => EndWedges(m, s, r, end, d);
    case Receive(_) =>
  }
  // ---- what takes it back ----

  // A redelivery ends the exemption, when no run that lost its job is at work: unless it
  // is wedged the delivery is owed again, and has its own row to prove it.
  lemma RedeliveryTakesBack(s: State, d: DeliveryId, x: RowId)
    requires Feed(s) && ApiEnabled(s, Redeliver(d, x)) && !Wedged(s, d)
    requires forall r :: r in s.runs && s.runs[r].job.delivery == d ==>
      s.runs[r].job in s.jobs && s.jobs[s.runs[r].job].state == Active(r)
    ensures var t := AfterRedeliver(s, d, x);
      && d !in t.dropped && t.deliveries[d] == s.deliveries[d].(status := Pending)
      && NoOrphan.Owed(t, d) && NoOrphan.RowFor(t, d, x)
  {
    assert NoStray(s, d);
    assert Target(x, d) !in s.enqueued;
  }
}
