// A delivery that is neither SUCCEEDED nor DEAD still has something that will work
// on it, unless it is wedged, or its job was lost since it was last redelivered.
module NoOrphan {
  import opened Pipeline
  import opened Invariant
  import opened Wedge

  // An outbox row that targets the delivery and was never enqueued for it.
  ghost predicate RowFor(s: State, d: DeliveryId, x: RowId) {
    x in s.outbox && IsTarget(s.deliveries, s.outbox[x], d) && Target(x, d) !in s.enqueued
  }

  // A job of the delivery that is waiting, delayed, left behind by a dead run, not
  // yet read, able to take the next claim, holding the claim, or about to retry.
  ghost predicate JobFor(s: State, d: DeliveryId, j: JobKey) {
    && j in s.jobs && j.delivery == d && d in s.deliveries
    && match s.jobs[j].state
       case Waiting => true
       case Delayed => true
       case Active(r) => r !in s.runs || RunFor(s.attempts, s.deliveries[d].attemptCount, d, s.runs[r].pc)
  }

  ghost predicate RunFor(attempts: map<Attempt, ClaimRow>, count: nat, d: DeliveryId, pc: Pc) {
    match pc
    case HasRead(seen) => seen == count && Attempt(d, count + 1) !in attempts
    case Finishing => false
    case _ => true
  }

  ghost predicate Live(s: State, d: DeliveryId) {
    (exists x :: RowFor(s, d, x)) || (exists j :: JobFor(s, d, j))
  }

  ghost predicate Owed(s: State, d: DeliveryId) {
    Unfinished(s, d) && !Wedged(s, d) && d !in s.dropped
  }

  ghost predicate Kept(s: State, d: DeliveryId) {
    Owed(s, d) ==> Live(s, d)
  }

  // A claim past attemptCount belongs to a run that is in its window and has its job.
  ghost predicate Held(s: State, d: DeliveryId)
    requires d in s.deliveries
  {
    Attempt(d, s.deliveries[d].attemptCount + 1) in s.attempts ==>
      exists r :: r in s.runs && s.runs[r].job.delivery == d && Window(s.runs[r].pc) && Owns(s, r)
  }

  lemma OwedIsHeld(m: MaxAttempts, s: State, d: DeliveryId)
    requires Hold(m, s) && Owed(s, d)
    ensures Held(s, d) && NoStray(s, d)
  {
  }

  // A run at work on d, with the queue's lock on its job.
  lemma RunWorks(s: State, d: DeliveryId, r: RunId)
    requires d in s.deliveries && r in s.runs && s.runs[r].job.delivery == d && Owns(s, r)
    requires RunFor(s.attempts, s.deliveries[d].attemptCount, d, s.runs[r].pc)
    ensures Live(s, d)
  {
    assert JobFor(s, d, s.runs[r].job);
  }

  // A delivery that becomes unfinished does so with a row of its own.
  lemma ApiKeepsLive(m: MaxAttempts, s: State, call: ApiCall, d: DeliveryId)
    requires Feed(s) && ApiEnabled(s, call) && (Owed(s, d) ==> Live(s, d)) && Owed(AfterApi(s, call), d)
    ensures Live(AfterApi(s, call), d)
  {
    var t := AfterApi(s, call);
    if Owed(s, d) {
      if x :| RowFor(s, d, x) {
        assert RowFor(t, d, x);
      } else {
        var j :| JobFor(s, d, j);
        assert JobFor(t, d, j);
      }
    } else {
      assert Target(call.row, d) !in s.enqueued;
      assert RowFor(t, d, call.row);
    }
  }

  lemma ApiKeeps(m: MaxAttempts, s: State, call: ApiCall, d: DeliveryId)
    requires Feed(s) && ApiEnabled(s, call) && Kept(s, d)
    ensures Kept(AfterApi(s, call), d)
  {
    if Owed(AfterApi(s, call), d) {
      ApiKeepsLive(m, s, call, d);
    }
  }

  lemma RelayKeeps(m: MaxAttempts, s: State, k: TickId, step: RelayStep, d: DeliveryId)
    requires Feed(s) && RelayEnabled(s, k, step) && Kept(s, d)
    ensures Kept(AfterRelay(s, k, step), d)
  {
    var t := AfterRelay(s, k, step);
    if Owed(t, d) {
      if x :| RowFor(s, d, x) {
        if step.Add? && s.ticks[k].batch[s.ticks[k].at] == x && step.delivery == d {
          var key := KeyFor(s.outbox, x, d);
          assert key !in s.jobs;
          assert JobFor(t, d, key);
        } else {
          assert RowFor(t, d, x);
        }
      } else {
        var j :| JobFor(s, d, j);
        assert JobFor(t, d, j);
      }
    }
  }

  // What becomes of the work on d when the outbox does not change.
  lemma WorkMoves(s: State, t: State, d: DeliveryId)
    requires Live(s, d) && t.outbox == s.outbox && t.enqueued == s.enqueued
    requires t.deliveries.Keys == s.deliveries.Keys
    requires forall e :: e in s.deliveries ==> t.deliveries[e].event == s.deliveries[e].event
    requires forall j :: JobFor(s, d, j) ==> JobFor(t, d, j)
    ensures Live(t, d)
  {
    if x :| RowFor(s, d, x) {
      assert RowFor(t, d, x);
    } else {
      var j :| JobFor(s, d, j);
      assert JobFor(t, d, j);
    }
  }

  lemma QueueKeeps(m: MaxAttempts, s: State, j: JobKey, step: QueueStep, d: DeliveryId)
    requires Hold(m, s) && QueueEnabled(s, j, step) && Kept(s, d)
    ensures Kept(AfterQueue(s, j, step), d)
  {
    if Owed(AfterQueue(s, j, step), d) {
      WorkMoves(s, AfterQueue(s, j, step), d);
    }
  }

  lemma OtherStepKeepsLive(m: MaxAttempts, s: State, r: RunId, step: RunStep, d: DeliveryId)
    requires Hold(m, s) && StepEnabled(s, r, step) && Live(s, d) && s.runs[r].job.delivery != d && d in s.deliveries
    ensures Live(AfterStep(m, s, r, step), d)
  {
    WorkMoves(s, AfterStep(m, s, r, step), d);
  }

  lemma ReadKeepsLive(m: MaxAttempts, s: State, r: RunId, d: DeliveryId)
    requires Hold(m, s) && StepEnabled(s, r, Read) && Owed(s, d) && s.runs[r].job.delivery == d
    ensures Live(AfterRead(s, r), d)
  {
    var t := AfterRead(s, r);
    if Attempt(d, s.deliveries[d].attemptCount + 1) in s.attempts {
      var holder :| holder in s.runs && s.runs[holder].job.delivery == d && Window(s.runs[holder].pc);
      RunWorks(t, d, holder);
    } else {
      RunWorks(t, d, r);
    }
  }

  lemma ClaimKeepsLive(m: MaxAttempts, s: State, r: RunId, d: DeliveryId)
    requires Hold(m, s) && StepEnabled(s, r, Claim) && Live(s, d) && Owed(s, d) && s.runs[r].job.delivery == d
    ensures Live(AfterClaim(s, r), d)
  {
    var t := AfterClaim(s, r);
    if Attempt(d, s.runs[r].pc.count + 1) !in s.attempts {
      RunWorks(t, d, r);
    } else if Attempt(d, s.deliveries[d].attemptCount + 1) in s.attempts {
      var holder :| holder in s.runs && s.runs[holder].job.delivery == d && Window(s.runs[holder].pc);
      RunWorks(t, d, holder);
    } else {
      WorkMoves(s, t, d);
    }
  }

  lemma StepKeepsLive(m: MaxAttempts, s: State, r: RunId, step: RunStep, d: DeliveryId)
    requires Hold(m, s) && StepEnabled(s, r, step) && Live(s, d) && Owed(s, d) && Owed(AfterStep(m, s, r, step), d)
    ensures Live(AfterStep(m, s, r, step), d)
  {
    if s.runs[r].job.delivery != d {
      OtherStepKeepsLive(m, s, r, step, d);
    } else if step == Read {
      ReadKeepsLive(m, s, r, d);
    } else if step == Claim {
      ClaimKeepsLive(m, s, r, d);
    } else {
      RunWorks(AfterStep(m, s, r, step), d, r);
    }
  }

  lemma EndKeepsLive(m: MaxAttempts, s: State, r: RunId, end: RunEnd, d: DeliveryId)
    requires Hold(m, s) && EndEnabled(s, r, end) && Live(s, d) && Owed(AfterEnd(m, s, r, end), d)
    ensures Live(AfterEnd(m, s, r, end), d)
  {
    WorkMoves(s, AfterEnd(m, s, r, end), d);
  }

  // A wedge stays, and no run writes a finished delivery.
  lemma StepOwedBefore(m: MaxAttempts, s: State, r: RunId, step: RunStep, d: DeliveryId)
    requires Work(m, s) && StepEnabled(s, r, step) && Owed(AfterStep(m, s, r, step), d)
    ensures Owed(s, d)
  {
    assert PcOk(m, s.deliveries, s.attempts, r, s.runs[r]);
    if Wedged(s, d) && Unfinished(s, d) {
      StepKeepsWedge(m, s, r, step, d);
    }
  }

  lemma StepKeeps(m: MaxAttempts, s: State, r: RunId, step: RunStep, d: DeliveryId)
    requires Work(m, s) && Hold(m, s) && StepEnabled(s, r, step) && Kept(s, d)
    ensures Kept(AfterStep(m, s, r, step), d)
  {
    if Owed(AfterStep(m, s, r, step), d) {
      StepOwedBefore(m, s, r, step, d);
      StepKeepsLive(m, s, r, step, d);
    }
  }

  lemma EndKeeps(m: MaxAttempts, s: State, r: RunId, end: RunEnd, d: DeliveryId)
    requires Hold(m, s) && EndEnabled(s, r, end) && Kept(s, d)
    ensures Kept(AfterEnd(m, s, r, end), d)
  {
    if Owed(AfterEnd(m, s, r, end), d) {
      if Wedged(s, d) {
        EndKeepsWedge(m, s, r, end, d);
      }
      EndKeepsLive(m, s, r, end, d);
    }
  }

  lemma ReceiveKeeps(s: State, a: Attempt, d: DeliveryId)
    requires Kept(s, d)
    ensures Kept(AfterReceive(s, a), d)
  {
    if Owed(s, d) {
      WorkMoves(s, AfterReceive(s, a), d);
    }
  }

  lemma ActionKeeps(m: MaxAttempts, s: State, a: Action, d: DeliveryId)
    requires Inv(m, s) && Enabled(s, a) && Kept(s, d)
    ensures Kept(Apply(m, s, a), d)
  {
    match a
    case Api(call) => ApiKeeps(m, s, call, d);
    case Relay(t, step) => RelayKeeps(m, s, t, step, d);
    case Queue(j, step) => QueueKeeps(m, s, j, step, d);
    case Worker(r, step) => StepKeeps(m, s, r, step, d);
    case Ends(r, end) => EndKeeps(m, s, r, end, d);
    case Receive(attempt) => ReceiveKeeps(s, attempt, d);
  }

  lemma {:induction false} TraceKeeps(m: MaxAttempts, s: State, trace: seq<Action>, d: DeliveryId)
    requires Inv(m, s) && ValidTrace(m, s, trace) && Kept(s, d)
    ensures Kept(After(m, s, trace), d)
    decreases |trace|
  {
    if trace != [] {
      StepKeepsInv(m, s, trace[0]);
      ActionKeeps(m, s, trace[0], d);
      TraceKeeps(m, Apply(m, s, trace[0]), trace[1..], d);
    }
  }

  // In every interleaving of every process, whatever crashed: a delivery that is not
  // finished, not wedged and not dropped since it was last redelivered has a PENDING
  // outbox row still to be enqueued for it, or a job that will work on it; and its next
  // number is free, or claimed by a run that still has its job.
  lemma NoDeliveryIsOrphaned(m: MaxAttempts, s: State, d: DeliveryId)
    requires Reachable(m, s)
    requires Unfinished(s, d) && !Wedged(s, d) && d !in s.dropped
    ensures (exists x :: RowFor(s, d, x) && !s.outbox[x].published) || (exists j :: JobFor(s, d, j))
    ensures Held(s, d) && NoStray(s, d)
  {
    var trace :| IsRun(m, Anyone, INIT, trace, s);
    TraceKeeps(m, INIT, trace, d);
    ReachableKeepsInv(m, s);
    OwedIsHeld(m, s, d);
    if x :| RowFor(s, d, x) {
      assert !s.outbox[x].published;
    }
  }
}
