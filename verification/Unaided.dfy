// A delivery that is neither wedged nor dropped needs no help: the relay, the queue
// and the workers can finish it by themselves.
module Unaided {
  import opened Pipeline
  import opened Invariant
  import opened Traces
  import opened Wedge
  import opened NoOrphan
  import opened Recovery

  // ---- after a failed attempt ----

  // The queue delays the job and hands it out again. When other exceptions have used
  // the job's attempts up, its run must not report: it stops, and the queue takes the
  // job back.
  lemma RetryFinishes(m: MaxAttempts, s: State, r: RunId) returns (t: State)
    requires r in s.runs && s.runs[r].pc.MustRetry? && Owns(s, r)
    requires Unfinished(s, s.runs[r].job.delivery) && Free(s, s.runs[r].job.delivery)
    ensures LeadsBy(m, PlainOnly, s, t) && Finished(t, s.runs[r].job.delivery)
  {
    var j, v := s.runs[r].job, s;
    Stays(m, PlainOnly, s);
    if s.jobs[j].made + 1 < m {
      var u := Go(m, PlainOnly, s, s, Ends(r, Signal));
      v := Go(m, PlainOnly, s, u, Queue(j, Promote));
    } else {
      var u := Go(m, PlainOnly, s, s, Ends(r, Crash));
      v := Go(m, PlainOnly, s, u, Queue(j, Stall));
    }
    t := WaitingFinishes(m, v, j);
    Chain(m, PlainOnly, s, v, t);
  }

  lemma RecordedGoesOn(m: MaxAttempts, s: State, r: RunId) returns (t: State)
    requires HoldsLast(s, r) && s.runs[r].pc.Recorded? && Owns(s, r)
    ensures LeadsBy(m, PlainOnly, s, t) && Finished(t, s.runs[r].job.delivery)
  {
    Stays(m, PlainOnly, s);
    var u := Go(m, PlainOnly, s, s, Worker(r, Write));
    if Finished(u, s.runs[r].job.delivery) {
      t := u;
    } else {
      t := RetryFinishes(m, u, r);
      Chain(m, PlainOnly, s, u, t);
    }
  }

  lemma AnsweredGoesOn(m: MaxAttempts, s: State, r: RunId) returns (t: State)
    requires HoldsLast(s, r) && s.runs[r].pc.Answered? && Owns(s, r)
    ensures LeadsBy(m, PlainOnly, s, t) && Finished(t, s.runs[r].job.delivery)
  {
    Stays(m, PlainOnly, s);
    var u := Go(m, PlainOnly, s, s, Worker(r, Record));
    t := RecordedGoesOn(m, u, r);
    Chain(m, PlainOnly, s, u, t);
  }

  // ---- who finishes it ----

  lemma HolderGoesOn(m: MaxAttempts, s: State, r: RunId) returns (t: State)
    requires Inv(m, s) && r in s.runs && Window(s.runs[r].pc) && Owns(s, r)
    ensures LeadsBy(m, PlainOnly, s, t) && Finished(t, s.runs[r].job.delivery)
  {
    assert PcOk(m, s.deliveries, s.attempts, r, s.runs[r]) && RunEvidence(s.runs[r], s.sent, s.acked);
    match s.runs[r].pc
    case Claimed(_) => t := ClaimSucceeds(m, s, r);
    case Sent(_) => t := SentSucceeds(m, s, r);
    case Answered(_, _) => t := AnsweredGoesOn(m, s, r);
    case Recorded(_, _) => t := RecordedGoesOn(m, s, r);
  }

  lemma ReadFinishes(m: MaxAttempts, s: State, r: RunId) returns (t: State)
    requires r in s.runs && Unfinished(s, s.runs[r].job.delivery) && Free(s, s.runs[r].job.delivery)
    requires s.runs[r].pc == HasRead(s.deliveries[s.runs[r].job.delivery].attemptCount)
    ensures LeadsBy(m, PlainOnly, s, t) && Finished(t, s.runs[r].job.delivery)
  {
    Stays(m, PlainOnly, s);
    var u := Go(m, PlainOnly, s, s, Worker(r, Claim));
    t := ClaimSucceeds(m, u, r);
    Chain(m, PlainOnly, s, u, t);
  }

  lemma TakenFinishes(m: MaxAttempts, s: State, r: RunId) returns (t: State)
    requires r in s.runs && Unfinished(s, s.runs[r].job.delivery) && Free(s, s.runs[r].job.delivery)
    requires s.runs[r].pc == Taken
    ensures LeadsBy(m, PlainOnly, s, t) && Finished(t, s.runs[r].job.delivery)
  {
    Stays(m, PlainOnly, s);
    var u := Go(m, PlainOnly, s, s, Worker(r, Read));
    t := ReadFinishes(m, u, r);
    Chain(m, PlainOnly, s, u, t);
  }

  // A job that no living run has.
  lemma IdleFinishes(m: MaxAttempts, s: State, j: JobKey) returns (t: State)
    requires j in s.jobs && (s.jobs[j].state.Active? ==> s.jobs[j].state.run !in s.runs)
    requires Unfinished(s, j.delivery) && Free(s, j.delivery)
    ensures LeadsBy(m, PlainOnly, s, t) && Finished(t, j.delivery)
  {
    var u := s;
    Stays(m, PlainOnly, s);
    match s.jobs[j].state {
      case Waiting =>
      case Delayed => u := Go(m, PlainOnly, s, s, Queue(j, Promote));
      case Active(_) => u := Go(m, PlainOnly, s, s, Queue(j, Stall));
    }
    t := WaitingFinishes(m, u, j);
    Chain(m, PlainOnly, s, u, t);
  }

  lemma JobFinishes(m: MaxAttempts, s: State, d: DeliveryId, j: JobKey) returns (t: State)
    requires Inv(m, s) && Unfinished(s, d) && Free(s, d) && JobFor(s, d, j)
    ensures LeadsBy(m, PlainOnly, s, t) && Finished(t, d)
  {
    if !s.jobs[j].state.Active? || s.jobs[j].state.run !in s.runs {
      t := IdleFinishes(m, s, j);
    } else {
      t := RunFinishes(m, s, d, s.jobs[j].state.run);
    }
  }

  lemma RunFinishes(m: MaxAttempts, s: State, d: DeliveryId, r: RunId) returns (t: State)
    requires Work(m, s) && Unfinished(s, d) && Free(s, d) && r in s.runs && s.runs[r].job.delivery == d && Owns(s, r)
    requires RunFor(s.attempts, s.deliveries[d].attemptCount, d, s.runs[r].pc)
    ensures LeadsBy(m, PlainOnly, s, t) && Finished(t, d)
  {
    assert PcOk(m, s.deliveries, s.attempts, r, s.runs[r]);
    if s.runs[r].pc == Taken {
      t := TakenFinishes(m, s, r);
    } else if s.runs[r].pc.HasRead? {
      t := ReadFinishes(m, s, r);
    } else {
      t := RetryFinishes(m, s, r);
    }
  }

  lemma KeyIsNew(m: MaxAttempts, s: State, d: DeliveryId, x: RowId)
    requires Feed(s) && RowFor(s, d, x)
    ensures PendingRow(s, x) && KeyFor(s.outbox, x, d) !in s.jobs
  {
    var j := KeyFor(s.outbox, x, d);
    assert j in s.jobs ==> JobEnqueued(s.deliveries, s.outbox, s.enqueued, j);
  }

  lemma EnqueuedIsWaiting(s: State, t: State, d: DeliveryId, j: JobKey)
    requires Pumped(s, t) && j !in s.jobs && j in t.jobs && Unfinished(s, d) && Free(s, d)
    ensures t.jobs[j].state == Waiting && Unfinished(t, d) && Free(t, d)
  {
  }

  lemma RowFinishes(m: MaxAttempts, s: State, d: DeliveryId, x: RowId) returns (t: State)
    requires Inv(m, s) && Unfinished(s, d) && Free(s, d) && RowFor(s, d, x)
    ensures LeadsBy(m, PlainOnly, s, t) && Finished(t, d)
  {
    var j := KeyFor(s.outbox, x, d);
    KeyIsNew(m, s, d, x);
    var u := RelayReaches(m, s, d, x);
    EnqueuedIsWaiting(s, u, d, j);
    t := WaitingFinishes(m, u, j);
    Chain(m, PlainOnly, s, u, t);
  }

  // From every reachable state in which a delivery is unfinished, not wedged and not
  // dropped, some run finishes it in which nobody calls the API, nothing throws, no
  // endpoint is found unusable and no enqueue fails. A worker stops in it only where
  // exceptions before have used up its job's attempts.
  lemma OwedFinishes(m: MaxAttempts, s: State, d: DeliveryId) returns (t: State)
    requires Reachable(m, s) && Owed(s, d)
    ensures LeadsBy(m, PlainOnly, s, t) && Finished(t, d)
  {
    NoDeliveryIsOrphaned(m, s, d);
    ReachableKeepsInv(m, s);
    if !Free(s, d) {
      var r :| r in s.runs && s.runs[r].job.delivery == d && Window(s.runs[r].pc) && Owns(s, r);
      t := HolderGoesOn(m, s, r);
    } else if x :| RowFor(s, d, x) {
      t := RowFinishes(m, s, d, x);
    } else {
      var j :| JobFor(s, d, j);
      t := JobFinishes(m, s, d, j);
    }
  }
}
