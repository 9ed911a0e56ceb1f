// The one way a delivery is lost for good, and that it is the only one.
//
// A claim whose run is gone blocks its number for ever: attemptCount never reaches
// it, so every later claim collides with it. Redelivering does not help; only deleting
// the claim row would, which no step here does, as the purge of old attempts is left out.
module Wedge {
  import opened Pipeline
  import opened Invariant

  // The number after attemptCount is claimed and no run is left to write its result.
  ghost predicate Wedged(s: State, d: DeliveryId) {
    && d in s.deliveries
    && Attempt(d, s.deliveries[d].attemptCount + 1) in s.attempts
    && forall r :: r in s.runs && s.runs[r].job.delivery == d ==> !Window(s.runs[r].pc)
  }

  ghost predicate Unfinished(s: State, d: DeliveryId) {
    d in s.deliveries && s.deliveries[d].status != Succeeded && s.deliveries[d].status != Dead
  }

  // ---- a wedged delivery stays wedged ----

  ghost predicate StillWedged(s: State, t: State, d: DeliveryId) {
    && Wedged(t, d) && Unfinished(t, d)
    && d in s.deliveries && t.deliveries[d].attemptCount == s.deliveries[d].attemptCount
    && (forall n :: Attempt(d, n) in t.sent ==> Attempt(d, n) in s.sent)
  }

  lemma ClaimKeepsWedge(m: MaxAttempts, s: State, r: RunId, d: DeliveryId)
    requires Work(m, s) && Wedged(s, d) && Unfinished(s, d) && StepEnabled(s, r, Claim)
    ensures StillWedged(s, AfterClaim(s, r), d)
  {
    assert PcOk(m, s.deliveries, s.attempts, r, s.runs[r]);
    if s.runs[r].job.delivery == d {
      assert Attempt(d, s.runs[r].pc.count + 1) in s.attempts;
    }
  }

  lemma StepKeepsWedge(m: MaxAttempts, s: State, r: RunId, step: RunStep, d: DeliveryId)
    requires Work(m, s) && Wedged(s, d) && Unfinished(s, d) && StepEnabled(s, r, step)
    ensures StillWedged(s, AfterStep(m, s, r, step), d)
  {
    if step == Claim {
      ClaimKeepsWedge(m, s, r, d);
    }
  }

  // Nothing outside the workers touches attempts, counts or requests.
  lemma BystandersKeepWedge(s: State, t: State, d: DeliveryId)
    requires Wedged(s, d) && Unfinished(s, d)
    requires t.attempts == s.attempts && t.sent == s.sent
    requires d in t.deliveries && t.deliveries[d].attemptCount == s.deliveries[d].attemptCount
    requires !Terminal(t.deliveries[d].status)
    requires forall r :: r in t.runs ==> (r in s.runs && t.runs[r] == s.runs[r]) || t.runs[r].pc == Taken
    ensures StillWedged(s, t, d)
  {
  }

  lemma ApiKeepsWedge(s: State, call: ApiCall, d: DeliveryId)
    requires Wedged(s, d) && Unfinished(s, d) && ApiEnabled(s, call)
    ensures StillWedged(s, AfterApi(s, call), d)
  {
    var t := AfterApi(s, call);
    assert t.attempts == s.attempts && t.sent == s.sent && t.runs == s.runs;
    assert d in t.deliveries && t.deliveries[d].attemptCount == s.deliveries[d].attemptCount;
    assert !Terminal(t.deliveries[d].status);
  }

  lemma EndKeepsWedge(m: MaxAttempts, s: State, r: RunId, end: RunEnd, d: DeliveryId)
    requires Wedged(s, d) && Unfinished(s, d) && EndEnabled(s, r, end)
    ensures StillWedged(s, AfterEnd(m, s, r, end), d)
  {
    BystandersKeepWedge(s, AfterEnd(m, s, r, end), d);
  }

  lemma OthersKeepWedge(m: MaxAttempts, s: State, a: Action, d: DeliveryId)
    requires Wedged(s, d) && Unfinished(s, d) && Enabled(s, a) && !a.Worker?
    ensures StillWedged(s, Apply(m, s, a), d)
  {
    match a
    case Api(call) => ApiKeepsWedge(s, call, d);
    case Relay(t, step) => BystandersKeepWedge(s, AfterRelay(s, t, step), d);
    case Queue(j, step) => BystandersKeepWedge(s, AfterQueue(s, j, step), d);
    case Ends(r, end) => EndKeepsWedge(m, s, r, end, d);
    case Receive(attempt) => BystandersKeepWedge(s, AfterReceive(s, attempt), d);
  }

  lemma ActionKeepsWedge(m: MaxAttempts, s: State, a: Action, d: DeliveryId)
    requires Work(m, s) && Wedged(s, d) && Unfinished(s, d) && Enabled(s, a)
    ensures StillWedged(s, Apply(m, s, a), d)
  {
    if a.Worker? {
      StepKeepsWedge(m, s, a.run, a.step, d);
    } else {
      OthersKeepWedge(m, s, a, d);
    }
  }

  lemma {:induction false} WedgeIsForever(m: MaxAttempts, s: State, trace: seq<Action>, d: DeliveryId)
    requires Inv(m, s) && Wedged(s, d) && Unfinished(s, d) && ValidTrace(m, s, trace)
    ensures StillWedged(s, After(m, s, trace), d)
    decreases |trace|
  {
    if trace != [] {
      StepKeepsInv(m, s, trace[0]);
      ActionKeepsWedge(m, s, trace[0], d);
      WedgeIsForever(m, Apply(m, s, trace[0]), trace[1..], d);
    }
  }
}
