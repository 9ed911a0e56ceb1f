// One half-open probe at a time, for workers that report within L milliseconds.
module CircuitProbe {
  import opened Common
  import opened Circuit

  type AttemptId = nat

  // An attempt between allow and its report.
  datatype InFlight = InFlight(start: int, probe: bool)
  datatype World = World(now: int, redis: Redis, flying: map<AttemptId, InFlight>)

  datatype Event =
    | Passes(to: int)
    | Begins(id: AttemptId)
    | Succeeds(id: AttemptId)
    | Fails(id: AttemptId)
    | Dies(id: AttemptId)

  const START := World(0, Redis(None, None), map[])

  // Every attempt reports, or its worker dies, before `limit` ms have passed.
  predicate Possible(w: World, e: Event, limit: int) {
    match e
    case Passes(to) => w.now <= to && forall i :: i in w.flying ==> to < w.flying[i].start + limit
    case Begins(i) => i !in w.flying
    case Succeeds(i) => i in w.flying
    case Fails(i) => i in w.flying
    case Dies(i) => i in w.flying
  }

  function Do(w: World, e: Event, cfg: Config): World {
    match e
    case Passes(to) => w.(now := to)
    case Begins(i) =>
      w.(redis := AfterAllow(w.redis, w.now, cfg),
         flying := if !Allows(w.redis, w.now, cfg) then w.flying
                   else w.flying[i := InFlight(w.now, WouldProbe(w.redis, w.now, cfg))])
    case Succeeds(i) => w.(redis := AfterSuccess(), flying := w.flying - {i})
    case Fails(i) => w.(redis := AfterFailure(w.redis, w.now, cfg), flying := w.flying - {i})
    case Dies(i) => w.(flying := w.flying - {i})
  }

  predicate ValidRun(w: World, run: seq<Event>, limit: int, cfg: Config)
    decreases |run|
  {
    run == [] || (Possible(w, run[0], limit) && ValidRun(Do(w, run[0], cfg), run[1..], limit, cfg))
  }

  function End(w: World, run: seq<Event>, cfg: Config): World
    decreases |run|
  {
    if run == [] then w else End(Do(w, run[0], cfg), run[1..], cfg)
  }

  // ---- at most one probe ----

  predicate Probing(w: World, i: AttemptId) {
    i in w.flying && w.flying[i].probe
  }

  // A probe in flight keeps the next one out: an OPEN circuit opened no earlier
  // than the probe started, a HALF_OPEN one still has its key.
  predicate Guarded(w: World, i: AttemptId)
    requires i in w.flying
  {
    match Current(w.redis).state
    case Closed => true
    case Open => w.flying[i].start <= Current(w.redis).openedAt
    case HalfOpen => w.redis.probeUntil.Some? && w.flying[i].start + PROBE_TTL_MS <= w.redis.probeUntil.value
  }

  ghost predicate OneProbe(w: World, limit: int) {
    && (forall i :: i in w.flying ==> w.flying[i].start <= w.now < w.flying[i].start + limit)
    && (forall i :: Probing(w, i) ==> Guarded(w, i))
    && (forall i, k :: Probing(w, i) && Probing(w, k) ==> i == k)
  }

  lemma EventKeepsOneProbe(w: World, e: Event, limit: int, cfg: Config)
    requires 1 <= limit <= Min(PROBE_TTL_MS, cfg.cooldownMs) && cfg.openAfter >= 1
    requires OneProbe(w, limit) && Possible(w, e, limit)
    ensures OneProbe(Do(w, e, cfg), limit)
  {
    var after := Do(w, e, cfg);
    forall i | i in after.flying && (e.Begins? ==> i != e.id)
      ensures i in w.flying && after.flying[i] == w.flying[i]
      ensures Probing(after, i) ==> Probing(w, i) && Guarded(after, i)
    {
      assert Probing(w, i) ==> Guarded(w, i);
    }
    if e.Begins? && Allows(w.redis, w.now, cfg) && WouldProbe(w.redis, w.now, cfg) {
      forall i | Probing(w, i)
        ensures false
      {
        assert Guarded(w, i);
      }
    }
  }

  lemma {:induction false} RunKeepsOneProbe(w: World, run: seq<Event>, limit: int, cfg: Config)
    requires 1 <= limit <= Min(PROBE_TTL_MS, cfg.cooldownMs) && cfg.openAfter >= 1
    requires OneProbe(w, limit) && ValidRun(w, run, limit, cfg)
    ensures OneProbe(End(w, run, cfg), limit)
    decreases |run|
  {
    if run != [] {
      EventKeepsOneProbe(w, run[0], limit, cfg);
      RunKeepsOneProbe(Do(w, run[0], cfg), run[1..], limit, cfg);
    }
  }

  ghost predicate NeverTwoProbes(limit: int, cfg: Config) {
    forall run, i, k :: ValidRun(START, run, limit, cfg) ==>
      Probing(End(START, run, cfg), i) && Probing(End(START, run, cfg), k) ==> i == k
  }

  lemma ShortAttemptsProbeAlone(limit: int, cfg: Config)
    requires 1 <= limit <= Min(PROBE_TTL_MS, cfg.cooldownMs) && cfg.openAfter >= 1
    ensures NeverTwoProbes(limit, cfg)
  {
    forall run, i, k |
      ValidRun(START, run, limit, cfg) && Probing(End(START, run, cfg), i) && Probing(End(START, run, cfg), k)
      ensures i == k
    {
      RunKeepsOneProbe(START, run, limit, cfg);
    }
  }

  // ---- and no longer than that ----

  lemma {:induction false} Append(w: World, x: seq<Event>, y: seq<Event>, limit: int, cfg: Config)
    requires ValidRun(w, x, limit, cfg) && ValidRun(End(w, x, cfg), y, limit, cfg)
    ensures ValidRun(w, x + y, limit, cfg) && End(w, x + y, cfg) == End(End(w, x, cfg), y, cfg)
    decreases |x|
  {
    if x == [] {
      assert x + y == y;
    } else {
      assert (x + y)[1..] == x[1..] + y;
      Append(Do(w, x[0], cfg), x[1..], y, limit, cfg);
    }
  }

  lemma Then(run: seq<Event>, e: Event, limit: int, cfg: Config) returns (longer: seq<Event>)
    requires ValidRun(START, run, limit, cfg) && Possible(End(START, run, cfg), e, limit)
    ensures ValidRun(START, longer, limit, cfg) && End(START, longer, cfg) == Do(End(START, run, cfg), e, cfg)
  {
    longer := run + [e];
    assert [e][1..] == [];
    Append(START, run, [e], limit, cfg);
  }

  // Attempt 0 stays out while others fail, all at time 0, until `failures` are counted.
  lemma {:induction false} FailTogether(failures: nat, limit: int, cfg: Config) returns (run: seq<Event>)
    requires failures <= cfg.openAfter && 1 <= limit && 1 <= cfg.openAfter
    ensures ValidRun(START, run, limit, cfg)
    ensures var w := End(START, run, cfg);
      && w.now == 0 && w.flying == map[0 := InFlight(0, false)] && w.redis.probeUntil == None
      && Current(w.redis) == Snapshot(if failures == cfg.openAfter then Open else Closed, failures, 0)
  {
    if failures == 0 {
      run := Then([], Begins(0), limit, cfg);
    } else {
      run := FailTogether(failures - 1, limit, cfg);
      run := Then(run, Begins(1), limit, cfg);
      run := Then(run, Fails(1), limit, cfg);
      assert End(START, run, cfg).flying == map[0 := InFlight(0, false)];
    }
  }

  // An attempt outlasts the probe key: the key expires and a second probe gets it.
  lemma KeyExpires(limit: int, cfg: Config) returns (run: seq<Event>)
    requires PROBE_TTL_MS < limit && cfg.openAfter >= 1 && cfg.cooldownMs >= 0
    ensures ValidRun(START, run, limit, cfg) && Probing(End(START, run, cfg), 1) && Probing(End(START, run, cfg), 2)
  {
    run := FailTogether(cfg.openAfter, limit, cfg);
    run := Then(run, Dies(0), limit, cfg);
    run := Then(run, Passes(cfg.cooldownMs), limit, cfg);
    run := Then(run, Begins(1), limit, cfg);
    run := Then(run, Passes(cfg.cooldownMs + PROBE_TTL_MS), limit, cfg);
    run := Then(run, Begins(2), limit, cfg);
  }

  // An attempt outlasts the cooldown: a straggler from before the circuit opened
  // fails while the probe is out, deletes its key and reopens the circuit.
  lemma StragglerReopens(limit: int, cfg: Config) returns (run: seq<Event>)
    requires cfg.cooldownMs < limit && cfg.openAfter >= 1 && cfg.cooldownMs >= 0
    ensures ValidRun(START, run, limit, cfg) && Probing(End(START, run, cfg), 1) && Probing(End(START, run, cfg), 2)
  {
    run := FailTogether(cfg.openAfter, limit, cfg);
    run := Then(run, Passes(cfg.cooldownMs), limit, cfg);
    run := Then(run, Begins(1), limit, cfg);
    run := Then(run, Fails(0), limit, cfg);
    run := Then(run, Passes(2 * cfg.cooldownMs), limit, cfg);
    run := Then(run, Begins(2), limit, cfg);
  }

  // The probe is single in every run exactly when attempts report within the probe
  // key's TTL and within the cooldown.
  lemma SingleProbeExactlyWhen(limit: int, cfg: Config)
    requires limit >= 1 && cfg.openAfter >= 1 && cfg.cooldownMs >= 0
    ensures NeverTwoProbes(limit, cfg) <==> limit <= Min(PROBE_TTL_MS, cfg.cooldownMs)
  {
    if limit <= Min(PROBE_TTL_MS, cfg.cooldownMs) {
      ShortAttemptsProbeAlone(limit, cfg);
    } else if PROBE_TTL_MS < limit {
      var run := KeyExpires(limit, cfg);
    } else {
      var run := StragglerReopens(limit, cfg);
    }
  }
}
