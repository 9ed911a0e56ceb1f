// How hard a dead endpoint is knocked on by workers that attempt in parallel.
module CircuitLoad {
  import opened Common
  import opened Arithmetic
  import opened Circuit
  import opened CircuitProbe

  // ---- what is counted ----

  predicate SendsAt(w: World, e: Event, cfg: Config) {
    e.Begins? && Allows(w.redis, w.now, cfg)
  }

  function Sends(w: World, run: seq<Event>, cfg: Config): nat
    decreases |run|
  {
    if run == [] then 0 else (if SendsAt(w, run[0], cfg) then 1 else 0) + Sends(Do(w, run[0], cfg), run[1..], cfg)
  }

  function Deaths(run: seq<Event>): nat {
    if run == [] then 0 else (if run[0].Dies? then 1 else 0) + Deaths(run[1..])
  }

  // At most `workers` attempts at once, none of which succeeds, up to the time `until`.
  predicate Fits(w: World, e: Event, workers: nat, until: int) {
    match e
    case Passes(to) => to <= until
    case Begins(_) => |w.flying| < workers
    case Succeeds(_) => false
    case Fails(_) => true
    case Dies(_) => true
  }

  predicate FailingRun(w: World, run: seq<Event>, workers: nat, limit: int, until: int, cfg: Config)
    decreases |run|
  {
    run == [] ||
    (Possible(w, run[0], limit) && Fits(w, run[0], workers, until)
      && FailingRun(Do(w, run[0], cfg), run[1..], workers, limit, until, cfg))
  }

  // ---- what is still to come ----

  ghost predicate SomeProbe(w: World) {
    exists i :: Probing(w, i)
  }

  function Cooldowns(ms: int, cfg: Config): int
    requires cfg.cooldownMs > 0
  {
    ms / cfg.cooldownMs
  }

  // When the last probe went out.
  function ProbedAt(w: World): int {
    if w.redis.probeUntil.Some? then w.redis.probeUntil.value - PROBE_TTL_MS else w.now
  }

  // The sends that may follow. CLOSED: one for each failure that is missing and each
  // worker that is free but one, and one per cooldown. OPEN: one per cooldown since it
  // opened. HALF_OPEN: one per cooldown since the probe, and one if that is lost.
  ghost function Budget(w: World, workers: nat, until: int, cfg: Config): int
    requires cfg.cooldownMs > 0
  {
    match Current(w.redis).state
    case Closed =>
      cfg.openAfter - Current(w.redis).failures + workers - 1 - |w.flying| + Cooldowns(until - w.now, cfg)
    case Open => Cooldowns(until - Current(w.redis).openedAt, cfg)
    case HalfOpen => (if SomeProbe(w) then 0 else 1) + Cooldowns(until - ProbedAt(w), cfg)
  }

  ghost predicate Steady(w: World, workers: nat, limit: int, until: int, cfg: Config) {
    && OneProbe(w, limit) && Sound(Current(w.redis), cfg) && |w.flying| <= workers && w.now <= until
    && (Current(w.redis).state == Open ==> Current(w.redis).openedAt <= w.now)
    && (Current(w.redis).state == HalfOpen ==> w.redis.probeUntil.Some? && ProbedAt(w) <= w.now)
  }
  // ---- every event pays for itself ----

  lemma CooldownsPass(a: int, b: int, cfg: Config)
    requires cfg.cooldownMs > 0 && a <= b
    ensures Cooldowns(a, cfg) <= Cooldowns(b, cfg)
    ensures a + cfg.cooldownMs <= b ==> Cooldowns(a, cfg) + 1 <= Cooldowns(b, cfg)
    ensures 0 <= a ==> 0 <= Cooldowns(a, cfg)
  {
    QuotientsGrow(a, b, cfg.cooldownMs);
    if a + cfg.cooldownMs <= b {
      QuotientsGrow(a, b - cfg.cooldownMs, cfg.cooldownMs);
      QuotientsGrow(b - cfg.cooldownMs, b - cfg.cooldownMs, cfg.cooldownMs);
    }
    if 0 <= a {
      QuotientsGrow(0, a, cfg.cooldownMs);
    }
  }

  lemma FlyingCounts(w: World, i: AttemptId, a: InFlight)
    ensures i in w.flying ==> |w.flying - {i}| == |w.flying| - 1
    ensures i !in w.flying ==> |w.flying[i := a]| == |w.flying| + 1
  {
    assert (w.flying - {i}).Keys == w.flying.Keys - {i};
    assert w.flying[i := a].Keys == w.flying.Keys + {i};
    assert forall m: map<AttemptId, InFlight> :: |m| == |m.Keys|;
  }

  // A probe is in flight while it keeps its key, so nobody else gets it.
  lemma ProbeKeepsKey(w: World, limit: int, cfg: Config)
    requires 1 <= limit <= Min(PROBE_TTL_MS, cfg.cooldownMs)
    requires OneProbe(w, limit) && Current(w.redis).state == HalfOpen && SomeProbe(w)
    ensures !Allows(w.redis, w.now, cfg)
  {
    var i :| Probing(w, i);
    assert Guarded(w, i);
  }

  lemma SendPays(w: World, i: AttemptId, workers: nat, limit: int, until: int, cfg: Config)
    requires 1 <= limit <= Min(PROBE_TTL_MS, cfg.cooldownMs) && cfg.openAfter >= 1
    requires Steady(w, workers, limit, until, cfg) && i !in w.flying && |w.flying| < workers
    requires Allows(w.redis, w.now, cfg)
    ensures Budget(Do(w, Begins(i), cfg), workers, until, cfg) + 1 <= Budget(w, workers, until, cfg)
  {
    var after := Do(w, Begins(i), cfg);
    FlyingCounts(w, i, InFlight(w.now, WouldProbe(w.redis, w.now, cfg)));
    match Current(w.redis).state
    case Closed =>
    case Open =>
      assert Probing(after, i) && ProbedAt(after) == w.now;
      CooldownsPass(until - w.now, until - Current(w.redis).openedAt, cfg);
    case HalfOpen =>
      if SomeProbe(w) {
        ProbeKeepsKey(w, limit, cfg);
      }
      assert Probing(after, i) && ProbedAt(after) == w.now;
      CooldownsPass(until - w.now, until - ProbedAt(w), cfg);
  }

  lemma FailurePays(w: World, i: AttemptId, workers: nat, limit: int, until: int, cfg: Config)
    requires 1 <= limit <= Min(PROBE_TTL_MS, cfg.cooldownMs) && cfg.openAfter >= 1
    requires Steady(w, workers, limit, until, cfg) && i in w.flying
    ensures Budget(Do(w, Fails(i), cfg), workers, until, cfg) <= Budget(w, workers, until, cfg)
  {
    FlyingCounts(w, i, w.flying[i]);
    match Current(w.redis).state
    case Closed =>
    case Open => CooldownsPass(until - w.now, until - Current(w.redis).openedAt, cfg);
    case HalfOpen => CooldownsPass(until - w.now, until - ProbedAt(w), cfg);
  }

  lemma DeathCostsOne(w: World, i: AttemptId, workers: nat, limit: int, until: int, cfg: Config)
    requires cfg.cooldownMs > 0 && Steady(w, workers, limit, until, cfg) && i in w.flying
    ensures Budget(Do(w, Dies(i), cfg), workers, until, cfg) <= Budget(w, workers, until, cfg) + 1
  {
    FlyingCounts(w, i, w.flying[i]);
  }

  lemma TimeIsFree(w: World, to: int, workers: nat, limit: int, until: int, cfg: Config)
    requires cfg.cooldownMs > 0 && Steady(w, workers, limit, until, cfg) && w.now <= to <= until
    ensures Budget(Do(w, Passes(to), cfg), workers, until, cfg) <= Budget(w, workers, until, cfg)
  {
    var after := Do(w, Passes(to), cfg);
    CooldownsPass(until - to, until - w.now, cfg);
    assert forall i :: Probing(w, i) <==> Probing(after, i);
  }

  lemma EventKeepsSteady(w: World, e: Event, workers: nat, limit: int, until: int, cfg: Config)
    requires 1 <= limit <= Min(PROBE_TTL_MS, cfg.cooldownMs) && cfg.openAfter >= 1
    requires Steady(w, workers, limit, until, cfg) && Possible(w, e, limit) && Fits(w, e, workers, until)
    ensures Steady(Do(w, e, cfg), workers, limit, until, cfg)
  {
    EventKeepsOneProbe(w, e, limit, cfg);
    if !e.Passes? {
      FlyingCounts(w, e.id, InFlight(w.now, WouldProbe(w.redis, w.now, cfg)));
    }
  }

  lemma EventPays(w: World, e: Event, workers: nat, limit: int, until: int, cfg: Config)
    requires 1 <= limit <= Min(PROBE_TTL_MS, cfg.cooldownMs) && cfg.openAfter >= 1
    requires Steady(w, workers, limit, until, cfg) && Possible(w, e, limit) && Fits(w, e, workers, until)
    ensures (if SendsAt(w, e, cfg) then 1 else 0) + Budget(Do(w, e, cfg), workers, until, cfg)
      <= Budget(w, workers, until, cfg) + if e.Dies? then 1 else 0
  {
    match e
    case Passes(to) => TimeIsFree(w, to, workers, limit, until, cfg);
    case Begins(i) =>
      if Allows(w.redis, w.now, cfg) {
        SendPays(w, i, workers, limit, until, cfg);
      } else {
        assert Do(w, e, cfg) == w;
      }
    case Fails(i) => FailurePays(w, i, workers, limit, until, cfg);
    case Dies(i) => DeathCostsOne(w, i, workers, limit, until, cfg);
  }

  lemma BudgetIsNatural(w: World, workers: nat, limit: int, until: int, cfg: Config)
    requires cfg.cooldownMs > 0 && cfg.openAfter >= 1 && Steady(w, workers, limit, until, cfg)
    ensures 0 <= Budget(w, workers, until, cfg)
  {
    CooldownsPass(until - w.now, until - w.now, cfg);
    if Current(w.redis).state == Open {
      CooldownsPass(until - w.now, until - Current(w.redis).openedAt, cfg);
    } else if Current(w.redis).state == HalfOpen {
      CooldownsPass(until - w.now, until - ProbedAt(w), cfg);
    }
  }

  lemma {:induction false} SendsFitBudget(w: World, run: seq<Event>, workers: nat, limit: int, until: int, cfg: Config)
    requires 1 <= limit <= Min(PROBE_TTL_MS, cfg.cooldownMs) && cfg.openAfter >= 1
    requires Steady(w, workers, limit, until, cfg) && FailingRun(w, run, workers, limit, until, cfg)
    ensures Sends(w, run, cfg) <= Budget(w, workers, until, cfg) + Deaths(run)
    decreases |run|
  {
    if run == [] {
      BudgetIsNatural(w, workers, limit, until, cfg);
    } else {
      EventPays(w, run[0], workers, limit, until, cfg);
      EventKeepsSteady(w, run[0], workers, limit, until, cfg);
      SendsFitBudget(Do(w, run[0], cfg), run[1..], workers, limit, until, cfg);
    }
  }

  // From a CLOSED circuit with nothing in flight, and no success until a time T later:
  // however `workers` attempts at a time interleave, fail late or die, at most
  // openAfter + workers - 1 + T / cooldown requests go out, and one for each worker
  // that died with an attempt.
  lemma ParallelSendsAreBounded(w: World, run: seq<Event>, workers: nat, limit: int, until: int, cfg: Config)
    requires 1 <= limit <= Min(PROBE_TTL_MS, cfg.cooldownMs) && cfg.openAfter >= 1
    requires Current(w.redis).state == Closed && Sound(Current(w.redis), cfg) && w.flying == map[] && w.now <= until
    requires FailingRun(w, run, workers, limit, until, cfg)
    ensures Sends(w, run, cfg) <= cfg.openAfter + workers - 1 + (until - w.now) / cfg.cooldownMs + Deaths(run)
  {
    SendsFitBudget(w, run, workers, limit, until, cfg);
  }
}
