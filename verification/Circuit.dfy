// The endpoint circuit breaker: the pure transitions, and the store that applies
// them to the snapshot and the probe key that all workers share in Redis.
module Circuit {
  import opened Common

  datatype CircuitState = Closed | Open | HalfOpen
  datatype Snapshot = Snapshot(state: CircuitState, failures: nat, openedAt: int)
  datatype Config = Config(openAfter: int, cooldownMs: int, disableAfter: int)

  datatype Decision = Decision(allow: bool, next: Snapshot)
  datatype Verdict = Verdict(next: Snapshot, disable: bool)

  const EMPTY := Snapshot(Closed, 0, 0)
  const PROBE_TTL_MS: int := 30_000

  function DecideAttempt(snapshot: Snapshot, now: int, cfg: Config): Decision {
    match snapshot.state
    case Closed => Decision(true, snapshot)
    case Open =>
      if now < snapshot.openedAt + cfg.cooldownMs then Decision(false, snapshot)
      else Decision(true, snapshot.(state := HalfOpen))
    case HalfOpen => Decision(true, snapshot)
  }

  function OnSuccess(): Snapshot {
    EMPTY
  }

  function OnFailure(snapshot: Snapshot, now: int, cfg: Config): Verdict {
    var failures := snapshot.failures + 1;
    var disable := failures >= cfg.disableAfter;
    if failures >= cfg.openAfter then Verdict(Snapshot(Open, failures, now), disable)
    else Verdict(Snapshot(Closed, failures, 0), disable)
  }

  // CLOSED counts below the threshold and has no opening time; the others are past it.
  predicate Sound(snapshot: Snapshot, cfg: Config) {
    if snapshot.state == Closed then snapshot.failures < cfg.openAfter && snapshot.openedAt == 0
    else snapshot.failures >= cfg.openAfter
  }

  // ---- the shared keys ----

  datatype Redis = Redis(stored: Option<Snapshot>, probeUntil: Option<int>)

  function Current(redis: Redis): Snapshot {
    if redis.stored.Some? then redis.stored.value else EMPTY
  }

  predicate ProbeHeld(redis: Redis, now: int) {
    redis.probeUntil.Some? && now < redis.probeUntil.value
  }

  // Whether the attempt would be a half-open probe, and whether it may go.
  predicate WouldProbe(redis: Redis, now: int, cfg: Config) {
    DecideAttempt(Current(redis), now, cfg).next.state == HalfOpen
  }

  predicate Allows(redis: Redis, now: int, cfg: Config) {
    && DecideAttempt(Current(redis), now, cfg).allow
    && (WouldProbe(redis, now, cfg) ==> !ProbeHeld(redis, now))
  }

  function AfterAllow(redis: Redis, now: int, cfg: Config): Redis {
    if Allows(redis, now, cfg) && WouldProbe(redis, now, cfg) then
      Redis(Some(DecideAttempt(Current(redis), now, cfg).next), Some(now + PROBE_TTL_MS))
    else redis
  }

  function AfterSuccess(): Redis {
    Redis(Some(OnSuccess()), None)
  }

  function AfterFailure(redis: Redis, now: int, cfg: Config): Redis {
    Redis(Some(OnFailure(Current(redis), now, cfg).next), None)
  }

  // The store, each method uninterrupted. Redis errors, which make every method
  // fail open, are not part of this model.
  class CircuitStore {
    const cfg: Config
    var stored: Option<Snapshot>
    var probeUntil: Option<int>

    ghost function View(): Redis
      reads this
    {
      Redis(stored, probeUntil)
    }

    constructor (cfg: Config)
      ensures this.cfg == cfg && View() == Redis(None, None)
    {
      this.cfg := cfg;
      stored, probeUntil := None, None;
    }

    method Read() returns (snapshot: Snapshot)
      ensures snapshot == Current(View())
      ensures snapshot == if stored.Some? then stored.value else Snapshot(Closed, 0, 0)
    {
      if stored == None {
        return EMPTY;
      }
      return stored.value;
    }

    // SET key value EX ttl NX
    method SetProbeNX(now: int) returns (won: bool)
      modifies this`probeUntil
      ensures won == !ProbeHeld(old(View()), now)
      ensures probeUntil == if won then Some(now + PROBE_TTL_MS) else old(probeUntil)
    {
      won := probeUntil == None || probeUntil.value <= now;
      if won {
        probeUntil := Some(now + PROBE_TTL_MS);
      }
    }

    // HALF_OPEN, or OPEN for a whole cooldown.
    ghost predicate MayProbe(snapshot: Snapshot, now: int) {
      snapshot.state == HalfOpen || (snapshot.state == Open && snapshot.openedAt + cfg.cooldownMs <= now)
    }

    // CLOSED, and when nothing is stored: everything passes and nothing changes. OPEN:
    // nothing passes for the cooldown. After it, and HALF_OPEN: one passes, the one that
    // gets the probe key, and the circuit is HALF_OPEN.
    method Allow(now: int) returns (allowed: bool)
      modifies this
      ensures allowed == Allows(old(View()), now, cfg) && View() == AfterAllow(old(View()), now, cfg)
      ensures old(stored) == None || old(stored).value.state == Closed ==>
        allowed && stored == old(stored) && probeUntil == old(probeUntil)
      ensures old(stored).Some? && old(stored).value.state == Open ==>
        now < old(stored).value.openedAt + cfg.cooldownMs ==>
        !allowed && stored == old(stored) && probeUntil == old(probeUntil)
      ensures old(stored).Some? && MayProbe(old(stored).value, now) ==>
        && (allowed <==> old(probeUntil) == None || old(probeUntil).value <= now)
        && stored == (if allowed then Some(old(stored).value.(state := HalfOpen)) else old(stored))
        && probeUntil == (if allowed then Some(now + 30_000) else old(probeUntil))
    {
      var current := Read();
      var decision := DecideAttempt(current, now, cfg);
      if !decision.allow {
        return false;
      }
      if decision.next.state == HalfOpen {
        var won := SetProbeNX(now);
        if !won {
          return false;
        }
        stored := Some(decision.next);
        return true;
      }
      return true;
    }

    method Success()
      modifies this
      ensures View() == AfterSuccess()
      ensures stored == Some(Snapshot(Closed, 0, 0)) && probeUntil == None
    {
      stored := Some(OnSuccess());
      probeUntil := None;
    }

    method Failure(now: int) returns (disable: bool, failures: nat)
      modifies this
      ensures View() == AfterFailure(old(View()), now, cfg)
      ensures failures == (if old(stored).Some? then old(stored).value.failures else 0) + 1
      ensures disable <==> cfg.disableAfter <= failures
      ensures probeUntil == None && stored == Some(
        if cfg.openAfter <= failures then Snapshot(Open, failures, now) else Snapshot(Closed, failures, 0))
    {
      var current := Read();
      var verdict := OnFailure(current, now, cfg);
      stored := Some(verdict.next);
      probeUntil := None;
      return verdict.disable, verdict.next.failures;
    }
  }
}
