// How hard a dead endpoint is knocked on: attempts one after another, none of
// which succeeds.
module CircuitRate {
  import opened Circuit
  import opened Arithmetic

  // The worker asks the circuit at `at`; if it may send, the failure is reported at `end`.
  datatype Try = Try(at: int, end: int)

  predicate InOrder(tries: seq<Try>, from: int) {
    && (forall i :: 0 <= i < |tries| ==> from <= tries[i].at <= tries[i].end)
    && (forall i, k :: 0 <= i < k < |tries| ==> tries[i].end <= tries[k].at)
  }

  function AfterTry(redis: Redis, t: Try, cfg: Config): Redis {
    if Allows(redis, t.at, cfg) then AfterFailure(AfterAllow(redis, t.at, cfg), t.end, cfg) else redis
  }

  function Sends(redis: Redis, tries: seq<Try>, cfg: Config): nat
    decreases |tries|
  {
    if tries == [] then 0
    else (if Allows(redis, tries[0].at, cfg) then 1 else 0) + Sends(AfterTry(redis, tries[0], cfg), tries[1..], cfg)
  }

  // Once open, sends come at least a cooldown apart.
  lemma {:induction false} OpenedSends(redis: Redis, tries: seq<Try>, until: int, cfg: Config)
    requires cfg.cooldownMs > 0 && cfg.openAfter >= 1
    requires Current(redis).state == Open && Sound(Current(redis), cfg)
    requires InOrder(tries, Current(redis).openedAt) && Current(redis).openedAt <= until
    requires forall i :: 0 <= i < |tries| ==> tries[i].end <= until
    ensures Sends(redis, tries, cfg) <= (until - Current(redis).openedAt) / cfg.cooldownMs
    decreases |tries|
  {
    var since := Current(redis).openedAt;
    if tries == [] {
      QuotientsGrow(0, until - since, cfg.cooldownMs);
    } else {
      var t, next := tries[0], AfterTry(redis, tries[0], cfg);
      if Allows(redis, t.at, cfg) {
        assert Current(next).state == Open && Current(next).openedAt == t.end;
        assert InOrder(tries[1..], t.end);
        OpenedSends(next, tries[1..], until, cfg);
        QuotientsGrow(until - t.end + cfg.cooldownMs, until - since, cfg.cooldownMs);
        QuotientsGrow(until - t.end, until - t.end, cfg.cooldownMs);
      } else {
        assert InOrder(tries[1..], since);
        OpenedSends(redis, tries[1..], until, cfg);
      }
    }
  }

  // Sends still free of any cooldown.
  function Slack(snapshot: Snapshot, cfg: Config): int {
    if snapshot.state == Closed then cfg.openAfter - snapshot.failures else 1
  }

  lemma {:induction false} SendsFrom(redis: Redis, tries: seq<Try>, from: int, until: int, cfg: Config)
    requires cfg.cooldownMs > 0 && cfg.openAfter >= 1 && Sound(Current(redis), cfg)
    requires InOrder(tries, from) && from <= until && forall i :: 0 <= i < |tries| ==> tries[i].end <= until
    ensures Sends(redis, tries, cfg) <= Slack(Current(redis), cfg) + (until - from) / cfg.cooldownMs
    decreases |tries|
  {
    if tries == [] {
      QuotientsGrow(0, until - from, cfg.cooldownMs);
    } else {
      var t, next := tries[0], AfterTry(redis, tries[0], cfg);
      QuotientsGrow(until - t.end, until - from, cfg.cooldownMs);
      if !Allows(redis, t.at, cfg) {
        assert InOrder(tries[1..], from);
        SendsFrom(redis, tries[1..], from, until, cfg);
      } else if Current(next).state == Open {
        assert InOrder(tries[1..], Current(next).openedAt);
        OpenedSends(next, tries[1..], until, cfg);
      } else {
        assert InOrder(tries[1..], from);
        SendsFrom(next, tries[1..], from, until, cfg);
      }
    }
  }

  // In any success-free stretch of length T: openAfter + T / cooldown requests.
  lemma SendsAreBounded(redis: Redis, tries: seq<Try>, cfg: Config)
    requires cfg.cooldownMs > 0 && cfg.openAfter >= 1 && Sound(Current(redis), cfg)
    requires tries != [] && InOrder(tries, tries[0].at)
    ensures Sends(redis, tries, cfg) <= cfg.openAfter + (tries[|tries| - 1].end - tries[0].at) / cfg.cooldownMs
  {
    SendsFrom(redis, tries, tries[0].at, tries[|tries| - 1].end, cfg);
  }

  // ---- auto-disable ----

  function Run(redis: Redis, tries: seq<Try>, cfg: Config): Redis
    decreases |tries|
  {
    if tries == [] then redis else Run(AfterTry(redis, tries[0], cfg), tries[1..], cfg)
  }

  // Every failure past the threshold took a cooldown of its own.
  predicate Paced(redis: Redis, since: int, cfg: Config) {
    Current(redis).state == Open && Sound(Current(redis), cfg)
    && (Current(redis).failures - cfg.openAfter) * cfg.cooldownMs <= Current(redis).openedAt - since
  }

  lemma {:induction false} RunStaysPaced(redis: Redis, since: int, tries: seq<Try>, cfg: Config)
    requires cfg.cooldownMs >= 0 && cfg.openAfter >= 1 && Paced(redis, since, cfg)
    requires InOrder(tries, Current(redis).openedAt)
    ensures Paced(Run(redis, tries, cfg), since, cfg)
    decreases |tries|
  {
    if tries != [] {
      var t, next := tries[0], AfterTry(redis, tries[0], cfg);
      if Allows(redis, t.at, cfg) {
        var k := Current(redis).failures - cfg.openAfter;
        assert (k + 1) * cfg.cooldownMs == k * cfg.cooldownMs + cfg.cooldownMs;
        assert Current(next).failures - cfg.openAfter == k + 1;
      }
      assert InOrder(tries[1..], Current(next).openedAt);
      RunStaysPaced(next, since, tries[1..], cfg);
    }
  }

  // The try that opens a CLOSED circuit does so with exactly openAfter failures, and
  // if after `rest` the circuit says disable, the last failure came at least
  // (disableAfter - openAfter) cooldowns later.
  lemma DisableTakesTime(redis: Redis, opening: Try, rest: seq<Try>, cfg: Config)
    requires cfg.cooldownMs >= 0 && cfg.openAfter >= 1
    requires Sound(Current(redis), cfg) && Current(redis).state == Closed && opening.at <= opening.end
    requires Current(AfterTry(redis, opening, cfg)).state == Open && InOrder(rest, opening.end)
    ensures var last := Current(Run(AfterTry(redis, opening, cfg), rest, cfg));
      cfg.disableAfter <= last.failures ==>
        (cfg.disableAfter - cfg.openAfter) * cfg.cooldownMs <= last.openedAt - opening.end
  {
    var start := AfterTry(redis, opening, cfg);
    OpensPaced(redis, opening, cfg);
    RunStaysPaced(start, opening.end, rest, cfg);
    PacedTakesTime(Run(start, rest, cfg), opening.end, cfg);
  }

  lemma OpensPaced(redis: Redis, opening: Try, cfg: Config)
    requires Sound(Current(redis), cfg) && Current(redis).state == Closed
    requires Current(AfterTry(redis, opening, cfg)).state == Open
    ensures var start := AfterTry(redis, opening, cfg);
      Paced(start, opening.end, cfg) && Current(start).openedAt == opening.end
  {
    assert Current(AfterTry(redis, opening, cfg)).failures == cfg.openAfter;
  }

  lemma PacedTakesTime(redis: Redis, since: int, cfg: Config)
    requires cfg.cooldownMs >= 0 && Paced(redis, since, cfg)
    ensures cfg.disableAfter <= Current(redis).failures ==>
      (cfg.disableAfter - cfg.openAfter) * cfg.cooldownMs <= Current(redis).openedAt - since
  {
    var failures := Current(redis).failures;
    if cfg.disableAfter <= failures {
      ScaledGrows(cfg.cooldownMs, cfg.disableAfter - cfg.openAfter, failures - cfg.openAfter);
    }
  }
}
