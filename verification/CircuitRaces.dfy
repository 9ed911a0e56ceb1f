// The circuit store at the granularity of single Redis commands: reads and writes
// of many workers interleave, and updates get lost.
module CircuitRaces {
  import opened Common
  import opened Circuit

  type CallerId = nat

  // Where a call of allow, success or failure stands between two commands.
  datatype Pc =
    | WantsProbe(next: Snapshot)                  // allow: read HALF_OPEN or a cooled-down OPEN
    | WonProbe(next: Snapshot)                    // allow: SET NX succeeded
    | Recovered                                   // success: nothing written
    | Counted(next: Snapshot, disable: bool)      // failure: read and counted, not written
    | Releasing(disable: bool)                    // snapshot written, probe key not deleted

  // `written` counts the failure reports whose snapshot reached Redis.
  datatype Shared = Shared(stored: Option<Snapshot>, probe: bool, calls: map<CallerId, Pc>, written: nat)

  datatype Command =
    | AllowReads(caller: CallerId, now: int)
    | AllowSetsNX(caller: CallerId)
    | AllowWrites(caller: CallerId)
    | SuccessStarts(caller: CallerId)
    | SuccessWrites(caller: CallerId)
    | FailureReads(caller: CallerId, now: int)
    | FailureWrites(caller: CallerId)
    | Deletes(caller: CallerId)
    | Dies(caller: CallerId)
    | ProbeExpires

  const START := Shared(None, false, map[], 0)

  function Now(s: Shared): Snapshot {
    if s.stored.Some? then s.stored.value else EMPTY
  }

  predicate Possible(s: Shared, c: Command) {
    match c
    case AllowReads(i, _) => i !in s.calls
    case AllowSetsNX(i) => i in s.calls && s.calls[i].WantsProbe?
    case AllowWrites(i) => i in s.calls && s.calls[i].WonProbe?
    case SuccessStarts(i) => i !in s.calls
    case SuccessWrites(i) => i in s.calls && s.calls[i].Recovered?
    case FailureReads(i, _) => i !in s.calls
    case FailureWrites(i) => i in s.calls && s.calls[i].Counted?
    case Deletes(i) => i in s.calls && s.calls[i].Releasing?
    case Dies(i) => i in s.calls
    case ProbeExpires => true
  }

  function Do(s: Shared, c: Command, cfg: Config): Shared
    requires Possible(s, c)
  {
    match c
    case AllowReads(i, now) =>
      var d := DecideAttempt(Now(s), now, cfg);
      if d.allow && d.next.state == HalfOpen then s.(calls := s.calls[i := WantsProbe(d.next)]) else s
    case AllowSetsNX(i) =>
      if s.probe then s.(calls := s.calls - {i})
      else s.(probe := true, calls := s.calls[i := WonProbe(s.calls[i].next)])
    case AllowWrites(i) => s.(stored := Some(s.calls[i].next), calls := s.calls - {i})
    case SuccessStarts(i) => s.(calls := s.calls[i := Recovered])
    case SuccessWrites(i) => s.(stored := Some(OnSuccess()), calls := s.calls[i := Releasing(false)])
    case FailureReads(i, now) =>
      var v := OnFailure(Now(s), now, cfg);
      s.(calls := s.calls[i := Counted(v.next, v.disable)])
    case FailureWrites(i) =>
      s.(stored := Some(s.calls[i].next),
         calls := s.calls[i := Releasing(s.calls[i].disable)],
         written := s.written + 1)
    case Deletes(i) => s.(probe := false, calls := s.calls - {i})
    case Dies(i) => s.(calls := s.calls - {i})
    case ProbeExpires => s.(probe := false)
  }

  predicate ValidRun(s: Shared, run: seq<Command>, cfg: Config)
    decreases |run|
  {
    run == [] || (Possible(s, run[0]) && ValidRun(Do(s, run[0], cfg), run[1..], cfg))
  }

  function End(s: Shared, run: seq<Command>, cfg: Config): Shared
    requires ValidRun(s, run, cfg)
    decreases |run|
  {
    if run == [] then s else End(Do(s, run[0], cfg), run[1..], cfg)
  }

  // What a call holds locally is sound, and counts no more than was reported.
  predicate CallOk(pc: Pc, written: nat, cfg: Config) {
    match pc
    case WantsProbe(next) => Sound(next, cfg) && next.failures <= written
    case WonProbe(next) => Sound(next, cfg) && next.failures <= written
    case Recovered => true
    case Counted(next, disable) =>
      Sound(next, cfg) && next.failures <= written + 1 && (disable <==> next.failures >= cfg.disableAfter)
    case Releasing(disable) => disable ==> cfg.disableAfter <= written
  }

  predicate Consistent(s: Shared, cfg: Config) {
    && Sound(Now(s), cfg) && Now(s).failures <= s.written
    && forall i :: i in s.calls ==> CallOk(s.calls[i], s.written, cfg)
  }

  lemma CommandKeepsConsistent(s: Shared, c: Command, cfg: Config)
    requires cfg.openAfter >= 1 && Consistent(s, cfg) && Possible(s, c)
    ensures Consistent(Do(s, c, cfg), cfg)
  {
  }

  lemma {:induction false} RunKeepsConsistent(s: Shared, run: seq<Command>, cfg: Config)
    requires cfg.openAfter >= 1 && Consistent(s, cfg) && ValidRun(s, run, cfg)
    ensures Consistent(End(s, run, cfg), cfg)
    decreases |run|
  {
    if run != [] {
      CommandKeepsConsistent(s, run[0], cfg);
      RunKeepsConsistent(Do(s, run[0], cfg), run[1..], cfg);
    }
  }

  // Whatever interleaves: the stored snapshot is sound, and a call that is about to
  // return disable was preceded by disableAfter written failure reports, its own
  // among them.
  lemma DisableNeedsEnoughFailures(run: seq<Command>, caller: CallerId, cfg: Config)
    requires cfg.openAfter >= 1 && ValidRun(START, run, cfg)
    ensures var s := End(START, run, cfg);
      && Sound(Now(s), cfg) && Now(s).failures <= s.written
      && (caller in s.calls && s.calls[caller] == Releasing(true) ==> cfg.disableAfter <= s.written)
  {
    RunKeepsConsistent(START, run, cfg);
  }

  // The count is a lower bound only: two failures that overlap count once.
  lemma UpdatesGetLost(cfg: Config) returns (run: seq<Command>)
    requires cfg.openAfter >= 2
    ensures ValidRun(START, run, cfg) && End(START, run, cfg).written == 2 && Now(End(START, run, cfg)).failures == 1
  {
    run := [FailureReads(0, 0), FailureReads(1, 0), FailureWrites(0), FailureWrites(1)];
    var s1 := Do(START, run[0], cfg);
    var s2 := Do(s1, run[1], cfg);
    var s3 := Do(s2, run[2], cfg);
    var s4 := Do(s3, run[3], cfg);
    assert End(s4, run[4..], cfg) == s4;
    assert run[3..][1..] == run[4..] && run[2..][1..] == run[3..] && run[1..][1..] == run[2..];
    assert End(s3, run[3..], cfg) == s4;
    assert End(s2, run[2..], cfg) == s4;
    assert End(s1, run[1..], cfg) == s4;
  }
  // ---- a call that is not interrupted ----

  // The keys as the store has them at `now`.
  predicate Shows(s: Shared, redis: Redis, now: int) {
    s.stored == redis.stored && (s.probe <==> ProbeHeld(redis, now))
  }

  // Its commands one after another are the store's method.
  lemma FailureAlone(s: Shared, i: CallerId, redis: Redis, now: int, cfg: Config)
    requires i !in s.calls && Shows(s, redis, now)
    ensures var run := [FailureReads(i, now), FailureWrites(i), Deletes(i)];
      && ValidRun(s, run, cfg) && Shows(End(s, run, cfg), AfterFailure(redis, now, cfg), now)
      && End(s, run, cfg).calls == s.calls && End(s, run, cfg).written == s.written + 1
  {
    var s1 := Do(s, FailureReads(i, now), cfg);
    var s2 := Do(s1, FailureWrites(i), cfg);
    var s3 := Do(s2, Deletes(i), cfg);
    ThreeCommands(s, FailureReads(i, now), FailureWrites(i), Deletes(i), cfg);
    assert s3.calls == s.calls;
  }

  lemma SuccessAlone(s: Shared, i: CallerId, redis: Redis, now: int, cfg: Config)
    requires i !in s.calls && Shows(s, redis, now)
    ensures var run := [SuccessStarts(i), SuccessWrites(i), Deletes(i)];
      && ValidRun(s, run, cfg) && Shows(End(s, run, cfg), AfterSuccess(), now)
      && End(s, run, cfg).calls == s.calls && End(s, run, cfg).written == s.written
  {
    var s1 := Do(s, SuccessStarts(i), cfg);
    var s2 := Do(s1, SuccessWrites(i), cfg);
    var s3 := Do(s2, Deletes(i), cfg);
    ThreeCommands(s, SuccessStarts(i), SuccessWrites(i), Deletes(i), cfg);
    assert s3.calls == s.calls;
  }

  // A probe needs all three commands, a refusal for want of the key two, and what needs
  // no key one.
  lemma AllowAlone(s: Shared, i: CallerId, redis: Redis, now: int, cfg: Config) returns (run: seq<Command>)
    requires i !in s.calls && Shows(s, redis, now)
    ensures ValidRun(s, run, cfg) && Shows(End(s, run, cfg), AfterAllow(redis, now, cfg), now)
    ensures End(s, run, cfg).calls == s.calls && End(s, run, cfg).written == s.written
  {
    var s1 := Do(s, AllowReads(i, now), cfg);
    if i !in s1.calls {
      run := [AllowReads(i, now)];
      assert run[1..] == [];
    } else if s1.probe {
      run := [AllowReads(i, now), AllowSetsNX(i)];
      var s2 := Do(s1, AllowSetsNX(i), cfg);
      assert run[1..] == [AllowSetsNX(i)] && run[1..][1..] == [] && s2.calls == s.calls;
      assert End(s1, run[1..], cfg) == s2;
    } else {
      run := [AllowReads(i, now), AllowSetsNX(i), AllowWrites(i)];
      var s2 := Do(s1, AllowSetsNX(i), cfg);
      var s3 := Do(s2, AllowWrites(i), cfg);
      ThreeCommands(s, AllowReads(i, now), AllowSetsNX(i), AllowWrites(i), cfg);
      assert s3.calls == s.calls;
    }
  }

  lemma ThreeCommands(s: Shared, a: Command, b: Command, c: Command, cfg: Config)
    requires Possible(s, a) && Possible(Do(s, a, cfg), b) && Possible(Do(Do(s, a, cfg), b, cfg), c)
    ensures ValidRun(s, [a, b, c], cfg) && End(s, [a, b, c], cfg) == Do(Do(Do(s, a, cfg), b, cfg), c, cfg)
  {
    assert [a, b, c][1..] == [b, c] && [b, c][1..] == [c] && [c][1..] == [];
    var s1 := Do(s, a, cfg);
    var s2 := Do(s1, b, cfg);
    var s3 := Do(s2, c, cfg);
    assert ValidRun(s3, [c][1..], cfg) && End(s3, [c][1..], cfg) == s3;
    assert ValidRun(s2, [c], cfg) && End(s2, [c], cfg) == Do(s2, c, cfg);
    assert ValidRun(s1, [b, c], cfg) && End(s1, [b, c], cfg) == Do(s2, c, cfg);
  }
}
