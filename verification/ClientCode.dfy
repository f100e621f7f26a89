/** The client's loops over a clock: waiting for a daemon to become ready, waiting for one to
    go away, and a request with its single retry. */
module ClientCode {
  import opened Wrappers

  const MS := 1_000_000
  /** Duration::MAX in nanoseconds. */
  const DURATION_MAX := 0xffff_ffff_ffff_ffff * 1_000_000_000 + 999_999_999

  type Duration = d: nat | d <= DURATION_MAX

  datatype IoKind = NotFound | ConnectionRefused | ConnectionAborted | NotConnected | OtherKind(code: nat)

  datatype ClientError =
    | Io(kind: IoKind)
    | BadFrame
    | DaemonReturnedError(message: bytes)
    | UnexpectedFrameKind
    | ReadyTimeout
    | ShutdownTimeout

  /** matches_recoverable_connect_error */
  predicate Recoverable(kind: IoKind) {
    kind == NotFound || kind == ConnectionRefused || kind == ConnectionAborted || kind == NotConnected
  }

  /** can_attempt_recovery */
  predicate CanAttemptRecovery(e: ClientError) {
    e.Io? && Recoverable(e.kind)
  }

  datatype AutoStart = AutoStart(readyTimeout: Duration, initialBackoff: Duration, maxBackoff: Duration)

  function Min(a: nat, b: nat): nat { if a < b then a else b }

  function Pow2(k: nat): nat { if k == 0 then 1 else 2 * Pow2(k - 1) }

  /** Duration::saturating_mul(2) */
  function SaturatingDouble(d: Duration): Duration {
    if 2 * d <= DURATION_MAX then 2 * d else DURATION_MAX
  }

  /** The k-th sleep: the first is the initial backoff even if that exceeds the maximum. */
  function Backoff(cfg: AutoStart, k: nat): nat {
    if k == 0 then cfg.initialBackoff else Min(Pow2(k) * cfg.initialBackoff, cfg.maxBackoff)
  }

  /** Doubling with saturation and then taking the minimum steps from one backoff to the next. */
  lemma BackoffStep(cfg: AutoStart, k: nat)
    requires Backoff(cfg, k) <= DURATION_MAX
    ensures Min(SaturatingDouble(Backoff(cfg, k)), cfg.maxBackoff) == Backoff(cfg, k + 1)
  {
    var b := Pow2(k) * cfg.initialBackoff;
    assert Pow2(k + 1) * cfg.initialBackoff == 2 * b;
  }

  // ---- The world as the client sees it ------------------------------------

  /** Clock, daemon and connection attempts. A ping or check takes between callMin and callMax,
      and a sleep is at most lateness too long. The ghost fields record the calls and what came
      back. */
  class Surroundings {
    var now: nat
    const callMin: nat
    const callMax: nat
    const lateness: nat
    ghost var sleeps: seq<nat>
    ghost var pings: seq<Result<(), ClientError>>
    ghost var checks: seq<Result<bool, ClientError>>
    ghost var sends: seq<Result<bytes, ClientError>>
    ghost var probes: seq<Result<bool, ClientError>>
    ghost var spawns: seq<Result<(), ClientError>>

    constructor (now: nat, callMin: nat, callMax: nat, lateness: nat)
      requires callMin <= callMax
      ensures this.now == now && this.callMin == callMin && this.callMax == callMax && this.lateness == lateness
      ensures Fresh()
    {
      this.now, this.callMin, this.callMax, this.lateness := now, callMin, callMax, lateness;
      sleeps, pings, checks, sends, probes, spawns := [], [], [], [], [], [];
    }

    ghost predicate Fresh()
      reads this
    {
      callMin <= callMax && sleeps == [] && pings == [] && checks == [] && sends == [] && probes == [] && spawns == []
    }

    method Pass(atLeast: nat, slack: nat)
      modifies this`now
      ensures old(now) + atLeast <= now <= old(now) + atLeast + slack
    {
      var late: nat :| late <= slack by { assert 0 <= slack; }
      now := now + atLeast + late;
    }

    method SomeError() returns (e: ClientError)
      ensures e.Io? || e == BadFrame || e == UnexpectedFrameKind || e.DaemonReturnedError?
    {
      if * { e := Io(NotFound); } else if * { e := Io(ConnectionRefused); } else if * { e := Io(ConnectionAborted); }
      else if * { e := Io(NotConnected); } else if * { e := BadFrame; } else if * { e := UnexpectedFrameKind; }
      else if * { var m: bytes :| true; e := DaemonReturnedError(m); }
      else { var code: nat :| true; e := Io(OtherKind(code)); }
    }

    /** try_ping_once */
    method TryPingOnce() returns (r: Result<(), ClientError>)
      requires callMin <= callMax
      modifies this`now, this`pings
      ensures old(now) + callMin <= now <= old(now) + callMax
      ensures pings == old(pings) + [r] && (r.Err? ==> r.error != ReadyTimeout)
    {
      Pass(callMin, callMax - callMin);
      if * {
        r := Ok(());
      } else {
        var e := SomeError();
        r := Err(e);
      }
      pings := pings + [r];
    }

    /** shutdown_complete */
    method ShutdownComplete() returns (r: Result<bool, ClientError>)
      requires callMin <= callMax
      modifies this`now, this`checks
      ensures old(now) + callMin <= now <= old(now) + callMax
      ensures checks == old(checks) + [r] && (r.Err? ==> r.error != ShutdownTimeout)
    {
      Pass(callMin, callMax - callMin);
      r := SomeBool();
      checks := checks + [r];
    }

    method SomeBool() returns (r: Result<bool, ClientError>)
      ensures r.Err? ==>
                r.error.Io? || r.error == BadFrame || r.error == UnexpectedFrameKind || r.error.DaemonReturnedError?
    {
      if * { return Ok(true); } else if * { return Ok(false); }
      var e := SomeError();
      return Err(e);
    }

    /** send_request_once */
    method SendRequestOnce(payload: bytes) returns (r: Result<bytes, ClientError>)
      modifies this`now, this`sends
      ensures sends == old(sends) + [r]
    {
      Pass(0, callMax);
      if * {
        var response: bytes :| true;
        r := Ok(response);
      } else {
        var e := SomeError();
        r := Err(e);
      }
      sends := sends + [r];
    }

    /** Whether the pid file names a running process. */
    method PidAlive() returns (r: Result<bool, ClientError>)
      modifies this`probes
      ensures probes == old(probes) + [r]
    {
      r := SomeBool();
      probes := probes + [r];
    }

    method SpawnDetached() returns (r: Result<(), ClientError>)
      modifies this`spawns
      ensures spawns == old(spawns) + [r]
    {
      if * {
        r := Ok(());
      } else {
        var e := SomeError();
        r := Err(e);
      }
      spawns := spawns + [r];
    }

    method Sleep(d: nat)
      modifies this`now, this`sleeps
      ensures old(now) + d <= now <= old(now) + d + lateness
      ensures sleeps == old(sleeps) + [d]
    {
      Pass(d, lateness);
      sleeps := sleeps + [d];
    }
  }

  // ---- Loops --------------------------------------------------------------

  /** The condition under which waiting makes progress: time passes in every round. */
  ghost predicate Advances(world: Surroundings, cfg: AutoStart) {
    world.callMin > 0 || (cfg.initialBackoff > 0 && cfg.maxBackoff > 0)
  }

  /** A daemon is pinged until a ping succeeds, fails for another reason than that nobody is
      there, or fails after the deadline; between two pings there is one sleep, the k-th as long
      as the k-th backoff. */
  ghost predicate Waited(pings: seq<Result<(), ClientError>>, sleeps: seq<nat>, cfg: AutoStart,
                         r: Result<(), ClientError>)
  {
    && |pings| == |sleeps| + 1
    && (forall k | 0 <= k < |sleeps| :: sleeps[k] == Backoff(cfg, k))
    && (forall k | 0 <= k < |sleeps| :: pings[k].Err? && CanAttemptRecovery(pings[k].error))
    && var last := pings[|sleeps|];
       if last.Ok? then r.Ok?
       else r == Err(if CanAttemptRecovery(last.error) then ReadyTimeout else last.error)
  }

  /** wait_for_ready: the sleeps follow the backoff schedule; ReadyTimeout is reported at or
      after the deadline, and late by at most one sleep and one ping. */
  method WaitForReady(world: Surroundings, cfg: AutoStart) returns (r: Result<(), ClientError>)
    requires Advances(world, cfg) && world.callMin <= world.callMax && world.sleeps == [] && world.pings == []
    modifies world`now, world`sleeps, world`pings
    ensures Waited(world.pings, world.sleeps, cfg, r)
    ensures var deadline := old(world.now) + cfg.readyTimeout;
      && (r == Err(ReadyTimeout) ==> deadline <= world.now)
      && world.now <= deadline + Max(cfg.initialBackoff, cfg.maxBackoff) + world.lateness + world.callMax
    ensures old(world.now) <= world.now
  {
    var deadline := world.now + cfg.readyTimeout;
    var backoff: Duration := cfg.initialBackoff;
    ghost var longest := Max(cfg.initialBackoff, cfg.maxBackoff);
    while true
      invariant old(world.now) <= world.now <= deadline + longest + world.lateness
      invariant backoff == Backoff(cfg, |world.sleeps|) && backoff <= longest
      invariant world.callMin > 0 || backoff > 0
      invariant |world.pings| == |world.sleeps|
      invariant forall k | 0 <= k < |world.sleeps| :: world.sleeps[k] == Backoff(cfg, k)
      invariant forall k | 0 <= k < |world.pings| :: world.pings[k].Err? && CanAttemptRecovery(world.pings[k].error)
      decreases Max(deadline, world.now) - world.now, if world.now < deadline then 1 else 0
    {
      var ping := world.TryPingOnce();
      if ping.Ok? { return Ok(()); }
      if CanAttemptRecovery(ping.error) && world.now < deadline {
        world.Sleep(backoff);
        BackoffStep(cfg, |world.sleeps| - 1);
        backoff := Min(SaturatingDouble(backoff), cfg.maxBackoff);
      } else if CanAttemptRecovery(ping.error) {
        return Err(ReadyTimeout);
      } else {
        return Err(ping.error);
      }
    }
  }

  /** wait_for_shutdown: polls every 20 ms until a check says the daemon is gone or fails; the
      timeout is reported at or after the deadline and late by at most one sleep and one check. */
  method WaitForShutdown(world: Surroundings, timeout: Duration) returns (r: Result<(), ClientError>)
    requires world.callMin <= world.callMax && world.checks == []
    modifies world`now, world`sleeps, world`checks
    ensures var n := |world.checks|;
      && n > 0 && (forall k | 0 <= k < n - 1 :: world.checks[k] == Ok(false))
      && r == match world.checks[n - 1]
              case Ok(true) => Ok(())
              case Ok(false) => Err(ShutdownTimeout)
              case Err(e) => Err(e)
    ensures r == Err(ShutdownTimeout) ==> old(world.now) + timeout <= world.now
    ensures old(world.now) <= world.now <= old(world.now) + timeout + 20 * MS + world.lateness + world.callMax
    ensures |world.sleeps| + 1 == |old(world.sleeps)| + |world.checks|
    ensures forall k | |old(world.sleeps)| <= k < |world.sleeps| :: world.sleeps[k] == 20 * MS
  {
    var deadline := world.now + timeout;
    while true
      invariant old(world.now) <= world.now <= deadline + 20 * MS + world.lateness
      invariant forall k | 0 <= k < |world.checks| :: world.checks[k] == Ok(false)
      invariant |world.sleeps| == |old(world.sleeps)| + |world.checks|
      invariant forall k | |old(world.sleeps)| <= k < |world.sleeps| :: world.sleeps[k] == 20 * MS
      decreases Max(deadline, world.now) - world.now, if world.now < deadline then 1 else 0
    {
      var complete := world.ShutdownComplete();
      if complete.Err? { return Err(complete.error); }
      if complete.value { return Ok(()); }
      if world.now >= deadline { return Err(ShutdownTimeout); }
      world.Sleep(20 * MS);
    }
  }

  /** What recovery amounts to. Without auto-start, or for an error that does not mean that no
      daemon was reached, nothing is done and the error stands. Otherwise the pid file is probed
      once, a daemon is started exactly if it names no live process, and then one is waited for. */
  ghost predicate Recovered(probes: seq<Result<bool, ClientError>>, spawns: seq<Result<(), ClientError>>,
                            pings: seq<Result<(), ClientError>>, sleeps: seq<nat>,
                            autoStart: Option<AutoStart>, e: ClientError, r: Result<(), ClientError>) {
    if autoStart.None? || !CanAttemptRecovery(e) then
      r == Err(e) && probes == [] && spawns == [] && pings == []
    else
      && |probes| == 1
      && (if probes[0] == Ok(false) then |spawns| == 1 else spawns == [])
      && (probes[0].Err? ==> r == Err(probes[0].error) && pings == [])
      && (spawns != [] && spawns[0].Err? ==> r == spawns[0] && pings == [])
      && (probes[0].Ok? && (spawns == [] || spawns[0].Ok?) ==> Waited(pings, sleeps, autoStart.value, r))
  }

  /** recover_if_needed */
  method RecoverIfNeeded(world: Surroundings, autoStart: Option<AutoStart>, e: ClientError)
    returns (r: Result<(), ClientError>)
    requires autoStart.Some? ==> Advances(world, autoStart.value)
    requires world.callMin <= world.callMax && world.sleeps == [] && world.pings == [] && world.probes == []
        && world.spawns == []
    modifies world`now, world`sleeps, world`spawns, world`pings, world`probes
    ensures Recovered(world.probes, world.spawns, world.pings, world.sleeps, autoStart, e, r)
  {
    if autoStart.None? { return Err(e); }
    if !CanAttemptRecovery(e) { return Err(e); }
    var alive := world.PidAlive();
    if alive.Err? { return Err(alive.error); }
    if !alive.value {
      var spawned := world.SpawnDetached();
      if spawned.Err? { return spawned; }
    }
    r := WaitForReady(world, autoStart.value);
  }

  /** request: one send; if that fails one recovery, and a second send exactly if the recovery
      succeeded, whose result is then the result. So a second send means that the first failed
      with one of the four recoverable kinds and that a ping then got through; and a daemon is
      started at most once, and only if the pid file named no live process. */
  method Request(world: Surroundings, autoStart: Option<AutoStart>, payload: bytes)
    returns (r: Result<bytes, ClientError>)
    requires autoStart.Some? ==> Advances(world, autoStart.value)
    requires world.Fresh()
    modifies world
    ensures 1 <= |world.sends| <= 2
    ensures world.sends[0].Ok? ==> |world.sends| == 1 && r == world.sends[0] && world.probes == [] && world.spawns == []
    ensures world.sends[0].Err? ==>
      exists recovery ::
        Recovered(world.probes, world.spawns, world.pings, world.sleeps, autoStart, world.sends[0].error, recovery)
        && (if recovery.Ok? then |world.sends| == 2 && r == world.sends[1]
            else |world.sends| == 1 && r == Err(recovery.error))
    ensures |world.sends| == 2 ==>
      autoStart.Some? && world.sends[0].Err? && CanAttemptRecovery(world.sends[0].error)
      && world.pings != [] && world.pings[|world.pings| - 1].Ok?
    ensures |world.spawns| <= 1 && (world.spawns != [] ==> world.probes == [Ok(false)])
    ensures autoStart.Some? ==>
      (world.probes != [] <==>
         world.sends[0] in {Err(Io(NotFound)), Err(Io(ConnectionRefused)), Err(Io(ConnectionAborted)),
             Err(Io(NotConnected))})
  {
    r := world.SendRequestOnce(payload);
    if r.Ok? { return; }
    var recovered := RecoverIfNeeded(world, autoStart, r.error);
    if recovered.Err? { return Err(recovered.error); }
    r := world.SendRequestOnce(payload);
  }
}
