/** The code of the pid guard, of bind and cleanup, of run and of the client's shutdown, as
    methods that perform one file or socket operation at a time while other processes act in
    between. Every execution of them is a run of the Ownership state machine, so the theorems
    about runs are theorems about this code. */
module DaemonCode {
  import opened Wrappers
  import opened Ownership
  import opened OwnershipTheorems
  import opened Accounts
  import opened SoloRuns

  // ---- The machine --------------------------------------------------------

  /** The machine all processes share. schedule holds what the other processes do between two
      operations of the code below, faults which of its operations fail. The trails are what
      each participant has done so far; methods also return what they did themselves. */
  class Host {
    var s: State
    var schedule: seq<seq<Step>>
    var faults: seq<bool>
    ghost const start: State
    ghost var steps: seq<Step>
    ghost var trails: imap<Actor, seq<Taken>>

    ghost predicate Valid()
      reads this`s, this`steps, this`trails
    {
      && Init(start) && Leads(start, steps, s)
      && (forall who :: who in trails)
      && forall who {:trigger Trail(who, start, steps)} :: trails[who] == Trail(who, start, steps)
    }

    constructor (start: State, schedule: seq<seq<Step>>, faults: seq<bool>)
      requires Init(start)
      ensures Valid() && s == this.start == start && steps == []
    {
      this.start, s, steps := start, start, [];
      this.schedule, this.faults := schedule, faults;
      trails := imap who: Actor {:trigger Trail(who, start, [])} :: [];
    }

    ghost predicate SameInstance(me: Id, before: State)
      reads this`s
    {
      me in s.daemons && me in before.daemons && s.daemons[me].stopped == before.daemons[me].stopped
    }

    /** Daemon me has since taken the steps own. */
    ghost predicate Grew(me: Id, before: imap<Actor, seq<Taken>>, own: seq<Taken>)
      reads this`trails
    {
      GrewBy(TheDaemon(me), before, trails, own)
    }

    /** Nobody else will act, and no operation fails. */
    predicate Alone()
      reads this`schedule, this`faults
    {
      schedule == [] && faults == []
    }

    ghost function Now(): Mark
      reads this`trails, this`schedule, this`faults, this`steps
    {
      Mark(trails, Alone(), steps)
    }

    function PhaseOf(me: Id): Phase
      reads this`s
      requires me in s.daemons
    {
      s.daemons[me].phase
    }

    /** What daemon me did if it was alone: only its own operations, all successful. */
    lemma WasAlone(me: Id, s0: State, m: Mark, own: seq<Taken>)
      requires Valid() && Leads(start, m.steps, s0) && Did(me, m, Now(), own) && m.alone
      requires m.trails[TheDaemon(me)] == Trail(TheDaemon(me), start, m.steps)
      ensures s == Solo(s0, me, |own|) && own == SoloTrail(s0, me, |own|)
    {
      GoesOnAlone(start, m.steps, s0, me, |own|, s);
      var before := m.trails[TheDaemon(me)];
      assert Trail(TheDaemon(me), start, steps) == trails[TheDaemon(me)];
      assert (before + own)[|before|..] == own;
      assert (before + SoloTrail(s0, me, |own|))[|before|..] == SoloTrail(s0, me, |own|);
    }

    method Take(step: Step)
      requires Valid() && Enabled(s, step)
      modifies this`s, this`steps, this`trails
      ensures Valid() && s == Apply(old(s), step) && steps == old(steps) + [step]
      ensures forall who :: who in trails &&
                trails[who] == old(trails)[who] + (if ActsFor(who, step) then [Taken(old(s), step)] else [])
    {
      Extend(start, steps, step);
      ghost var was, more := trails, steps + [step];
      forall who ensures Trail(who, start, more) == was[who] + (if ActsFor(who, step) then [Taken(s, step)] else []) {
        assert was[who] == Trail(who, start, steps);
        TrailSnoc(who, start, steps, step);
      }
      trails := imap who: Actor :: was[who] + (if ActsFor(who, step) then [Taken(s, step)] else []);
      s := Apply(s, step);
      steps := more;
    }

    /** One operation of daemon me. */
    method Do(me: Id, ok: bool) returns (ghost own: Taken)
      requires Valid() && me in s.daemons
      modifies this`s, this`steps, this`trails
      ensures Valid() && s == ActStep(old(s), me, ok) && steps == old(steps) + [Act(me, ok)]
      ensures Grew(me, old(trails), [own]) && own.before == old(s) && Made(own, me, old(PhaseOf(me)), ok)
    {
      own := Taken(s, Act(me, ok));
      Take(Act(me, ok));
    }

    /** The same, and nobody else acted if nobody acted before it. */
    method DoNext(me: Id, ok: bool) returns (ghost own: Taken)
      requires Valid() && me in s.daemons
      modifies this`s, this`steps, this`trails
      ensures Valid() && s == ActStep(old(s), me, ok)
      ensures Did(me, Mark(old(trails), old(Alone()) && ok, old(steps)), Now(), [own])
      ensures own.before == old(s) && Made(own, me, old(PhaseOf(me)), ok)
    {
      own := Do(me, ok);
      assert ok ==> [Act(me, ok)] == Acts(me, 1);
    }

    method Ok() returns (ok: bool)
      modifies this`faults
      ensures old(faults) == [] ==> ok && faults == []
    {
      ok := faults == [] || !faults[0];
      if faults != [] { faults := faults[1..]; }
    }

    /** A step of somebody else that leaves the process of daemon me running. */
    predicate Foreign(me: Id, step: Step)
      reads this`s
      requires me in s.daemons
    {
      Enabled(s, step) && !ActsFor(TheDaemon(me), step) && !(step.ProcessDies? && step.pid == s.daemons[me].pid)
    }

    lemma ForeignKeeps(me: Id, step: Step)
      requires me in s.daemons && Foreign(me, step)
      ensures me in Apply(s, step).daemons && Apply(s, step).daemons[me] == s.daemons[me]
    {
      if step.Act? && !Claiming(s.daemons[step.daemon].phase) { ServeStepShape(s, step.daemon, step.ok); }
    }

    /** Between two operations of daemon me the others do whatever the schedule says. */
    method Others(me: Id)
      requires Valid() && me in s.daemons
      modifies this`s, this`steps, this`trails, this`schedule
      ensures Valid() && me in s.daemons && s.daemons[me] == old(s.daemons[me])
      ensures TheDaemon(me) in old(trails) && trails[TheDaemon(me)] == old(trails)[TheDaemon(me)]
      ensures old(schedule) == [] ==> schedule == [] && steps == old(steps)
    {
      if schedule == [] { return; }
      var batch := schedule[0];
      schedule := schedule[1..];
      for n := 0 to |batch|
        invariant Valid() && me in s.daemons && s.daemons[me] == old(s.daemons[me])
        invariant TheDaemon(me) in old(trails) && trails[TheDaemon(me)] == old(trails)[TheDaemon(me)]
      {
        if Foreign(me, batch[n]) {
          ForeignKeeps(me, batch[n]);
          Take(batch[n]);
        }
      }
    }

    // ---- Operations on the pid file ---------------------------------------
    // Before each of them the others act.

    method PidPathExists(me: Id) returns (b: bool, ghost own: Taken)
      requires Valid() && me in s.daemons && PhaseOf(me).ClaimExists?
      modifies this`s, this`steps, this`trails, this`schedule, this`faults
      ensures Valid() && Did(me, old(Now()), Now(), [own])
          && Made(own, me, old(PhaseOf(me)), own.step.Act? && own.step.ok) && SameInstance(me, old(s))
      ensures PhaseOf(me) == if b then ClaimRead(old(PhaseOf(me)).attempt) else ClaimCreate(old(PhaseOf(me)).attempt)
    {
      Others(me);
      var ok := Ok();
      b := ok && s.pidFile.Some?;
      own := DoNext(me, ok);
    }

    method ReadForClaim(me: Id) returns (r: Result<Option<Pid>, ClaimError>, ghost own: Taken)
      requires Valid() && me in s.daemons && PhaseOf(me).ClaimRead?
      modifies this`s, this`steps, this`trails, this`schedule, this`faults
      ensures Valid() && Did(me, old(Now()), Now(), [own]) && SameInstance(me, old(s))
      ensures Made(own, me, old(PhaseOf(me)), r.Ok?) && (r.Ok? ==> r.value == PidIn(own.before))
      ensures match r
        case Err(e) => PhaseOf(me) == Finished && e == ClaimIo
        case Ok(None) => PhaseOf(me).ClaimUnlink? && PhaseOf(me).attempt == old(PhaseOf(me)).attempt
        case Ok(Some(pid)) => PhaseOf(me).ClaimProbe? && PhaseOf(me).attempt == old(PhaseOf(me)).attempt
                              && PhaseOf(me).seen.Saw? && PhaseOf(me).seen.text == Names(pid)
    {
      Others(me);
      var ok := Ok();
      r := if ok then Result.Ok(PidIn(s)) else Err(ClaimIo);
      own := DoNext(me, ok);
    }

    method ProbeForClaim(me: Id, pid: Pid) returns (running: bool, ghost own: Taken)
      requires Valid() && me in s.daemons && PhaseOf(me).ClaimProbe?
      requires PhaseOf(me).seen.Saw? && PhaseOf(me).seen.text == Names(pid)
      modifies this`s, this`steps, this`trails, this`schedule, this`faults
      ensures Valid() && Did(me, old(Now()), Now(), [own]) && SameInstance(me, old(s))
      ensures Made(own, me, old(PhaseOf(me)), true) && running == (pid in own.before.alive)
      ensures PhaseOf(me) == if running then Finished else ClaimUnlink(old(PhaseOf(me)).attempt, old(PhaseOf(me)).seen)
    {
      Others(me);
      running := pid in s.alive;
      own := DoNext(me, true);
    }

    method RemovePidFile(me: Id) returns (ok: bool, ghost own: Taken)
      requires Valid() && me in s.daemons && PhaseOf(me).ClaimUnlink?
      modifies this`s, this`steps, this`trails, this`schedule, this`faults
      ensures Valid() && Did(me, old(Now()), Now(), [own]) && SameInstance(me, old(s))
      ensures Made(own, me, old(PhaseOf(me)), ok) && (ok ==> s.pidFile.None?)
      ensures PhaseOf(me) == if ok then ClaimCreate(old(PhaseOf(me)).attempt) else Finished
    {
      Others(me);
      ok := Ok();
      own := DoNext(me, ok);
    }

    /** open with create_new: Ok(false) if the file exists already. */
    method CreatePidFile(me: Id) returns (r: Result<bool, ClaimError>, ghost own: Taken)
      requires Valid() && me in s.daemons && PhaseOf(me).ClaimCreate?
      modifies this`s, this`steps, this`trails, this`schedule, this`faults
      ensures Valid() && Did(me, old(Now()), Now(), [own]) && SameInstance(me, old(s))
      ensures Made(own, me, old(PhaseOf(me)), r.Ok?) && (r.Ok? ==> r.value == own.before.pidFile.None?)
      ensures match r
        case Err(e) => PhaseOf(me) == Finished && e == ClaimIo
        case Ok(true) => PhaseOf(me) == ClaimWrite
        case Ok(false) => PhaseOf(me) == AfterExisting(old(PhaseOf(me)).attempt)
    {
      Others(me);
      var ok := Ok();
      r := if ok then Result.Ok(s.pidFile.None?) else Err(ClaimIo);
      own := DoNext(me, ok);
    }

    method WritePid(me: Id) returns (ok: bool, ghost own: Taken)
      requires Valid() && me in s.daemons && PhaseOf(me) == ClaimWrite
      modifies this`s, this`steps, this`trails, this`schedule, this`faults
      ensures Valid() && Did(me, old(Now()), Now(), [own]) && SameInstance(me, old(s))
      ensures Made(own, me, ClaimWrite, ok)
      ensures PhaseOf(me) == if ok then Starting else Finished
    {
      Others(me);
      ok := Ok();
      own := DoNext(me, ok);
    }

    // ---- Operations of bind -------------------------------------------------

    method SocketPathExists(me: Id) returns (present: bool, ghost own: Taken)
      requires Valid() && me in s.daemons && PhaseOf(me) == BindExists
      modifies this`s, this`steps, this`trails, this`schedule, this`faults
      ensures Valid() && Did(me, old(Now()), Now(), [own]) && SameInstance(me, old(s))
      ensures PhaseAt(own) == BindExists && present == (Well(own) && own.before.socket.Some?)
      ensures PhaseOf(me) == if present then BindStat else BindCreate
    {
      Others(me);
      var ok := Ok();
      present := ok && s.socket.Some?;
      ServeNext(s, me, ok);
      own := DoNext(me, ok);
    }

    /** symlink_metadata: whether there is a socket at the path. */
    method StatSocket(me: Id) returns (r: Result<bool, BindError>, ghost own: Taken)
      requires Valid() && me in s.daemons && PhaseOf(me) == BindStat
      modifies this`s, this`steps, this`trails, this`schedule, this`faults
      ensures Valid() && Did(me, old(Now()), Now(), [own]) && SameInstance(me, old(s))
      ensures PhaseAt(own) == BindStat
      ensures r == if Well(own) then Result.Ok(IsSocket(own.before)) else Err(BindIo)
      ensures PhaseOf(me) == if r == Result.Ok(true) then BindProbe else Stopping
    {
      Others(me);
      var ok := Ok();
      r := if ok then Result.Ok(IsSocket(s)) else Err(BindIo);
      ServeNext(s, me, ok);
      own := DoNext(me, ok);
    }

    /** connect: whether a listener answers; the error is any other than that nobody does. */
    method ConnectSocket(me: Id) returns (r: Result<bool, BindError>, ghost own: Taken)
      requires Valid() && me in s.daemons && PhaseOf(me) == BindProbe
      modifies this`s, this`steps, this`trails, this`schedule, this`faults
      ensures Valid() && Did(me, old(Now()), Now(), [own]) && SameInstance(me, old(s))
      ensures PhaseAt(own) == BindProbe
      ensures r == if Well(own) then Result.Ok(Answers(own.before)) else Err(BindIo)
      ensures PhaseOf(me) == if r == Result.Ok(false) then BindUnlink else Stopping
    {
      Others(me);
      var ok := Ok();
      r := if ok then Result.Ok(Answers(s)) else Err(BindIo);
      ServeNext(s, me, ok);
      own := DoNext(me, ok);
    }

    method RemoveSocket(me: Id) returns (removed: bool, ghost own: Taken)
      requires Valid() && me in s.daemons && PhaseOf(me) == BindUnlink
      modifies this`s, this`steps, this`trails, this`schedule, this`faults
      ensures Valid() && Did(me, old(Now()), Now(), [own]) && SameInstance(me, old(s))
      ensures PhaseAt(own) == BindUnlink && removed == (Well(own) && own.before.socket.Some?)
      ensures removed ==> s.socket.None?
      ensures PhaseOf(me) == if removed then BindCreate else Stopping
    {
      Others(me);
      var ok := Ok();
      removed := ok && s.socket.Some?;
      ServeNext(s, me, ok);
      own := DoNext(me, ok);
    }

    /** The bind of the socket to its path, which fails if there is anything. */
    method BindPath(me: Id) returns (bound: bool, ghost own: Taken)
      requires Valid() && me in s.daemons && PhaseOf(me) == BindCreate
      modifies this`s, this`steps, this`trails, this`schedule, this`faults
      ensures Valid() && Did(me, old(Now()), Now(), [own]) && SameInstance(me, old(s))
      ensures PhaseAt(own) == BindCreate && bound == (Well(own) && own.before.socket.None?)
      ensures bound ==> s.socket == Some(Socket(Some(me)))
      ensures PhaseOf(me) == if bound then BindListen else Stopping
    {
      Others(me);
      var ok := Ok();
      bound := ok && s.socket.None?;
      ServeNext(s, me, ok);
      own := DoNext(me, ok);
    }

    // ---- Operations of the loop and of the way down -------------------------

    /** One such operation; NextOf says where it leads. */
    method Operate(me: Id) returns (ok: bool, ghost own: Taken)
      requires Valid() && me in s.daemons && !Claiming(PhaseOf(me)) && !Dormant(PhaseOf(me))
      modifies this`s, this`steps, this`trails, this`schedule, this`faults
      ensures Valid() && Did(me, old(Now()), Now(), [own]) && me in s.daemons
      ensures Made(own, me, old(PhaseOf(me)), ok) && PhaseOf(me) == NextOf(own.before, old(PhaseOf(me)), ok)
      ensures s.daemons[me].stopped == (old(s.daemons[me].stopped) || old(PhaseOf(me)) == Stopping)
    {
      Others(me);
      ok := Ok();
      ServeNext(s, me, ok);
      own := DoNext(me, ok);
    }

    // ---- PidGuard ---------------------------------------------------------

    /** PidGuard::claim */
    method Claim(me: Id) returns (r: Result<(), ClaimError>, ghost own: seq<Taken>)
      requires Valid() && me in s.daemons && PhaseOf(me) == ClaimExists(0)
      modifies this
      ensures Valid() && Did(me, old(Now()), Now(), own) && SameInstance(me, old(s)) && AllClaiming(own)
      ensures PhaseOf(me) == if r.Ok? then Starting else Finished
      ensures ClaimEnds(own, r) && Lost(own) <= 3 && |own| <= 16
      ensures r.Ok? && StealFree(start, steps) ==>
                s.pidFile == Some(PidFile(s.daemons[me].file, Names(s.daemons[me].pid)))
      ensures old(Alone()) ==> ClaimedAlone(old(s), s, me)
    {
      ghost var s0, m := s, Now();
      assert Trail(TheDaemon(me), start, steps) == trails[TheDaemon(me)];
      r, own := Attempts(me);
      if m.alone {
        WasAlone(me, s0, m, own);
        TrailIsClaim(s0, me, |own|);
        SoloClaim(s0, me, |own|);
      }
    }

    /** The loop of claim. */
    method Attempts(me: Id) returns (r: Result<(), ClaimError>, ghost own: seq<Taken>)
      requires Valid() && me in s.daemons && PhaseOf(me) == ClaimExists(0)
      modifies this
      ensures Valid() && Did(me, old(Now()), Now(), own) && SameInstance(me, old(s)) && AllClaiming(own)
      ensures PhaseOf(me) == if r.Ok? then Starting else Finished
      ensures ClaimEnds(own, r) && Lost(own) <= 3 && |own| <= 16
      ensures r.Ok? && StealFree(start, steps) ==>
                s.pidFile == Some(PidFile(s.daemons[me].file, Names(s.daemons[me].pid)))
    {
      var attempt := 0;
      own := [];
      DidNothing(me, Now());
      while attempt < 3
        invariant Valid() && Did(me, old(Now()), Now(), own) && SameInstance(me, old(s)) && AllClaiming(own)
        invariant attempt <= 3 && PhaseOf(me) == if attempt < 3 then ClaimExists(attempt) else ClaimGiveUp
        invariant Lost(own) == attempt && |own| <= 5 * attempt
      {
        ghost var t := Now();
        var claimed;
        ghost var more;
        claimed, more := Attempt(me);
        DidOn(me, old(Now()), t, Now(), own, more);
        ClaimingAppend(own, more);
        LostAppend(own, more);
        if claimed != Result.Ok(false) { ClaimEndsOn(own, more, claimed); }
        own := own + more;
        if claimed.Err? { return Err(claimed.error), own; }
        if claimed.value {
          FileNamesHolder(me);
          return Result.Ok(()), own;
        }
        attempt := attempt + 1;
      }
      ghost var t := Now();
      ghost var last;
      r, last := GiveUp(me);
      DidOn(me, old(Now()), t, Now(), own, [last]);
      GivenUp(own, last, r);
      own := own + [last];
    }

    /** After three attempts the file is read once more, for the error. */
    method GiveUp(me: Id) returns (r: Result<(), ClaimError>, ghost own: Taken)
      requires Valid() && me in s.daemons && PhaseOf(me) == ClaimGiveUp
      modifies this
      ensures Valid() && Did(me, old(Now()), Now(), [own]) && SameInstance(me, old(s))
      ensures Made(own, me, ClaimGiveUp, own.step.Act? && own.step.ok) && PhaseOf(me) == Finished
      ensures r == Err(if own.step.ok then AlreadyRunning(PidIn(own.before)) else ClaimIo)
    {
      Others(me);
      var ok := Ok();
      r := Err(if ok then AlreadyRunning(PidIn(s)) else ClaimIo);
      own := DoNext(me, ok);
    }

    /** One of the three attempts; Ok(false) if the file was there again. */
    method Attempt(me: Id) returns (r: Result<bool, ClaimError>, ghost own: seq<Taken>)
      requires Valid() && me in s.daemons && PhaseOf(me).ClaimExists?
      modifies this
      ensures Valid() && Did(me, old(Now()), Now(), own) && SameInstance(me, old(s)) && AllClaiming(own)
      ensures PhaseOf(me) == AfterAttempt(old(PhaseOf(me)).attempt, r)
      ensures AttemptEnds(own, r)
      ensures if r == Result.Ok(false) then Lost(own) == 1 && |own| <= 5 else Lost(own) == 0 && |own| <= 6
    {
      ghost var more;
      var cleared;
      cleared, own := ClearPidPath(me);
      if cleared.Err? { return Err(cleared.error), own; }
      ghost var t := Now();
      r, more := CreateAndWrite(me);
      DidOn(me, old(Now()), t, Now(), own, more);
      ClaimingAppend(own, more);
      LostAppend(own, more);
      AttemptEndsOn(own, more, r);
      own := own + more;
    }

    /** The exists branch of an attempt, if there is a file. */
    method ClearPidPath(me: Id) returns (r: Result<(), ClaimError>, ghost own: seq<Taken>)
      requires Valid() && me in s.daemons && PhaseOf(me).ClaimExists?
      modifies this
      ensures Valid() && Did(me, old(Now()), Now(), own) && SameInstance(me, old(s)) && AllClaiming(own)
      ensures PhaseOf(me) == if r.Ok? then ClaimCreate(old(PhaseOf(me)).attempt) else Finished
      ensures Lost(own) == 0 && |own| <= 4 && (r.Err? ==> AttemptEnds(own, Err(r.error)))
    {
      ghost var own1, more;
      var present;
      present, own1 := PidPathExists(me);
      own := [own1];
      LostOne(own1);
      if !present { return Result.Ok(()), own; }
      ghost var t := Now();
      r, more := ClearStale(me);
      DidOn(me, old(Now()), t, Now(), own, more);
      ClaimingAppend(own, more);
      ClearedLosesNone(more, r);
      LostAppend(own, more);
      if r.Err? { RefusalEnds(own1, more, r.error); }
      own := own + more;
    }

    /** The body of the exists branch: refuse if the file names a running process, else unlink. */
    method ClearStale(me: Id) returns (r: Result<(), ClaimError>, ghost own: seq<Taken>)
      requires Valid() && me in s.daemons && PhaseOf(me).ClaimRead?
      modifies this
      ensures Valid() && Did(me, old(Now()), Now(), own) && SameInstance(me, old(s)) && AllClaiming(own)
      ensures PhaseOf(me) == if r.Ok? then ClaimCreate(old(PhaseOf(me)).attempt) else Finished
      ensures ClearedOrRefused(own, r) && (r.Ok? ==> s.pidFile.None?)
    {
      ghost var own1, more;
      var read;
      read, own1 := ReadForClaim(me);
      own := [own1];
      if read.Err? {
        Refused(own1);
        return Err(read.error), own;
      }
      ghost var t := Now();
      if read.value.Some? {
        r, more := ProbeAndRemove(me, read.value.value);
        ClearedProbed(own1, more, read.value.value, r);
      } else {
        ghost var own2;
        r, own2 := RemoveStale(me);
        more := [own2];
        ClearedUnread(own1, own2, r);
      }
      DidOn(me, old(Now()), t, Now(), own, more);
      ClaimingAppend(own, more);
      own := own + more;
    }

    method ProbeAndRemove(me: Id, pid: Pid) returns (r: Result<(), ClaimError>, ghost own: seq<Taken>)
      requires Valid() && me in s.daemons && PhaseOf(me).ClaimProbe?
      requires PhaseOf(me).seen.Saw? && PhaseOf(me).seen.text == Names(pid)
      modifies this
      ensures Valid() && Did(me, old(Now()), Now(), own) && SameInstance(me, old(s)) && AllClaiming(own)
      ensures PhaseOf(me) == if r.Ok? then ClaimCreate(old(PhaseOf(me)).attempt) else Finished
      ensures ProbedAndRemoved(own, pid, r) && (r.Ok? ==> s.pidFile.None?)
    {
      ghost var own1, own2;
      var running;
      running, own1 := ProbeForClaim(me, pid);
      if running { return Err(AlreadyRunning(Some(pid))), [own1]; }
      ghost var t := Now();
      r, own2 := RemoveStale(me);
      DidOn(me, old(Now()), t, Now(), [own1], [own2]);
      own := [own1] + [own2];
    }

    method RemoveStale(me: Id) returns (r: Result<(), ClaimError>, ghost own: Taken)
      requires Valid() && me in s.daemons && PhaseOf(me).ClaimUnlink?
      modifies this
      ensures Valid() && Did(me, old(Now()), Now(), [own]) && SameInstance(me, old(s))
      ensures Removed(own, r) && (r.Ok? ==> s.pidFile.None?)
      ensures PhaseOf(me) == if r.Ok? then ClaimCreate(old(PhaseOf(me)).attempt) else Finished
    {
      var removed;
      removed, own := RemovePidFile(me);
      r := if removed then Result.Ok(()) else Err(ClaimIo);
    }

    /** open with create_new, and if that works the write of the pid. Ok(false): the file exists. */
    method CreateAndWrite(me: Id) returns (r: Result<bool, ClaimError>, ghost own: seq<Taken>)
      requires Valid() && me in s.daemons && PhaseOf(me).ClaimCreate?
      modifies this
      ensures Valid() && Did(me, old(Now()), Now(), own) && SameInstance(me, old(s)) && AllClaiming(own)
      ensures PhaseOf(me) == AfterAttempt(old(PhaseOf(me)).attempt, r)
      ensures AttemptEnds(own, r)
      ensures if r == Result.Ok(false) then Lost(own) == 1 && |own| == 1 else Lost(own) == 0 && |own| <= 2
    {
      ghost var own1, own2;
      var created;
      created, own1 := CreatePidFile(me);
      own := [own1];
      LostOne(own1);
      if created.Err? { return Err(created.error), own; }
      if !created.value { return Result.Ok(false), own; }
      ghost var t := Now();
      var written;
      written, own2 := WritePid(me);
      DidOn(me, old(Now()), t, Now(), own, [own2]);
      LostOne(own2);
      LostAppend(own, [own2]);
      own := own + [own2];
      r := if written then Result.Ok(true) else Err(ClaimIo);
    }

    lemma FileNamesHolder(me: Id)
      requires Valid() && HoldsGuard(s, me)
      ensures StealFree(start, steps) ==> s.pidFile == Some(PidFile(s.daemons[me].file, Names(s.daemons[me].pid)))
    {
      if StealFree(start, steps) { GuardExclusion(start, steps, |steps|, me); }
    }

    // ---- bind, cleanup, run -----------------------------------------------

    /** socket::bind */
    method BindSocket(me: Id) returns (r: Result<(), BindError>, ghost own: seq<Taken>)
      requires Valid() && me in s.daemons && PhaseOf(me) == BindExists
      modifies this
      ensures Valid() && Did(me, old(Now()), Now(), own) && SameInstance(me, old(s)) && BindInOrder(Phases(own))
      ensures PhaseOf(me) == if r.Ok? then Looping else Stopping
      ensures r.Ok? <==> ListensAtLast(own)
      ensures old(Alone()) ==> BoundAlone(old(s), s, me)
    {
      ghost var s0, m := s, Now();
      assert Trail(TheDaemon(me), start, steps) == trails[TheDaemon(me)];
      r, own := BindSteps(me);
      if m.alone {
        WasAlone(me, s0, m, own);
        AllBinding(own);
        TrailIsBind(s0, me, |own|);
        SoloBind(s0, me, |own|);
      }
    }

    /** The operations of bind. */
    method BindSteps(me: Id) returns (r: Result<(), BindError>, ghost own: seq<Taken>)
      requires Valid() && me in s.daemons && PhaseOf(me) == BindExists
      modifies this
      ensures Valid() && Did(me, old(Now()), Now(), own) && SameInstance(me, old(s)) && BindInOrder(Phases(own))
      ensures PhaseOf(me) == if r.Ok? then Looping else Stopping
      ensures r.Ok? <==> ListensAtLast(own)
    {
      ghost var more;
      r, own := ClearPath(me);
      if r.Err? { return; }
      ghost var t := Now();
      r, more := CreateSocket(me);
      DidOn(me, old(Now()), t, Now(), own, more);
      BindAppend(own, more, 6, 7);
      ListensOn(own, more);
      own := own + more;
    }

    /** The exists branch of bind, if there is anything at the path. */
    method ClearPath(me: Id) returns (r: Result<(), BindError>, ghost own: seq<Taken>)
      requires Valid() && me in s.daemons && PhaseOf(me) == BindExists
      modifies this
      ensures Valid() && Did(me, old(Now()), Now(), own) && SameInstance(me, old(s)) && BindUpTo(own, 5)
      ensures PhaseOf(me) == (if r.Ok? then BindCreate else Stopping) && !ListensAtLast(own)
    {
      ghost var own1, more;
      var present;
      present, own1 := SocketPathExists(me);
      own := [own1];
      BindStarts(own1);
      if !present { return Result.Ok(()), own; }
      ghost var t := Now();
      r, more := ClearStaleSocket(me);
      ClearedPart(more, r);
      DidOn(me, old(Now()), t, Now(), own, more);
      BindAppend(own, more, 3, 5);
      own := own + more;
      NotYetListening(own);
    }

    /** The probe of an existing socket path. */
    method ClearStaleSocket(me: Id) returns (r: Result<(), BindError>, ghost own: seq<Taken>)
      requires Valid() && me in s.daemons && PhaseOf(me) == BindStat
      modifies this
      ensures Valid() && Did(me, old(Now()), Now(), own) && SameInstance(me, old(s))
      ensures SocketClearedOrRefused(own, r) && (r.Ok? ==> s.socket.None?)
      ensures PhaseOf(me) == if r.Ok? then BindCreate else Stopping
    {
      ghost var own1, more;
      var isSocket;
      isSocket, own1 := StatSocket(me);
      if isSocket != Result.Ok(true) { return Err(BindIo), [own1]; }
      ghost var t := Now();
      r, more := ProbeSocket(me);
      DidOn(me, old(Now()), t, Now(), [own1], more);
      own := [own1] + more;
      SocketProbedOn(own1, more, r);
    }

    /** It is a socket: connect, and unlink it if nobody answers. */
    method ProbeSocket(me: Id) returns (r: Result<(), BindError>, ghost own: seq<Taken>)
      requires Valid() && me in s.daemons && PhaseOf(me) == BindProbe
      modifies this
      ensures Valid() && Did(me, old(Now()), Now(), own) && SameInstance(me, old(s))
      ensures SocketProbed(own, r) && (r.Ok? ==> s.socket.None?)
      ensures PhaseOf(me) == if r.Ok? then BindCreate else Stopping
    {
      ghost var own1, own2;
      var answered;
      answered, own1 := ConnectSocket(me);
      if answered.Err? { return Err(answered.error), [own1]; }
      if answered.value { return Err(SocketInUse), [own1]; }
      ghost var t := Now();
      var removed;
      removed, own2 := RemoveSocket(me);
      DidOn(me, old(Now()), t, Now(), [own1], [own2]);
      own := [own1] + [own2];
      r := if removed then Result.Ok(()) else Err(BindIo);
    }

    /** Creating the socket file, which fails if there is one, and listening on it. */
    method CreateSocket(me: Id) returns (r: Result<(), BindError>, ghost own: seq<Taken>)
      requires Valid() && me in s.daemons && PhaseOf(me) == BindCreate
      modifies this
      ensures Valid() && Did(me, old(Now()), Now(), own) && SameInstance(me, old(s))
      ensures BindPart(own, 6, 7) && own != []
      ensures PhaseOf(me) == if r.Ok? then Looping else Stopping
      ensures (r.Ok? <==> ListensAtLast(own)) && (r.Ok? ==> own[0].before.socket.None?)
    {
      ghost var own1, own2;
      var bound;
      bound, own1 := BindPath(me);
      own := [own1];
      CreatedPart(own);
      if !bound { return Err(BindIo), own; }
      ghost var t := Now();
      r, own2 := Listen(me);
      DidOn(me, old(Now()), t, Now(), own, [own2]);
      own := own + [own2];
      CreatedPart(own);
    }

    method Listen(me: Id) returns (r: Result<(), BindError>, ghost own: Taken)
      requires Valid() && me in s.daemons && PhaseOf(me) == BindListen
      modifies this
      ensures Valid() && Did(me, old(Now()), Now(), [own]) && SameInstance(me, old(s))
      ensures PhaseAt(own) == BindListen && Well(own) == r.Ok? && PhaseOf(me) == if r.Ok? then Looping else Stopping
    {
      var ok;
      ok, own := Operate(me);
      r := if ok then Result.Ok(()) else Err(BindIo);
    }

    /** The event loop as one step: it ends by itself, or by acknowledging a client. */
    method EndLoop(me: Id) returns (ok: bool, ghost own: Taken)
      requires Valid() && me in s.daemons && PhaseOf(me) == Looping
      modifies this
      ensures Valid() && Grew(me, old(trails), [own]) && SameInstance(me, old(s)) && PhaseOf(me) == Closing
      ensures PhaseAt(own) == Looping && ok == Well(own)
    {
      Others(me);
      if c :| c in s.clients && s.clients[c] == Awaiting(me) {
        own := Taken(s, Ack(me, c));
        Take(Ack(me, c));
        ok := true;
      } else {
        ok, own := Operate(me);
      }
    }

    /** From the end of the event loop to the end of run: listener, socket file, on_stop, guard. */
    method ShutDown(me: Id) returns (cleaned: bool, stopped: bool, ghost own: seq<Taken>)
      requires Valid() && me in s.daemons && PhaseOf(me) == Closing
      modifies this
      ensures Valid() && Did(me, old(Now()), Now(), own) && me in s.daemons && PhaseOf(me) == Finished
          && s.daemons[me].stopped
      ensures Phases(own) == [Closing, Cleaning, Stopping, Releasing] && cleaned == Well(own[1])
          && stopped == Well(own[2])
      ensures old(Alone()) ==> s.socket.None? && s.pidFile.None?
    {
      ghost var s0, m := s, Now();
      assert Trail(TheDaemon(me), start, steps) == trails[TheDaemon(me)];
      ghost var own1, own2, more;
      var ok;
      ok, own1 := Operate(me);
      ghost var t := Now();
      cleaned, own2 := Operate(me);
      DidOn(me, old(Now()), t, Now(), [own1], [own2]);
      t := Now();
      stopped, more := StopAndRelease(me);
      DidOn(me, old(Now()), t, Now(), [own1] + [own2], more);
      own := [own1] + [own2] + more;
      WayDown(own1, own2, more);
      if m.alone {
        LengthOfPhases(own, [Closing, Cleaning, Stopping, Releasing]);
        WasAlone(me, s0, m, own);
        SoloDown(s0, me);
      }
    }

    method StopAndRelease(me: Id) returns (stopped: bool, ghost own: seq<Taken>)
      requires Valid() && me in s.daemons && PhaseOf(me) == Stopping
      modifies this
      ensures Valid() && Did(me, old(Now()), Now(), own) && me in s.daemons && PhaseOf(me) == Finished
          && s.daemons[me].stopped
      ensures Phases(own) == [Stopping, Releasing] && stopped == Well(own[0])
    {
      ghost var own1, own2;
      stopped, own1 := Operate(me);
      ghost var t := Now();
      own2 := Release(me);
      DidOn(me, old(Now()), t, Now(), [own1], [own2]);
      own := [own1] + [own2];
    }

    /** Dropping the guard: the error of the unlink is ignored. */
    method Release(me: Id) returns (ghost own: Taken)
      requires Valid() && me in s.daemons && PhaseOf(me) == Releasing
      modifies this
      ensures Valid() && Did(me, old(Now()), Now(), [own]) && SameInstance(me, old(s)) && PhaseOf(me) == Finished
      ensures PhaseAt(own) == Releasing
    {
      var ok;
      ok, own := Operate(me);
    }

    /** A whole daemon: claim, on_start, bind, serve until the loop ends, shut down. Its own
        steps account for every resource, and on_stop has run exactly if on_start succeeded. */
    method RunDaemon(me: Id) returns (r: Result<(), DaemonError>, course: Course, ghost own: seq<Taken>)
      requires Valid() && me in s.daemons && PhaseOf(me) == ClaimExists(0) && !s.daemons[me].stopped
      modifies this
      ensures Valid() && Grew(me, old(trails), own) && me in s.daemons && PhaseOf(me) == Finished
      ensures Accounted(Phases(own)) && Reports(own, course, r)
      ensures course.NotClaimed? <==> Starting !in Phases(own)
      ensures course.Bound? <==> Looping in Phases(own)
      ensures s.daemons[me].stopped <==> course.NotBound? || course.Bound?
    {
      var claim;
      claim, own := Claim(me);
      if claim.Err? {
        Conclude(own, NotClaimed, [], []);
        assert own + [] == own;
        return Err(ClaimFailed(claim.error)), NotClaimed, own;
      }
      ghost var t, claimed, more := trails, own, [];
      ghost var bind;
      r, course, bind, more := AfterClaim(me);
      GrewOn(TheDaemon(me), old(trails), t, trails, own, more);
      Conclude(claimed, course, bind, more);
      ReportsOn(claimed, more, course, r);
      own := own + more;
    }

    /** What follows a successful claim. */
    method AfterClaim(me: Id) returns (r: Result<(), DaemonError>, course: Course, ghost bind: seq<Taken>,
        ghost own: seq<Taken>)
      requires Valid() && me in s.daemons && PhaseOf(me) == Starting && !s.daemons[me].stopped
      modifies this
      ensures Valid() && Grew(me, old(trails), own) && me in s.daemons && PhaseOf(me) == Finished
      ensures !course.NotClaimed? && (course.NotBound? || course.Bound? ==> BindInOrder(Phases(bind)))
      ensures Phases(own) == Rest(course, Phases(bind)) && Reports(own, course, r)
      ensures s.daemons[me].stopped <==> course.NotBound? || course.Bound?
    {
      ghost var own1, own2, more;
      var started;
      started, own1 := Operate(me);
      ghost var t := trails;
      if !started {
        own2 := Release(me);
        GrewOn(TheDaemon(me), old(trails), t, trails, [own1], [own2]);
        return Err(StartFailed), NotStarted, [], [own1] + [own2];
      }
      r, course, bind, more := BindAndServe(me);
      GrewOn(TheDaemon(me), old(trails), t, trails, [own1], more);
      own := [own1] + more;
      RestOfStarted(own1, bind, course, more);
      ReportsOn([own1], more, course, r);
    }

    /** From bind on. */
    method BindAndServe(me: Id) returns (r: Result<(), DaemonError>, course: Course, ghost bind: seq<Taken>,
        ghost own: seq<Taken>)
      requires Valid() && me in s.daemons && PhaseOf(me) == BindExists
      modifies this
      ensures Valid() && Grew(me, old(trails), own) && me in s.daemons && PhaseOf(me) == Finished
          && s.daemons[me].stopped
      ensures (course.NotBound? || course.Bound?) && BindInOrder(Phases(bind))
      ensures Phases(own) == Phases(bind) + TailOf(course) && Reports(own, course, r)
    {
      var bound;
      bound, bind := BindSocket(me);
      ghost var t, more := trails, [];
      if bound.Err? {
        var stopped;
        stopped, more := StopAndRelease(me);
        r := Err(if stopped then BindFailed(bound.error) else StopFailed);
        course := NotBound;
      } else {
        r, more := ServeAndStop(me);
        course := Bound;
      }
      GrewOn(TheDaemon(me), old(trails), t, trails, bind, more);
      PhasesAppend(bind, more);
      LengthOfPhases(more, TailOf(course));
      ReportsOn(bind, more, course, r);
      own := bind + more;
    }

    /** The loop, and the way down after it. */
    method ServeAndStop(me: Id) returns (r: Result<(), DaemonError>, ghost own: seq<Taken>)
      requires Valid() && me in s.daemons && PhaseOf(me) == Looping
      modifies this
      ensures Valid() && Grew(me, old(trails), own) && me in s.daemons && PhaseOf(me) == Finished
          && s.daemons[me].stopped
      ensures Phases(own) == [Looping, Closing, Cleaning, Stopping, Releasing]
      ensures r == if !Well(own[0]) then Err(LoopFailed)
                   else if !Well(own[2]) then Err(CleanupFailed)
                   else if !Well(own[3]) then Err(StopFailed)
                   else Result.Ok(())
    {
      ghost var own1, more;
      var loop, cleaned, stopped;
      loop, own1 := EndLoop(me);
      ghost var t := trails;
      cleaned, stopped, more := ShutDown(me);
      GrewOn(TheDaemon(me), old(trails), t, trails, [own1], more);
      LoopAndDown(own1, more);
      own := [own1] + more;
      r := if !loop then Err(LoopFailed) else if !cleaned then Err(CleanupFailed)
           else if !stopped then Err(StopFailed) else Result.Ok(());
    }

    // ---- Client::shutdown -------------------------------------------------

    /** Client c has since taken the steps own. */
    ghost predicate ClientGrew(c: Id, before: imap<Actor, seq<Taken>>, own: seq<Taken>)
      reads this`trails
    {
      GrewBy(TheClient(c), before, trails, own)
    }

    /** Between two operations of client c the others, daemons included, do as scheduled; the
        only thing that can happen to c is that the daemon it asked acknowledges. */
    method OthersThan(c: Id)
      requires Valid() && c in s.clients
      modifies this`s, this`steps, this`trails, this`schedule
      ensures Valid() && c in s.clients
      ensures s.clients[c] == old(s.clients[c])
           || (old(s.clients[c]).Awaiting? && s.clients[c] == CheckSocket(old(s.clients[c]).daemon))
      ensures TheClient(c) in old(trails) && trails[TheClient(c)] == old(trails)[TheClient(c)]
      ensures old(schedule) == [] ==> schedule == [] && s == old(s)
    {
      if schedule == [] { return; }
      var batch := schedule[0];
      schedule := schedule[1..];
      for n := 0 to |batch|
        invariant Valid() && c in s.clients
        invariant s.clients[c] == old(s.clients[c])
               || (old(s.clients[c]).Awaiting? && s.clients[c] == CheckSocket(old(s.clients[c]).daemon))
        invariant TheClient(c) in old(trails) && trails[TheClient(c)] == old(trails)[TheClient(c)]
      {
        var step := batch[n];
        if Enabled(s, step) && !ActsFor(TheClient(c), step) { Take(step); }
      }
    }

    /** One operation of client c; ok is false when it fails or when the client gives up. */
    method ClientOperate(c: Id, ok: bool) returns (ghost own: Taken)
      requires Valid() && c in s.clients
      modifies this`s, this`steps, this`trails
      ensures Valid() && c in s.clients && s == ClientStep(old(s), c, ok)
      ensures own == Taken(old(s), ClientAct(c, ok)) && ClientGrew(c, old(trails), [own])
    {
      own := Taken(s, ClientAct(c, ok));
      Take(ClientAct(c, ok));
    }

    /** shutdown(): done means it returned true. patience is how many rounds of the wait begin
        before the deadline. */
    method Shutdown(c: Id, patience: nat) returns (done: bool)
      requires Valid() && c in s.clients && s.clients[c] == Connecting
      modifies this
      ensures Valid() && c in s.clients && (done <==> s.clients[c].ReturnedTrue?)
      ensures done ==> SawItGone(trails[TheClient(c)])
      ensures done && StealFree(start, steps) ==>
                var d := s.clients[c].daemon; d in s.daemons && (s.daemons[d].stopped || s.daemons[d].phase == Dead)
    {
      OthersThan(c);
      var ok := Ok();
      ghost var own := ClientOperate(c, ok);
      if !s.clients[c].Awaiting? { return false; }
      OthersThan(c);
      if s.clients[c].Awaiting? {
        own := ClientOperate(c, false);
        return false;
      }
      ghost var t := trails;
      ghost var wait;
      done, wait := WaitForShutdown(c, patience);
      if done { GoneAtLast(t[TheClient(c)], wait); }
      if done && StealFree(start, steps) {
        ShutdownTrue(start, steps, |steps|, c, s.clients[c].daemon);
      }
    }

    /** wait_for_shutdown: done only after a check that found the daemon gone. */
    method WaitForShutdown(c: Id, patience: nat) returns (done: bool, ghost own: seq<Taken>)
      requires Valid() && c in s.clients && s.clients[c].CheckSocket?
      modifies this
      ensures Valid() && c in s.clients && ClientGrew(c, old(trails), own)
      ensures (done <==> s.clients[c].ReturnedTrue?) && (!done ==> s.clients[c].ReturnedOther?)
      ensures done ==> SawItGone(own)
      ensures !done ==> own != [] && !ClientWell(own[|own| - 1])
      ensures old(Alone()) && patience > 0 ==> (done <==> old(s.socket).None? && !NamesRunning(old(s)))
    {
      ghost var s0, alone, d := s, Alone(), s.clients[c].daemon;
      var left := patience;
      own := [];
      assert trails[TheClient(c)] + [] == trails[TheClient(c)];
      while left > 0
        invariant Valid() && c in s.clients && ClientGrew(c, old(trails), own)
        invariant s.clients[c] == CheckSocket(d)
        invariant alone ==> Alone() && FilesAs(s0)
        invariant alone && left < patience ==> s0.socket.Some? || NamesRunning(s0)
      {
        ghost var t := trails;
        ghost var check := ShutdownComplete(c);
        GrewOn(TheClient(c), old(trails), t, trails, own, check);
        if alone { CheckAlone(check, s0, d, s.clients[c]); }
        CheckSaw(check, d, s.clients[c]);
        if s.clients[c].ReturnedTrue? { GoneAtLast(own, check); }
        own := own + check;
        if !s.clients[c].CheckSocket? { return s.clients[c].ReturnedTrue?, own; }
        left := left - 1;
      }
      ghost var t := trails;
      ghost var last := ClientOperate(c, false);
      GrewOn(TheClient(c), old(trails), t, trails, own, [last]);
      own := own + [last];
      done := false;
    }

    /** The pid file and the socket are as they were, and so are the processes. */
    ghost predicate FilesAs(before: State)
      reads this`s
    {
      s.pidFile == before.pidFile && s.socket == before.socket && s.alive == before.alive
    }

    /** shutdown_complete: the socket first, and if that is gone the process behind the pid file. */
    method ShutdownComplete(c: Id) returns (ghost own: seq<Taken>)
      requires Valid() && c in s.clients && s.clients[c].CheckSocket?
      modifies this
      ensures Valid() && c in s.clients && ClientGrew(c, old(trails), own)
      ensures CheckMeans(own, old(s.clients[c]).daemon, s.clients[c])
      ensures old(Alone()) ==> Alone() && FilesAs(old(s)) && own[0].before == old(s) && forall t | t in own ::
          AlikeAt(t, old(s))
    {
      ghost var own1, more;
      OthersThan(c);
      var ok := Ok();
      own1 := ClientOperate(c, ok);
      own := [own1];
      if s.clients[c].ReadPid? {
        ghost var t := trails;
        more := PidGone(c);
        GrewOn(TheClient(c), old(trails), t, trails, own, more);
        CheckOn(own1, more, old(s.clients[c]).daemon, s.clients[c]);
        own := own + more;
      }
    }

    /** The second half of the check. */
    method PidGone(c: Id) returns (ghost own: seq<Taken>)
      requires Valid() && c in s.clients && s.clients[c].ReadPid?
      modifies this
      ensures Valid() && c in s.clients && ClientGrew(c, old(trails), own)
      ensures PidCheckMeans(own, old(s.clients[c]).daemon, s.clients[c])
      ensures old(Alone()) ==> Alone() && FilesAs(old(s)) && forall t | t in own :: AlikeAt(t, old(s))
    {
      ghost var own1, own2;
      OthersThan(c);
      var ok := Ok();
      own1 := ClientOperate(c, ok);
      own := [own1];
      if s.clients[c].ProbePid? {
        ghost var t := trails;
        OthersThan(c);
        own2 := ClientOperate(c, true);
        GrewOn(TheClient(c), old(trails), t, trails, own, [own2]);
        own := own + [own2];
      }
    }
  }
}
