/** What the operations of one participant in a run look like: which of them a claim, a bind, a
    daemon's whole life and a client's wait are made of, and what their results mean. */
module Accounts {
  import opened Wrappers
  import opened Ownership
  import opened OwnershipTheorems

  datatype ClaimError = AlreadyRunning(pid: Option<Pid>) | ClaimIo

  datatype BindError = SocketInUse | BindIo

  datatype DaemonError = ClaimFailed(claim: ClaimError) | StartFailed | BindFailed(bind: BindError)
                       | LoopFailed | CleanupFailed | StopFailed

  // ---- What the own steps of a participant look like ----------------------

  /** The pid in the file, if there is a file with a number in it. */
  function PidIn(s: State): Option<Pid> {
    if s.pidFile.Some? && s.pidFile.value.text.Names? then Some(s.pidFile.value.text.pid) else None
  }

  predicate IsSocket(s: State) { s.socket.Some? && s.socket.value.Socket? }

  /** Whether a listener answers on the socket path. */
  predicate Answers(s: State) {
    IsSocket(s) && s.socket.value.owner.Some? && Reaches(s, s.socket.value.owner.value)
  }

  /** The phase in which a daemon took a step of its own. */
  function PhaseAt(t: Taken): Phase {
    if (t.step.Act? || t.step.Ack?) && t.step.daemon in t.before.daemons
    then t.before.daemons[t.step.daemon].phase
    else Dead
  }

  function Phases(own: seq<Taken>): (r: seq<Phase>)
    ensures |r| == |own| && forall i | 0 <= i < |r| :: r[i] == PhaseAt(own[i])
  {
    seq(|own|, i requires 0 <= i < |own| => PhaseAt(own[i]))
  }

  lemma PhasesAppend(a: seq<Taken>, b: seq<Taken>)
    ensures Phases(a + b) == Phases(a) + Phases(b)
  {}

  predicate Well(t: Taken) { t.step.Act? ==> t.step.ok }

  ghost predicate AllClaiming(own: seq<Taken>) {
    forall t | t in own :: Claiming(PhaseAt(t))
  }

  predicate Binding(phase: Phase) {
    phase in {BindExists, BindStat, BindProbe, BindUnlink, BindCreate, BindListen}
  }

  /** An operation of daemon me, made in the given phase. */
  predicate Made(t: Taken, me: Id, phase: Phase, ok: bool) {
    t.step == Act(me, ok) && me in t.before.daemons && t.before.daemons[me].phase == phase
  }

  /** The exists branch of claim: the file is read; a running process it names is refused and
      its file left alone; a process that is not running, or no number, leads to the unlink. */
  ghost predicate ClearedOrRefused(own: seq<Taken>, r: Result<(), ClaimError>) {
    && own != [] && PhaseAt(own[0]).ClaimRead?
    && if !Well(own[0]) then |own| == 1 && r == Err(ClaimIo)
       else match PidIn(own[0].before)
         case None => |own| == 2 && Removed(own[1], r)
         case Some(pid) => ProbedAndRemoved(own[1..], pid, r)
  }

  /** The part of it after a pid was read. */
  ghost predicate ProbedAndRemoved(own: seq<Taken>, pid: Pid, r: Result<(), ClaimError>) {
    && 1 <= |own| <= 2 && PhaseAt(own[0]).ClaimProbe? && Well(own[0])
    && if |own| == 1 then pid in own[0].before.alive && r == Err(AlreadyRunning(Some(pid)))
       else pid !in own[0].before.alive && Removed(own[1], r)
  }

  predicate Removed(t: Taken, r: Result<(), ClaimError>) {
    PhaseAt(t).ClaimUnlink? && r == if Well(t) then Result.Ok(()) else Err(ClaimIo)
  }

  lemma Refused(t: Taken)
    requires PhaseAt(t).ClaimRead? && !Well(t)
    ensures ClearedOrRefused([t], Err(ClaimIo))
  {}

  lemma ClearedUnread(t: Taken, u: Taken, r: Result<(), ClaimError>)
    requires PhaseAt(t).ClaimRead? && Well(t) && PidIn(t.before).None? && Removed(u, r)
    ensures ClearedOrRefused([t] + [u], r)
  {}

  lemma ClearedProbed(t: Taken, own: seq<Taken>, pid: Pid, r: Result<(), ClaimError>)
    requires PhaseAt(t).ClaimRead? && Well(t) && PidIn(t.before) == Some(pid) && ProbedAndRemoved(own, pid, r)
    ensures ClearedOrRefused([t] + own, r)
  {
    assert ([t] + own)[1..] == own;
  }

  /** The last two steps: a read that found the pid and a probe that found it running. */
  predicate RefusedAtLast(own: seq<Taken>, pid: Option<Pid>) {
    var n := |own|;
    && n >= 2 && PhaseAt(own[n - 2]).ClaimRead? && pid.Some? && PidIn(own[n - 2].before) == pid
    && PhaseAt(own[n - 1]).ClaimProbe? && Well(own[n - 1]) && pid.value in own[n - 1].before.alive
  }

  /** A create that found a file at the path. */
  predicate LostAt(t: Taken) {
    PhaseAt(t).ClaimCreate? && Well(t) && t.before.pidFile.Some?
  }

  /** How one attempt ends: with the pid written, with a create that lost to another file, with
      a refusal, or with an operation that failed. */
  predicate AttemptEnds(own: seq<Taken>, r: Result<bool, ClaimError>) {
    && own != []
    && var last := own[|own| - 1];
       match r
       case Ok(claimed) => if claimed then PhaseAt(last) == ClaimWrite && Well(last) else LostAt(last)
       case Err(ClaimIo) => !Well(last)
       case Err(AlreadyRunning(pid)) => RefusedAtLast(own, pid)
  }

  /** How a claim ends: like an attempt, or after three lost creates with a last read. */
  predicate ClaimEnds(own: seq<Taken>, r: Result<(), ClaimError>) {
    && own != []
    && var last := own[|own| - 1];
       match r
       case Ok(_) => PhaseAt(last) == ClaimWrite && Well(last)
       case Err(ClaimIo) => !Well(last)
       case Err(AlreadyRunning(pid)) =>
         RefusedAtLast(own, pid)
         || (PhaseAt(last) == ClaimGiveUp && Well(last) && pid == PidIn(last.before) && Lost(own) == 3)
  }

  /** The number of creates that found a file. */
  function Lost(own: seq<Taken>): (n: nat)
    ensures n <= |own|
  {
    if own == [] then 0 else Lost(own[..|own| - 1]) + (if LostAt(own[|own| - 1]) then 1 else 0)
  }

  lemma {:induction false} LostAppend(a: seq<Taken>, b: seq<Taken>)
    ensures Lost(a + b) == Lost(a) + Lost(b)
  {
    if b == [] {
      assert a + b == a;
    } else {
      LostAppend(a, b[..|b| - 1]);
      assert (a + b)[..|a + b| - 1] == a + b[..|b| - 1];
    }
  }

  lemma {:induction false} NoneLost(own: seq<Taken>)
    requires forall t | t in own :: !LostAt(t)
    ensures Lost(own) == 0
  {
    if own != [] { NoneLost(own[..|own| - 1]); }
  }

  lemma ClearedLosesNone(own: seq<Taken>, r: Result<(), ClaimError>)
    requires ClearedOrRefused(own, r)
    ensures Lost(own) == 0 && |own| <= 3
  {
    NoneLost(own);
  }

  lemma RefusalEnds(t: Taken, own: seq<Taken>, e: ClaimError)
    requires ClearedOrRefused(own, Err(e))
    ensures AttemptEnds([t] + own, Err(e))
  {
    assert |own| == 1 || own[1..][|own| - 2] == own[|own| - 1];
  }

  lemma AttemptEndsOn(before: seq<Taken>, own: seq<Taken>, r: Result<bool, ClaimError>)
    requires AttemptEnds(own, r)
    ensures AttemptEnds(before + own, r)
  {}

  lemma ClaimEndsOn(before: seq<Taken>, own: seq<Taken>, r: Result<bool, ClaimError>)
    requires AttemptEnds(own, r) && r != Ok(false)
    ensures ClaimEnds(before + own, if r.Ok? then Ok(()) else Err(r.error))
  {}

  lemma LostOne(t: Taken)
    ensures Lost([t]) == if LostAt(t) then 1 else 0
  {
    assert [t][..0] == [];
  }

  lemma GivenUp(own: seq<Taken>, last: Taken, r: Result<(), ClaimError>)
    requires AllClaiming(own) && PhaseAt(last) == ClaimGiveUp && Lost(own) == 3
    requires r == Err(if Well(last) then AlreadyRunning(PidIn(last.before)) else ClaimIo)
    ensures AllClaiming(own + [last]) && ClaimEnds(own + [last], r) && Lost(own + [last]) == 3
  {
    LostOne(last);
    LostAppend(own, [last]);
  }

  lemma ClaimingAppend(a: seq<Taken>, b: seq<Taken>)
    requires AllClaiming(a) && AllClaiming(b)
    ensures AllClaiming(a + b)
  {}

  /** The probe of bind: only a socket on which nobody answers is removed; anything else, and a
      listener that answers, is left alone. */
  ghost predicate SocketClearedOrRefused(own: seq<Taken>, r: Result<(), BindError>) {
    && own != [] && PhaseAt(own[0]) == BindStat
    && if Well(own[0]) && IsSocket(own[0].before) then SocketProbed(own[1..], r)
       else |own| == 1 && r == Err(BindIo)
  }

  ghost predicate SocketProbed(own: seq<Taken>, r: Result<(), BindError>) {
    && own != [] && PhaseAt(own[0]) == BindProbe
    && if !Well(own[0]) then |own| == 1 && r == Err(BindIo)
       else if Answers(own[0].before) then |own| == 1 && r == Err(SocketInUse)
       else && |own| == 2 && PhaseAt(own[1]) == BindUnlink
            && r == if Well(own[1]) && own[1].before.socket.Some? then Result.Ok(()) else Err(BindIo)
  }

  lemma SocketProbedOn(t: Taken, own: seq<Taken>, r: Result<(), BindError>)
    requires PhaseAt(t) == BindStat && Well(t) && IsSocket(t.before) && SocketProbed(own, r)
    ensures SocketClearedOrRefused([t] + own, r)
  {
    assert ([t] + own)[1..] == own;
  }

  /** Why wait_for_shutdown may say the daemon is gone: it found no socket, and after that no
      pid in the file or one of a process that is not running. */
  ghost predicate SawItGone(own: seq<Taken>) {
    var n := |own|;
    || (n >= 2 && own[n - 2].before.socket.None? && PidIn(own[n - 1].before).None?)
    || (n >= 3 && own[n - 3].before.socket.None? && PidIn(own[n - 2].before).Some?
        && PidIn(own[n - 2].before).value !in own[n - 1].before.alive)
  }

  /** Whether an operation of a client worked. */
  predicate ClientWell(t: Taken) { t.step.ClientAct? ==> t.step.ok }

  /** shutdown_complete: it fails if the look at the path or the read of the file fails, says no
      while there is anything at the path or a running process in the file, and else says yes. */
  ghost predicate CheckMeans(own: seq<Taken>, d: Id, c: Client) {
    && own != []
    && if !ClientWell(own[0]) then |own| == 1 && c == ReturnedOther
       else if own[0].before.socket.Some? then |own| == 1 && c == CheckSocket(d)
       else PidCheckMeans(own[1..], d, c)
  }

  ghost predicate PidCheckMeans(own: seq<Taken>, d: Id, c: Client) {
    && own != []
    && if !ClientWell(own[0]) then |own| == 1 && c == ReturnedOther
       else match PidIn(own[0].before)
         case None => |own| == 1 && c == ReturnedTrue(d)
         case Some(pid) => |own| == 2 && c == if pid in own[1].before.alive then CheckSocket(d) else ReturnedTrue(d)
  }

  lemma CheckOn(t: Taken, own: seq<Taken>, d: Id, c: Client)
    requires ClientWell(t) && t.before.socket.None? && PidCheckMeans(own, d, c)
    ensures CheckMeans([t] + own, d, c)
  {
    assert ([t] + own)[1..] == own;
  }

  lemma CheckSaw(own: seq<Taken>, d: Id, c: Client)
    requires CheckMeans(own, d, c)
    ensures c.CheckSocket? || c.ReturnedTrue? || c.ReturnedOther?
    ensures c.ReturnedTrue? ==> SawItGone(own)
    ensures c.ReturnedOther? ==> !ClientWell(own[|own| - 1])
  {}

  /** A step that worked, on files and processes as in a given state. */
  predicate AlikeAt(t: Taken, s: State) {
    ClientWell(t) && t.before.pidFile == s.pidFile && t.before.socket == s.socket && t.before.alive == s.alive
  }

  predicate NamesRunning(s: State) {
    PidIn(s).Some? && PidIn(s).value in s.alive
  }

  /** A check during which nothing changes and nothing fails. */
  lemma CheckAlone(own: seq<Taken>, s: State, d: Id, c: Client)
    requires CheckMeans(own, d, c) && forall t | t in own :: AlikeAt(t, s)
    ensures c == if s.socket.None? && !NamesRunning(s) then ReturnedTrue(d) else CheckSocket(d)
  {
    assert own[0] in own;
    if own[0].before.socket.None? {
      assert own[1] in own;
      if |own| > 2 { assert own[2] in own; }
    }
  }

  lemma GoneAtLast(before: seq<Taken>, own: seq<Taken>)
    requires SawItGone(own)
    ensures SawItGone(before + own)
  {}

  /** How far a daemon got. */
  datatype Course = NotClaimed | NotStarted | NotBound | Bound

  /** The own steps after the claim, bind being the steps of bind. */
  function Rest(course: Course, bind: seq<Phase>): seq<Phase> {
    match course
    case NotClaimed => []
    case NotStarted => [Starting, Releasing]
    case _ => [Starting] + bind + TailOf(course)
  }

  /** What run reports: the loop's error first, then the cleanup's, then on_stop's; an error of
      on_stop hides a bind error. */
  ghost predicate Reports(own: seq<Taken>, course: Course, r: Result<(), DaemonError>) {
    var n := |own|;
    match course
    case NotClaimed => r.Err? && r.error.ClaimFailed?
    case NotStarted => n >= 2 && !Well(own[n - 2]) && r == Err(StartFailed)
    case NotBound => n >= 2 && r.Err? && if Well(own[n - 2]) then r.error.BindFailed? else r.error == StopFailed
    case Bound =>
      n >= 5
      && r == if !Well(own[n - 5]) then Err(LoopFailed)
              else if !Well(own[n - 3]) then Err(CleanupFailed)
              else if !Well(own[n - 2]) then Err(StopFailed)
              else Result.Ok(())
  }

  /** How far along a daemon is when it takes a step of each phase. */
  function Rank(phase: Phase): nat {
    match phase
    case Starting => 1
    case BindExists => 2
    case BindStat => 3
    case BindProbe => 4
    case BindUnlink => 5
    case BindCreate => 6
    case BindListen => 7
    case Looping => 8
    case Closing => 9
    case Cleaning => 10
    case Stopping => 11
    case Releasing => 12
    case _ => 0
  }

  ghost predicate InOrder(phases: seq<Phase>) {
    forall i, j | 0 <= i < j < |phases| ::
      Rank(phases[i]) < Rank(phases[j]) || (Claiming(phases[i]) && Claiming(phases[j]))
  }

  /** Every resource is accounted for: after the claim each operation happens at most once and
      in one order; the guard is dropped, last of all, exactly if the claim succeeded; and after
      a bind that succeeded the listener is closed, the cleanup tried and on_stop called. */
  ghost predicate Accounted(phases: seq<Phase>) {
    InOrder(phases) && Complete(phases)
  }

  predicate Complete(phases: seq<Phase>) {
    && (Starting in phases <==> phases != [] && phases[|phases| - 1] == Releasing)
    && (Looping in phases ==> Closing in phases && Cleaning in phases)
    && (BindExists in phases <==> Stopping in phases)
  }

  /** The phases of a bind: from its exists on, in order. */
  ghost predicate BindInOrder(bind: seq<Phase>) {
    bind != [] && bind[0] == BindExists && InOrder(bind) && forall phase | phase in bind :: Binding(phase)
  }

  lemma AllBinding(own: seq<Taken>)
    requires BindInOrder(Phases(own))
    ensures forall t | t in own :: Binding(PhaseAt(t))
  {
    forall t | t in own ensures Binding(PhaseAt(t)) {
      var i :| 0 <= i < |own| && own[i] == t;
      assert Phases(own)[i] in Phases(own);
    }
  }

  lemma OrderAppend(a: seq<Phase>, b: seq<Phase>, n: nat)
    requires InOrder(a) && InOrder(b)
    requires (forall x | x in a :: Rank(x) < n) && (forall y | y in b :: n <= Rank(y))
    ensures InOrder(a + b)
  {}

  /** The own steps that follow a bind. */
  function TailOf(course: Course): (tail: seq<Phase>)
    ensures InOrder(tail) && forall x | x in tail :: Rank(x) >= 8
  {
    if course.Bound? then
      var tail := [Looping, Closing, Cleaning, Stopping, Releasing];
      assert forall i | 0 <= i < 5 :: Rank(tail[i]) == i + 8;
      tail
    else if course.NotBound? then [Stopping, Releasing]
    else []
  }

  lemma RestInOrder(course: Course, bind: seq<Phase>)
    requires course.NotBound? || course.Bound? ==> BindInOrder(bind)
    ensures InOrder(Rest(course, bind)) && forall x | x in Rest(course, bind) :: Rank(x) >= 1
  {
    if course.NotBound? || course.Bound? {
      OrderAppend([Starting], bind, 2);
      OrderAppend([Starting] + bind, TailOf(course), 8);
    }
  }

  lemma RestAccounted(claim: seq<Phase>, course: Course, bind: seq<Phase>)
    requires forall phase | phase in claim :: Claiming(phase)
    requires course.NotBound? || course.Bound? ==> BindInOrder(bind)
    ensures Accounted(claim + Rest(course, bind))
  {
    RestInOrder(course, bind);
    OrderAppend(claim, Rest(course, bind), 1);
    RestComplete(course, bind);
    CompleteAppend(claim, Rest(course, bind));
  }

  lemma CompleteAppend(claim: seq<Phase>, rest: seq<Phase>)
    requires (forall phase | phase in claim :: Claiming(phase)) && Complete(rest)
    ensures Complete(claim + rest)
  {
    if rest == [] {
      assert claim + rest == claim;
      assert claim != [] ==> claim[|claim| - 1] in claim;
    } else {
      assert (claim + rest)[|claim + rest| - 1] == rest[|rest| - 1];
    }
  }

  lemma RestComplete(course: Course, bind: seq<Phase>)
    requires course.NotBound? || course.Bound? ==> BindInOrder(bind)
    ensures Complete(Rest(course, bind))
  {
    var rest := Rest(course, bind);
    if course.NotStarted? {
      assert rest[0] == Starting;
    } else if !course.NotClaimed? {
      RestMembers(bind, TailOf(course));
    }
  }

  lemma RestMembers(bind: seq<Phase>, tail: seq<Phase>)
    requires BindInOrder(bind)
    ensures forall x | x in tail :: x in [Starting] + bind + tail
    ensures Starting in [Starting] + bind + tail && BindExists in [Starting] + bind + tail
    ensures Looping in [Starting] + bind + tail ==> Looping in tail
  {
    assert bind[0] in bind;
  }

  /** Own steps of bind whose ranks lie between two numbers. */
  ghost predicate BindPart(own: seq<Taken>, low: nat, high: nat) {
    InOrder(Phases(own)) && forall phase | phase in Phases(own) :: Binding(phase) && low <= Rank(phase) <= high
  }

  /** Own steps of a bind up to a rank. */
  ghost predicate BindUpTo(own: seq<Taken>, high: nat) {
    BindInOrder(Phases(own)) && forall phase | phase in Phases(own) :: Rank(phase) <= high
  }

  lemma BindStarts(t: Taken)
    requires PhaseAt(t) == BindExists
    ensures BindUpTo([t], 2)
  {
    assert Phases([t]) == [BindExists];
  }

  lemma BindAppend(a: seq<Taken>, b: seq<Taken>, low: nat, high: nat)
    requires 1 <= low <= high <= 7 && BindUpTo(a, low - 1) && BindPart(b, low, high)
    ensures BindUpTo(a + b, high) && BindInOrder(Phases(a + b))
  {
    OrderAppend(Phases(a), Phases(b), low);
    PhasesAppend(a, b);
  }

  /** The last step is a listen that worked. */
  predicate ListensAtLast(own: seq<Taken>) {
    own != [] && PhaseAt(own[|own| - 1]) == BindListen && Well(own[|own| - 1])
  }

  lemma ListensOn(before: seq<Taken>, own: seq<Taken>)
    requires own != []
    ensures ListensAtLast(before + own) == ListensAtLast(own)
  {}

  lemma NotYetListening(own: seq<Taken>)
    requires BindUpTo(own, 5)
    ensures !ListensAtLast(own)
  {
    assert Phases(own)[|own| - 1] in Phases(own);
  }

  lemma ClearedPart(own: seq<Taken>, r: Result<(), BindError>)
    requires SocketClearedOrRefused(own, r)
    ensures BindPart(own, 3, 5)
  {
    var phases := Phases(own);
    forall i | 0 <= i < |phases| ensures Rank(phases[i]) == i + 3 && Binding(phases[i]) {
      assert phases[i] == PhaseAt(own[i]);
    }
  }

  lemma CreatedPart(own: seq<Taken>)
    requires 1 <= |own| <= 2 && PhaseAt(own[0]) == BindCreate && (|own| == 2 ==> PhaseAt(own[1]) == BindListen)
    ensures BindPart(own, 6, 7)
  {
    var phases := Phases(own);
    forall i | 0 <= i < |phases| ensures Rank(phases[i]) == i + 6 && Binding(phases[i]) {
      assert phases[i] == PhaseAt(own[i]);
    }
  }

  /** The steps of a claim and those after it make up the account. */
  lemma Conclude(claim: seq<Taken>, course: Course, bind: seq<Taken>, rest: seq<Taken>)
    requires AllClaiming(claim) && (course.NotBound? || course.Bound? ==> BindInOrder(Phases(bind)))
    requires Phases(rest) == Rest(course, Phases(bind))
    ensures var all := Phases(claim + rest);
      && Accounted(all)
      && (course.NotClaimed? <==> Starting !in all) && (course.Bound? <==> Looping in all)
  {
    PhasesAppend(claim, rest);
    assert forall phase | phase in Phases(claim) :: Claiming(phase);
    RestAccounted(Phases(claim), course, Phases(bind));
    RestCourse(Phases(claim), course, Phases(bind));
  }

  lemma WayDown(t: Taken, u: Taken, own: seq<Taken>)
    requires PhaseAt(t) == Closing && PhaseAt(u) == Cleaning && Phases(own) == [Stopping, Releasing]
    ensures Phases([t] + [u] + own) == [Closing, Cleaning, Stopping, Releasing]
    ensures ([t] + [u] + own)[1] == u && ([t] + [u] + own)[2] == own[0]
  {
    PhasesAppend([t], [u]);
    PhasesAppend([t] + [u], own);
  }

  lemma LoopAndDown(t: Taken, own: seq<Taken>)
    requires PhaseAt(t) == Looping && Phases(own) == [Closing, Cleaning, Stopping, Releasing]
    ensures Phases([t] + own) == [Looping, Closing, Cleaning, Stopping, Releasing]
    ensures ([t] + own)[0] == t && ([t] + own)[2] == own[1] && ([t] + own)[3] == own[2]
  {
    PhasesAppend([t], own);
  }

  lemma LengthOfPhases(own: seq<Taken>, phases: seq<Phase>)
    requires Phases(own) == phases
    ensures |own| == |phases|
  {}

  lemma RestOfStarted(t: Taken, bind: seq<Taken>, course: Course, own: seq<Taken>)
    requires PhaseAt(t) == Starting && (course.NotBound? || course.Bound?)
    requires Phases(own) == Phases(bind) + TailOf(course)
    ensures Phases([t] + own) == Rest(course, Phases(bind))
  {
    PhasesAppend([t], own);
    assert Phases([t]) == [Starting];
    Regroup([Starting], Phases(bind), TailOf(course));
  }

  lemma ReportsOn(claim: seq<Taken>, rest: seq<Taken>, course: Course, r: Result<(), DaemonError>)
    requires Reports(rest, course, r)
    ensures Reports(claim + rest, course, r)
  {}

  lemma RestCourse(claim: seq<Phase>, course: Course, bind: seq<Phase>)
    requires forall phase | phase in claim :: Claiming(phase)
    requires course.NotBound? || course.Bound? ==> BindInOrder(bind)
    ensures var all := claim + Rest(course, bind);
      (course.NotClaimed? <==> Starting !in all) && (course.Bound? <==> Looping in all)
  {
    var rest := Rest(course, bind);
    match course
    case NotClaimed =>
    case NotStarted => assert rest[0] == Starting;
    case NotBound => RestMembers(bind, TailOf(course));
    case Bound =>
      RestMembers(bind, TailOf(course));
      assert TailOf(course)[0] == Looping;
  }

  /** The phase after a file was found at the path in the n-th attempt to create it. */
  function AfterExisting(n: nat): Phase { if n < 2 then ClaimExists(n + 1) else ClaimGiveUp }

  function AfterAttempt(n: nat, r: Result<bool, ClaimError>): Phase {
    match r
    case Err(_) => Finished
    case Ok(claimed) => if claimed then Starting else AfterExisting(n)
  }

  /** Where an operation outside the claim leads. */
  function NextOf(s: State, phase: Phase, ok: bool): Phase {
    match phase
    case Starting => if ok then BindExists else Releasing
    case BindExists => if ok && s.socket.Some? then BindStat else BindCreate
    case BindStat => if ok && IsSocket(s) then BindProbe else Stopping
    case BindProbe => if ok && !Answers(s) then BindUnlink else Stopping
    case BindUnlink => if ok && s.socket.Some? then BindCreate else Stopping
    case BindCreate => if ok && s.socket.None? then BindListen else Stopping
    case BindListen => if ok then Looping else Stopping
    case Looping => Closing
    case Closing => Cleaning
    case Cleaning => Stopping
    case Stopping => Releasing
    case _ => Finished
  }

  ghost predicate GrewBy(who: Actor, before: imap<Actor, seq<Taken>>, after: imap<Actor, seq<Taken>>, own: seq<Taken>) {
    who in before && who in after && after[who] == before[who] + own
  }

  lemma GrewOn(who: Actor, t0: imap<Actor, seq<Taken>>, t1: imap<Actor, seq<Taken>>, t2: imap<Actor, seq<Taken>>,
               a: seq<Taken>, b: seq<Taken>)
    requires GrewBy(who, t0, t1, a) && GrewBy(who, t1, t2, b)
    ensures GrewBy(who, t0, t2, a + b)
  {
    Regroup(t0[who], a, b);
  }

  lemma ServeNext(s: State, me: Id, ok: bool)
    requires me in s.daemons && !Claiming(s.daemons[me].phase) && !Dormant(s.daemons[me].phase)
    ensures var m, s' := s.daemons[me], ActStep(s, me, ok);
      && me in s'.daemons && s'.daemons[me].phase == NextOf(s, m.phase, ok)
      && s'.daemons[me].stopped == (m.stopped || m.phase == Stopping)
  {}
}
