/** Any number of daemon instances on one socket path and one pid file, and clients asking
    them to shut down, as a state machine whose steps are the single file and socket
    operations of the code. Steps of different instances interleave freely and any process
    may die between two steps. */
module Ownership {
  import opened Wrappers

  type Pid = nat

  // ---- State --------------------------------------------------------------

  datatype Text = Unwritten | Malformed | Names(pid: Pid)

  /** The file at the pid path. inc numbers the files ever created there. */
  datatype PidFile = PidFile(inc: nat, text: Text)

  /** The file at the socket path. An owner that is not an instance is a crashed process of
      an earlier time. */
  datatype SocketFile = NotASocket | Socket(owner: Option<Id>)

  /** What a claimant learned from reading the pid file. */
  datatype Seen = NoFile | Saw(inc: nat, text: Text)

  /** The next operation of an instance. Claiming makes three attempts, numbered from 0. */
  datatype Phase =
    | ClaimExists(attempt: nat)
    | ClaimRead(attempt: nat)
    | ClaimProbe(attempt: nat, seen: Seen)
    | ClaimUnlink(attempt: nat, seen: Seen)
    | ClaimCreate(attempt: nat)
    | ClaimWrite
    | ClaimGiveUp
    | Starting
    | BindExists
    | BindStat
    | BindProbe
    | BindUnlink
    | BindCreate
    | BindListen
    | Looping
    | Closing
    | Cleaning
    | Stopping
    | Releasing
    | Finished
    | Dead

  /** file is the incarnation the instance created, meaningful from ClaimWrite on; stopped
      says that on_stop has run. */
  datatype Instance = Instance(pid: Pid, phase: Phase, file: nat, stopped: bool)

  /** A client inside shutdown(). */
  datatype Client =
    | Connecting
    | Awaiting(daemon: Id)
    | CheckSocket(daemon: Id)
    | ReadPid(daemon: Id)
    | ProbePid(daemon: Id, pid: Pid)
    | ReturnedTrue(daemon: Id)
    | ReturnedOther

  datatype State = State(
    alive: set<Pid>,
    pidFile: Option<PidFile>,
    nextInc: nat,
    socket: Option<SocketFile>,
    daemons: map<Id, Instance>,
    clients: map<Id, Client>)

  // ---- Steps --------------------------------------------------------------

  datatype Step =
    | ProcessStarts(pid: Pid)
    | ProcessDies(pid: Pid)
    | Spawn(daemon: Id, pid: Pid)
    | Act(daemon: Id, ok: bool)
    | Ask(client: Id)
    | ClientAct(client: Id, ok: bool)
    | Ack(daemon: Id, client: Id)

  function Goto(s: State, i: Id, phase: Phase): State
    requires i in s.daemons
  {
    s.(daemons := s.daemons[i := s.daemons[i].(phase := phase)])
  }

  predicate ListenerOpen(s: State, i: Id) {
    i in s.daemons && s.daemons[i].phase in {BindListen, Looping, Closing}
  }

  /** Whether a connect on the socket path reaches a listening daemon. */
  predicate Reaches(s: State, i: Id) {
    s.socket == Some(Socket(Some(i))) && i in s.daemons && s.daemons[i].phase in {Looping, Closing}
  }

  /** One operation of the pid-file claim; ok is false when the operation fails with an I/O
      error (for exists: reports no file). */
  function ClaimStep(s: State, i: Id, ok: bool): State
    requires i in s.daemons
  {
    var me := s.daemons[i];
    match me.phase
    case ClaimExists(n) => Goto(s, i, if ok && s.pidFile.Some? then ClaimRead(n) else ClaimCreate(n))
    case ClaimRead(n) =>
      if !ok then Goto(s, i, Finished)
      else if s.pidFile.None? then Goto(s, i, ClaimUnlink(n, NoFile))
      else
        var f := s.pidFile.value;
        var seen := Saw(f.inc, f.text);
        Goto(s, i, if f.text.Names? then ClaimProbe(n, seen) else ClaimUnlink(n, seen))
    case ClaimProbe(n, seen) =>
      if seen.Saw? && seen.text.Names? && seen.text.pid in s.alive then Goto(s, i, Finished)
      else Goto(s, i, ClaimUnlink(n, seen))
    case ClaimUnlink(n, seen) =>
      if !ok then Goto(s, i, Finished) else Goto(s, i, ClaimCreate(n)).(pidFile := None)
    case ClaimCreate(n) =>
      if !ok then Goto(s, i, Finished)
      else if s.pidFile.Some? then Goto(s, i, if n < 2 then ClaimExists(n + 1) else ClaimGiveUp)
      else
        s.(pidFile := Some(PidFile(s.nextInc, Unwritten)), nextInc := s.nextInc + 1,
           daemons := s.daemons[i := me.(phase := ClaimWrite, file := s.nextInc)])
    case ClaimWrite =>
      if !ok then Goto(s, i, Finished)
      else
        var s' := Goto(s, i, Starting);
        if s.pidFile.Some? && s.pidFile.value.inc == me.file
        then s'.(pidFile := Some(PidFile(me.file, Names(me.pid)))) else s'
    case ClaimGiveUp => Goto(s, i, Finished)
    case _ => s
  }

  function StopAfterBindError(s: State, i: Id): State
    requires i in s.daemons
  {
    Goto(s, i, Stopping)
  }

  /** One operation of bind, of the event loop as a whole, or of the shutdown sequence. */
  function ServeStep(s: State, i: Id, ok: bool): State
    requires i in s.daemons
  {
    var me := s.daemons[i];
    match me.phase
    case Starting => Goto(s, i, if ok then BindExists else Releasing)
    case BindExists => Goto(s, i, if ok && s.socket.Some? then BindStat else BindCreate)
    case BindStat =>
      if ok && s.socket.Some? && s.socket.value.Socket? then Goto(s, i, BindProbe) else StopAfterBindError(s, i)
    case BindProbe =>
      if !ok || (s.socket.Some? && s.socket.value.Socket? && s.socket.value.owner.Some?
                 && Reaches(s, s.socket.value.owner.value))
      then StopAfterBindError(s, i) else Goto(s, i, BindUnlink)
    case BindUnlink =>
      if ok && s.socket.Some? then Goto(s, i, BindCreate).(socket := None) else StopAfterBindError(s, i)
    case BindCreate =>
      if ok && s.socket.None? then Goto(s, i, BindListen).(socket := Some(Socket(Some(i))))
      else StopAfterBindError(s, i)
    case BindListen => if ok then Goto(s, i, Looping) else StopAfterBindError(s, i)
    case Looping => Goto(s, i, Closing)
    case Closing => Goto(s, i, Cleaning)
    case Cleaning => if ok then Goto(s, i, Stopping).(socket := None) else Goto(s, i, Stopping)
    case Stopping => s.(daemons := s.daemons[i := me.(phase := Releasing, stopped := true)])
    case Releasing => if ok then Goto(s, i, Finished).(pidFile := None) else Goto(s, i, Finished)
    case _ => s
  }

  predicate Claiming(phase: Phase) {
    phase.ClaimExists? || phase.ClaimRead? || phase.ClaimProbe? || phase.ClaimUnlink?
    || phase.ClaimCreate? || phase.ClaimWrite? || phase.ClaimGiveUp?
  }

  function ActStep(s: State, i: Id, ok: bool): State
    requires i in s.daemons
  {
    if Claiming(s.daemons[i].phase) then ClaimStep(s, i, ok) else ServeStep(s, i, ok)
  }

  /** One operation of a client's shutdown(): connect, then the wait for socket and process
      to go; ok is false on an error or a timeout. */
  function ClientStep(s: State, c: Id, ok: bool): State
    requires c in s.clients
  {
    var next :=
      match s.clients[c]
      case Connecting =>
        if ok && s.socket.Some? && s.socket.value.Socket? && s.socket.value.owner.Some?
           && Reaches(s, s.socket.value.owner.value)
        then Awaiting(s.socket.value.owner.value) else ReturnedOther
      case Awaiting(d) => ReturnedOther
      case CheckSocket(d) =>
        if !ok then ReturnedOther else if s.socket.None? then ReadPid(d) else CheckSocket(d)
      case ReadPid(d) =>
        if !ok then ReturnedOther
        else if s.pidFile.Some? && s.pidFile.value.text.Names? then ProbePid(d, s.pidFile.value.text.pid)
        else ReturnedTrue(d)
      case ProbePid(d, pid) =>
        if pid !in s.alive then ReturnedTrue(d) else if ok then CheckSocket(d) else ReturnedOther
      case done => done;
    s.(clients := s.clients[c := next])
  }

  predicate Enabled(s: State, step: Step) {
    match step
    case ProcessStarts(pid) => true
    case ProcessDies(pid) => true
    case Spawn(i, pid) => i !in s.daemons && pid in s.alive
    case Act(i, ok) => i in s.daemons
    case Ask(c) => c !in s.clients
    case ClientAct(c, ok) => c in s.clients
    case Ack(i, c) => i in s.daemons && s.daemons[i].phase == Looping && c in s.clients && s.clients[c] == Awaiting(i)
  }

  function Kill(daemons: map<Id, Instance>, pid: Pid): (r: map<Id, Instance>)
    ensures r.Keys == daemons.Keys
  {
    map i | i in daemons ::
      if daemons[i].pid == pid && daemons[i].phase != Finished then daemons[i].(phase := Dead) else daemons[i]
  }

  function Apply(s: State, step: Step): State
    requires Enabled(s, step)
  {
    match step
    case ProcessStarts(pid) => s.(alive := s.alive + {pid})
    case ProcessDies(pid) => s.(alive := s.alive - {pid}, daemons := Kill(s.daemons, pid))
    case Spawn(i, pid) => s.(daemons := s.daemons[i := Instance(pid, ClaimExists(0), 0, false)])
    case Act(i, ok) => ActStep(s, i, ok)
    case Ask(c) => s.(clients := s.clients[c := Connecting])
    case ClientAct(c, ok) => ClientStep(s, c, ok)
    case Ack(i, c) => Goto(s, i, Closing).(clients := s.clients[c := CheckSocket(i)])
  }

  /** No daemon and no client yet; the files may be left over from anything. */
  predicate Init(s: State) {
    && s.daemons == map[] && s.clients == map[]
    && (s.pidFile.Some? ==> s.pidFile.value.inc < s.nextInc)
    && (s.socket.Some? && s.socket.value.Socket? ==> s.socket.value.owner.None?)
  }

  // ---- Runs ---------------------------------------------------------------

  predicate Possible(s: State, steps: seq<Step>)
    decreases |steps|
  {
    steps == [] || (Enabled(s, steps[0]) && Possible(Apply(s, steps[0]), steps[1..]))
  }

  /** The state after the first n steps. */
  function After(s: State, steps: seq<Step>, n: nat): State
    requires n <= |steps| && Possible(s, steps)
    decreases n
  {
    if n == 0 then s else After(Apply(s, steps[0]), steps[1..], n - 1)
  }

  // ---- Who holds what -----------------------------------------------------

  predicate GuardPhase(phase: Phase) {
    phase in {Starting, BindExists, BindStat, BindProbe, BindUnlink, BindCreate, BindListen,
              Looping, Closing, Cleaning, Stopping, Releasing}
  }

  /** claim has returned Ok and the guard has not been dropped. */
  predicate HoldsGuard(s: State, i: Id) {
    i in s.daemons && GuardPhase(s.daemons[i].phase)
  }

  /** i has created a pid file, and is about to write it or holds the guard on it. */
  predicate Active(s: State, i: Id) {
    i in s.daemons && (GuardPhase(s.daemons[i].phase) || s.daemons[i].phase == ClaimWrite)
  }

  predicate UnlinksPidFile(s: State, step: Step) {
    && step.Act? && step.ok && step.daemon in s.daemons && s.daemons[step.daemon].phase.ClaimUnlink?
    && s.pidFile.Some?
  }

  /** The unlink of a claimant that removes the file of an active instance. */
  predicate Steals(s: State, step: Step, victim: Id) {
    UnlinksPidFile(s, step) && Active(s, victim) && s.daemons[victim].file == s.pidFile.value.inc
  }

  /** The unlink of a claimant that removes another file than the one whose pid it read, or
      one it read before the pid was written. */
  predicate Careless(s: State, step: Step) {
    UnlinksPidFile(s, step)
    && var seen := s.daemons[step.daemon].phase.seen;
       seen.NoFile? || seen.inc != s.pidFile.value.inc || seen.text == Unwritten
  }

  ghost predicate StealFree(s: State, steps: seq<Step>)
    requires Possible(s, steps)
  {
    forall n, v | 0 <= n < |steps| :: !Steals(After(s, steps, n), steps[n], v)
  }

  // ---- What every reachable state satisfies -------------------------------

  predicate Dormant(phase: Phase) { phase == Finished || phase == Dead }

  /** The text a file must show while instance m, who created it, is active. */
  function TextOf(m: Instance): Text {
    if m.phase == ClaimWrite then Unwritten else Names(m.pid)
  }

  /** If a claimant read file seen.inc with its text in place, an active creator of that
      file is the process it named; once the probe found that process dead there is none. */
  ghost predicate SeenOk(s: State, phase: Phase) {
    (phase.ClaimProbe? ==> phase.seen.Saw? && phase.seen.text.Names?)
    && ((phase.ClaimProbe? || phase.ClaimUnlink?) && phase.seen.Saw? ==>
      phase.seen.inc < s.nextInc
      && forall j | Active(s, j) && s.daemons[j].file == phase.seen.inc && phase.seen.text != Unwritten ::
           phase.ClaimProbe? && phase.seen.text == Names(s.daemons[j].pid))
  }

  ghost predicate InstanceOk(s: State, i: Id)
    requires i in s.daemons
  {
    var m := s.daemons[i];
    && (!Dormant(m.phase) ==> m.pid in s.alive)
    && SeenOk(s, m.phase)
    && (Active(s, i) ==> m.file < s.nextInc)
    && (Active(s, i) && s.pidFile.Some? && s.pidFile.value.inc == m.file ==> s.pidFile.value.text == TextOf(m))
  }

  ghost predicate Inv(s: State) {
    && (s.pidFile.Some? ==> s.pidFile.value.inc < s.nextInc)
    && (forall i | i in s.daemons :: InstanceOk(s, i))
    && (forall i, j | Active(s, i) && Active(s, j) && s.daemons[i].file == s.daemons[j].file :: i == j)
  }

  predicate ActivePhase(phase: Phase) { GuardPhase(phase) || phase == ClaimWrite }

  /** Replacing one instance, files untouched, without making it active. */
  lemma UpdateKeepsInv(s: State, i: Id, m: Instance)
    requires Inv(s) && i in s.daemons && m.pid == s.daemons[i].pid && m.file == s.daemons[i].file
    requires Dormant(s.daemons[i].phase) ==> Dormant(m.phase)
    requires ActivePhase(m.phase) ==> ActivePhase(s.daemons[i].phase) && TextOf(m) == TextOf(s.daemons[i])
    requires SeenOk(s, m.phase)
    ensures Inv(s.(daemons := s.daemons[i := m]))
  {
    var s' := s.(daemons := s.daemons[i := m]);
    assert InstanceOk(s, i);
    assert forall j | Active(s', j) :: Active(s, j) && s'.daemons[j].file == s.daemons[j].file
                                       && s'.daemons[j].pid == s.daemons[j].pid;
    forall j | j in s'.daemons ensures InstanceOk(s', j) {
      assert InstanceOk(s, j);
    }
  }

  lemma RemovePidFileKeepsInv(s: State)
    requires Inv(s)
    ensures Inv(s.(pidFile := None))
  {
    var s' := s.(pidFile := None);
    assert forall j :: Active(s', j) <==> Active(s, j);
    forall j | j in s'.daemons ensures InstanceOk(s', j) {
      assert InstanceOk(s, j);
    }
  }

  lemma CreateKeepsInv(s: State, i: Id)
    requires Inv(s) && i in s.daemons && s.daemons[i].phase.ClaimCreate? && s.pidFile.None?
    ensures Inv(ClaimStep(s, i, true))
  {
    var s' := ClaimStep(s, i, true);
    assert InstanceOk(s, i);
    assert forall j | Active(s', j) && j != i :: Active(s, j) && s'.daemons[j] == s.daemons[j];
    forall j | j in s'.daemons ensures InstanceOk(s', j) {
      assert InstanceOk(s, j);
    }
    forall j | Active(s', j) && j != i ensures s'.daemons[j].file < s.nextInc {
      assert InstanceOk(s, j);
    }
  }

  lemma WriteKeepsInv(s: State, i: Id)
    requires Inv(s) && i in s.daemons && s.daemons[i].phase == ClaimWrite
    ensures Inv(ClaimStep(s, i, true))
  {
    var s' := ClaimStep(s, i, true);
    assert InstanceOk(s, i);
    assert forall j | Active(s', j) :: Active(s, j) && s'.daemons[j].file == s.daemons[j].file
                                       && s'.daemons[j].pid == s.daemons[j].pid;
    forall j | j in s'.daemons ensures InstanceOk(s', j) {
      assert InstanceOk(s, j);
    }
  }

  lemma ClaimStepKeepsInv(s: State, i: Id, ok: bool)
    requires Inv(s) && i in s.daemons && Claiming(s.daemons[i].phase)
    ensures Inv(ClaimStep(s, i, ok))
  {
    var m, s' := s.daemons[i], ClaimStep(s, i, ok);
    assert InstanceOk(s, i);
    if ok && m.phase.ClaimCreate? && s.pidFile.None? {
      CreateKeepsInv(s, i);
    } else if ok && m.phase == ClaimWrite {
      WriteKeepsInv(s, i);
    } else {
      ReadOrProbeOk(s, i, ok);
      UpdateKeepsInv(s, i, s'.daemons[i]);
      if ok && m.phase.ClaimUnlink? { RemovePidFileKeepsInv(Goto(s, i, s'.daemons[i].phase)); }
    }
  }

  /** What a read or a probe leaves the claimant believing is true. */
  lemma ReadOrProbeOk(s: State, i: Id, ok: bool)
    requires Inv(s) && i in s.daemons && Claiming(s.daemons[i].phase)
    ensures SeenOk(s, ClaimStep(s, i, ok).daemons[i].phase)
  {
    assert InstanceOk(s, i);
    forall j | Active(s, j) ensures s.daemons[j].pid in s.alive
      && (s.pidFile.Some? && s.pidFile.value.inc == s.daemons[j].file ==> s.pidFile.value.text == TextOf(s.daemons[j]))
    {
      assert InstanceOk(s, j);
    }
  }

  lemma ServeStepShape(s: State, i: Id, ok: bool)
    requires i in s.daemons && !Claiming(s.daemons[i].phase)
    ensures var m, s' := s.daemons[i], ServeStep(s, i, ok);
      && i in s'.daemons && var m' := s'.daemons[i];
      && s' == s.(daemons := s.daemons[i := m'], pidFile := s'.pidFile, socket := s'.socket)
      && s'.pidFile == (if ok && m.phase == Releasing then None else s.pidFile)
      && m'.pid == m.pid && m'.file == m.file && !Claiming(m'.phase)
      && (Dormant(m.phase) ==> m' == m)
      && (GuardPhase(m'.phase) ==> GuardPhase(m.phase))
  {}

  lemma ServeStepKeepsInv(s: State, i: Id, ok: bool)
    requires Inv(s) && i in s.daemons && !Claiming(s.daemons[i].phase)
    ensures Inv(ServeStep(s, i, ok))
  {
    ServeStepShape(s, i, ok);
    var m, s' := s.daemons[i], ServeStep(s, i, ok);
    UpdateKeepsInv(s, i, s'.daemons[i]);
    var t := s.(daemons := s.daemons[i := s'.daemons[i]]);
    if s'.pidFile != s.pidFile { RemovePidFileKeepsInv(t); }
    SocketIrrelevant(t.(pidFile := s'.pidFile), s'.socket);
  }

  lemma SocketIrrelevant(s: State, socket: Option<SocketFile>)
    requires Inv(s)
    ensures Inv(s.(socket := socket))
  {
    var s' := s.(socket := socket);
    assert forall j :: Active(s', j) <==> Active(s, j);
    forall j | j in s'.daemons ensures InstanceOk(s', j) {
      assert InstanceOk(s, j);
    }
  }

  lemma ClientsIrrelevant(s: State, clients: map<Id, Client>)
    requires Inv(s)
    ensures Inv(s.(clients := clients))
  {
    var s' := s.(clients := clients);
    assert forall j :: Active(s', j) <==> Active(s, j);
    forall j | j in s'.daemons ensures InstanceOk(s', j) {
      assert InstanceOk(s, j);
    }
  }

  lemma ProcessStepKeepsInv(s: State, step: Step)
    requires Inv(s) && Enabled(s, step) && (step.ProcessStarts? || step.ProcessDies? || step.Spawn?)
    ensures Inv(Apply(s, step))
  {
    var s' := Apply(s, step);
    assert forall j | Active(s', j) :: Active(s, j) && s'.daemons[j] == s.daemons[j];
    forall j | j in s'.daemons ensures InstanceOk(s', j) {
      if j in s.daemons { assert InstanceOk(s, j); }
    }
  }

  lemma StepKeepsInv(s: State, step: Step)
    requires Inv(s) && Enabled(s, step)
    ensures Inv(Apply(s, step))
  {
    match step
    case Act(i, ok) =>
      if Claiming(s.daemons[i].phase) { ClaimStepKeepsInv(s, i, ok); } else { ServeStepKeepsInv(s, i, ok); }
    case Ack(i, c) =>
      assert InstanceOk(s, i);
      UpdateKeepsInv(s, i, s.daemons[i].(phase := Closing));
      ClientsIrrelevant(Goto(s, i, Closing), s.clients[c := CheckSocket(i)]);
    case Ask(c) => ClientsIrrelevant(s, Apply(s, step).clients);
    case ClientAct(c, ok) => ClientsIrrelevant(s, Apply(s, step).clients);
    case _ => ProcessStepKeepsInv(s, step);
  }
}
