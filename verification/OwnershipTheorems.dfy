/** What holds over every run of the ownership state machine: who is to blame for two live
    guards, and what follows as long as no claimant has stolen a live pid file. */
module OwnershipTheorems {
  import opened Wrappers
  import opened Ownership

  // ---- Runs ---------------------------------------------------------------

  lemma {:induction false} AfterSnoc(s: State, steps: seq<Step>, n: nat)
    requires n < |steps| && Possible(s, steps)
    ensures Enabled(After(s, steps, n), steps[n])
    ensures After(s, steps, n + 1) == Apply(After(s, steps, n), steps[n])
    decreases n
  {
    if n > 0 {
      AfterSnoc(Apply(s, steps[0]), steps[1..], n - 1);
    }
  }

  lemma InitInv(s: State)
    requires Init(s)
    ensures Inv(s)
  {}

  lemma {:induction false} InvAlways(s: State, steps: seq<Step>, n: nat)
    requires Inv(s) && Possible(s, steps) && n <= |steps|
    ensures Inv(After(s, steps, n))
    decreases n
  {
    if n > 0 {
      InvAlways(s, steps, n - 1);
      AfterSnoc(s, steps, n - 1);
      StepKeepsInv(After(s, steps, n - 1), steps[n - 1]);
    }
  }

  // ---- Blame --------------------------------------------------------------

  /** In every reachable state, whoever removes a live file has been careless: it read
      another file, or this one before its pid was written. */
  lemma StealsAreCareless(s: State, step: Step, victim: Id)
    requires Inv(s) && Steals(s, step, victim)
    ensures Careless(s, step)
  {
    assert InstanceOk(s, step.daemon);
  }

  /** Every active instance owns the file on disk. */
  ghost predicate Exclusive(s: State) {
    forall i | Active(s, i) :: s.pidFile.Some? && s.pidFile.value.inc == s.daemons[i].file
  }

  lemma AtMostOne(s: State, i: Id, j: Id)
    requires Inv(s) && Exclusive(s) && Active(s, i) && Active(s, j)
    ensures i == j
  {}

  lemma UnlinkKeepsExclusive(s: State, i: Id)
    requires Exclusive(s) && i in s.daemons && s.daemons[i].phase.ClaimUnlink?
    requires forall v :: !Steals(s, Act(i, true), v)
    ensures Exclusive(ClaimStep(s, i, true))
  {
    var s' := ClaimStep(s, i, true);
    forall v ensures !Active(s', v) {
      assert !Steals(s, Act(i, true), v);
      assert v != i && v in s.daemons ==> s'.daemons[v] == s.daemons[v];
    }
  }

  lemma CreateKeepsExclusive(s: State, i: Id)
    requires Exclusive(s) && i in s.daemons && s.daemons[i].phase.ClaimCreate? && s.pidFile.None?
    ensures Exclusive(ClaimStep(s, i, true))
  {
    assert forall v | v != i :: !Active(ClaimStep(s, i, true), v) by {
      assert forall v :: !Active(s, v);
    }
  }

  /** Every other operation of a claim leaves the file at the path in place, if not its text. */
  lemma OtherClaimShape(s: State, i: Id, ok: bool)
    requires i in s.daemons && Claiming(s.daemons[i].phase)
    requires !(ok && s.daemons[i].phase.ClaimUnlink?) && !(ok && s.daemons[i].phase.ClaimCreate? && s.pidFile.None?)
    ensures var m, s' := s.daemons[i], ClaimStep(s, i, ok);
      && i in s'.daemons && s'.daemons == s.daemons[i := s'.daemons[i]]
      && s'.daemons[i].file == m.file && (ActivePhase(s'.daemons[i].phase) ==> ActivePhase(m.phase))
      && (s.pidFile.Some? ==> s'.pidFile.Some? && s'.pidFile.value.inc == s.pidFile.value.inc)
  {}

  lemma ClaimKeepsExclusive(s: State, i: Id, ok: bool)
    requires Exclusive(s) && i in s.daemons && Claiming(s.daemons[i].phase)
    requires forall v :: !Steals(s, Act(i, ok), v)
    ensures Exclusive(ClaimStep(s, i, ok))
  {
    if ok && s.daemons[i].phase.ClaimUnlink? {
      UnlinkKeepsExclusive(s, i);
    } else if ok && s.daemons[i].phase.ClaimCreate? && s.pidFile.None? {
      CreateKeepsExclusive(s, i);
    } else {
      OtherClaimShape(s, i, ok);
      var s' := ClaimStep(s, i, ok);
      assert forall v | Active(s', v) :: Active(s, v) && s'.daemons[v].file == s.daemons[v].file;
    }
  }

  lemma ServeKeepsExclusive(s: State, i: Id, ok: bool)
    requires Inv(s) && Exclusive(s) && i in s.daemons && !Claiming(s.daemons[i].phase)
    ensures Exclusive(ServeStep(s, i, ok))
  {
    var m, s' := s.daemons[i], ServeStep(s, i, ok);
    ServeStepShape(s, i, ok);
    assert forall v | Active(s', v) :: Active(s, v) && s'.daemons[v].file == s.daemons[v].file;
    if s'.pidFile != s.pidFile {
      forall v | Active(s, v) ensures !Active(s', v) {
        AtMostOne(s, i, v);
      }
    }
  }

  /** Steps of processes and clients, and an acknowledgement, leave the files and make nobody active. */
  lemma OtherStepShape(s: State, step: Step)
    requires Enabled(s, step) && !step.Act?
    ensures var s' := Apply(s, step);
      s'.pidFile == s.pidFile && forall v | Active(s', v) :: Active(s, v) && s'.daemons[v].file == s.daemons[v].file
  {}

  lemma StepKeepsExclusive(s: State, step: Step)
    requires Inv(s) && Exclusive(s) && Enabled(s, step) && forall v :: !Steals(s, step, v)
    ensures Exclusive(Apply(s, step))
  {
    if step.Act? {
      if Claiming(s.daemons[step.daemon].phase) {
        ClaimKeepsExclusive(s, step.daemon, step.ok);
      } else {
        ServeKeepsExclusive(s, step.daemon, step.ok);
      }
    } else {
      OtherStepShape(s, step);
    }
  }

  /** Two guards live at once: some earlier step was a claimant's unlink that removed the
      file of an active instance, and that claimant had read another file, or this one
      before its pid was written. */
  lemma {:induction false} Blame(s: State, steps: seq<Step>, n: nat, i: Id, j: Id)
    requires Init(s) && Possible(s, steps) && n <= |steps|
    requires i != j && HoldsGuard(After(s, steps, n), i) && HoldsGuard(After(s, steps, n), j)
    ensures exists k, v ::
              0 <= k < n && Steals(After(s, steps, k), steps[k], v) && Careless(After(s, steps, k), steps[k])
  {
    if forall k, v | 0 <= k < n :: !Steals(After(s, steps, k), steps[k], v) {
      ExclusiveUntil(s, steps, n);
      InitInv(s);
      InvAlways(s, steps, n);
      AtMostOne(After(s, steps, n), i, j);
    } else {
      var k, v :| 0 <= k < n && Steals(After(s, steps, k), steps[k], v);
      InitInv(s);
      InvAlways(s, steps, k);
      StealsAreCareless(After(s, steps, k), steps[k], v);
    }
  }

  lemma {:induction false} ExclusiveUntil(s: State, steps: seq<Step>, n: nat)
    requires Init(s) && Possible(s, steps) && n <= |steps|
    requires forall k, v | 0 <= k < n :: !Steals(After(s, steps, k), steps[k], v)
    ensures Exclusive(After(s, steps, n))
    decreases n
  {
    if n > 0 {
      ExclusiveUntil(s, steps, n - 1);
      InitInv(s);
      InvAlways(s, steps, n - 1);
      AfterSnoc(s, steps, n - 1);
      StepKeepsExclusive(After(s, steps, n - 1), steps[n - 1]);
    }
  }

  /** Conversely a theft always can become two live guards: in any reachable state the thief
      only has to create and write its file, and the victim, if it has not yet, to write its. */
  lemma StealBreaksExclusion(s: State, thief: Id, victim: Id) returns (rest: seq<Step>)
    requires Inv(s) && Steals(s, Act(thief, true), victim)
    ensures Possible(s, [Act(thief, true)] + rest)
    ensures var end := After(s, [Act(thief, true)] + rest, 1 + |rest|);
      thief != victim && HoldsGuard(end, thief) && HoldsGuard(end, victim)
  {
    var t := Act(thief, true);
    ThiefClaims(s, thief, victim);
    Run3(s, t, t, t);
    if s.daemons[victim].phase == ClaimWrite {
      rest := [t, t, Act(victim, true)];
      VictimClaims(Apply(Apply(Apply(s, t), t), t), thief, victim);
      Extend(s, [t, t, t], Act(victim, true));
      assert [t] + rest == [t, t, t] + [Act(victim, true)];
    } else {
      rest := [t, t];
      assert [t] + rest == [t, t, t];
    }
  }

  lemma ThiefClaims(s: State, thief: Id, victim: Id)
    requires Inv(s) && Steals(s, Act(thief, true), victim)
    ensures var t := Act(thief, true);
      && Enabled(s, t) && Enabled(Apply(s, t), t) && Enabled(Apply(Apply(s, t), t), t)
      && var s3 := Apply(Apply(Apply(s, t), t), t);
         thief != victim && HoldsGuard(s3, thief) && victim in s3.daemons && s3.daemons[victim] == s.daemons[victim]
  {
    var s1 := ClaimStep(s, thief, true);
    var s2 := ClaimStep(s1, thief, true);
    assert s1.pidFile.None? && s1.daemons[thief].phase.ClaimCreate?;
    assert s2.daemons[thief].phase == ClaimWrite;
  }

  lemma VictimClaims(s: State, thief: Id, victim: Id)
    requires HoldsGuard(s, thief) && thief != victim && victim in s.daemons && s.daemons[victim].phase == ClaimWrite
    ensures var s' := Apply(s, Act(victim, true)); HoldsGuard(s', thief) && HoldsGuard(s', victim)
  {}

  lemma {:induction false} Extend(s: State, steps: seq<Step>, step: Step)
    requires Possible(s, steps) && Enabled(After(s, steps, |steps|), step)
    ensures Possible(s, steps + [step])
    ensures After(s, steps + [step], |steps| + 1) == Apply(After(s, steps, |steps|), step)
    decreases |steps|
  {
    if steps == [] {
      assert (steps + [step])[1..] == [];
    } else {
      Extend(Apply(s, steps[0]), steps[1..], step);
      assert (steps + [step])[1..] == steps[1..] + [step];
    }
  }

  lemma Run3(s: State, a: Step, b: Step, c: Step)
    requires Enabled(s, a) && Enabled(Apply(s, a), b) && Enabled(Apply(Apply(s, a), b), c)
    ensures Possible(s, [a, b, c]) && After(s, [a, b, c], 3) == Apply(Apply(Apply(s, a), b), c)
  {
    Extend(s, [], a);
    assert [] + [a] == [a];
    Extend(s, [a], b);
    assert [a] + [b] == [a, b];
    Extend(s, [a, b], c);
    assert [a, b] + [c] == [a, b, c];
  }

  function Empty(): State {
    State({}, None, 0, None, map[], map[])
  }

  /** It does happen: B reads A's pid file between A's create and A's write. */
  lemma TwoGuardsReachable() returns (steps: seq<Step>)
    ensures Init(Empty()) && Possible(Empty(), steps)
    ensures HoldsGuard(After(Empty(), steps, |steps|), 0) && HoldsGuard(After(Empty(), steps, |steps|), 1)
  {
    var first: seq<Step> := BeforeTheft();
    var rest := FromTheft(After(Empty(), first, |first|));
    Append(Empty(), first, rest);
    steps := first + rest;
  }

  lemma FromTheft(s: State) returns (rest: seq<Step>)
    requires Inv(s) && Steals(s, Act(1, true), 0)
    ensures Possible(s, rest)
    ensures HoldsGuard(After(s, rest, |rest|), 0) && HoldsGuard(After(s, rest, |rest|), 1)
  {
    var more := StealBreaksExclusion(s, 1, 0);
    rest := [Act(1, true)] + more;
  }

  ghost predicate Leads(s: State, steps: seq<Step>, t: State) {
    Possible(s, steps) && After(s, steps, |steps|) == t
  }

  lemma Then(s: State, steps: seq<Step>, t: State, step: Step) returns (steps': seq<Step>)
    requires Leads(s, steps, t) && Enabled(t, step)
    ensures Leads(s, steps', Apply(t, step))
  {
    Extend(s, steps, step);
    steps' := steps + [step];
  }

  lemma BeforeTheft() returns (steps: seq<Step>)
    ensures Possible(Empty(), steps) && Inv(After(Empty(), steps, |steps|))
    ensures Steals(After(Empty(), steps, |steps|), Act(1, true), 0)
  {
    var t;
    steps, t := TwoClaimants();
    steps := Then(Empty(), steps, t, Act(0, true));
    t := Apply(t, Act(0, true));
    assert t.daemons[0].phase == ClaimCreate(0);
    steps := Then(Empty(), steps, t, Act(0, true));
    t := Apply(t, Act(0, true));
    assert t.daemons[0].phase == ClaimWrite && t.pidFile == Some(PidFile(0, Unwritten));
    steps := Then(Empty(), steps, t, Act(1, true));
    t := Apply(t, Act(1, true));
    assert t.daemons[1].phase == ClaimRead(0);
    steps := Then(Empty(), steps, t, Act(1, true));
    t := Apply(t, Act(1, true));
    assert t.daemons[1].phase == ClaimUnlink(0, Saw(0, Unwritten));
    InitInv(Empty());
    InvAlways(Empty(), steps, |steps|);
  }

  lemma TwoClaimants() returns (steps: seq<Step>, t: State)
    ensures Leads(Empty(), steps, t)
    ensures t.pidFile == None && t.nextInc == 0 && 0 in t.daemons && 1 in t.daemons
    ensures t.daemons[0] == Instance(7, ClaimExists(0), 0, false)
    ensures t.daemons[1] == Instance(8, ClaimExists(0), 0, false)
  {
    t := Empty();
    steps := Then(Empty(), [], t, ProcessStarts(7));
    t := Apply(t, ProcessStarts(7));
    steps := Then(Empty(), steps, t, ProcessStarts(8));
    t := Apply(t, ProcessStarts(8));
    steps := Then(Empty(), steps, t, Spawn(0, 7));
    t := Apply(t, Spawn(0, 7));
    steps := Then(Empty(), steps, t, Spawn(1, 8));
    t := Apply(t, Spawn(1, 8));
  }

  lemma {:induction false} Append(s: State, a: seq<Step>, b: seq<Step>)
    requires Possible(s, a) && Possible(After(s, a, |a|), b)
    ensures Possible(s, a + b) && After(s, a + b, |a| + |b|) == After(After(s, a, |a|), b, |b|)
    decreases |a|
  {
    if a == [] {
      assert a + b == b;
    } else {
      Append(Apply(s, a[0]), a[1..], b);
      assert (a + b)[1..] == a[1..] + b;
    }
  }

  // ---- What one participant did in a run ----------------------------------

  datatype Actor = TheDaemon(daemon: Id) | TheClient(client: Id)

  predicate ActsFor(who: Actor, step: Step) {
    match who
    case TheDaemon(i) => (step.Act? || step.Ack?) && step.daemon == i
    case TheClient(c) => step.ClientAct? && step.client == c
  }

  /** A step, and the state in which it was taken. */
  datatype Taken = Taken(before: State, step: Step)

  /** The steps of a run that one participant took. */
  function Trail(who: Actor, s: State, steps: seq<Step>): seq<Taken>
    requires Possible(s, steps)
    decreases |steps|
  {
    if steps == [] then []
    else
      (if ActsFor(who, steps[0]) then [Taken(s, steps[0])] else []) + Trail(who, Apply(s, steps[0]), steps[1..])
  }

  lemma {:induction false} TrailSnoc(who: Actor, s: State, steps: seq<Step>, step: Step)
    requires Possible(s, steps) && Enabled(After(s, steps, |steps|), step)
    ensures Possible(s, steps + [step])
    ensures Trail(who, s, steps + [step])
         == Trail(who, s, steps) + (if ActsFor(who, step) then [Taken(After(s, steps, |steps|), step)] else [])
    decreases |steps|
  {
    if steps == [] {
      assert (steps + [step])[1..] == [];
    } else {
      TrailSnoc(who, Apply(s, steps[0]), steps[1..], step);
      assert (steps + [step])[1..] == steps[1..] + [step];
    }
  }

  // ---- Sockets and shutdown, while guards are exclusive -------------------

  predicate BoundPhase(phase: Phase) { phase in {BindListen, Looping, Closing, Cleaning} }

  /** A daemon that has bound the socket and not yet removed it still finds its own file there. */
  ghost predicate SocketsOwned(s: State) {
    forall i | i in s.daemons && BoundPhase(s.daemons[i].phase) :: s.socket == Some(Socket(Some(i)))
  }

  lemma ServeSocketShape(s: State, i: Id, ok: bool)
    requires i in s.daemons && !Claiming(s.daemons[i].phase)
    requires BoundPhase(s.daemons[i].phase) ==> s.socket == Some(Socket(Some(i)))
    ensures var m, s' := s.daemons[i], ServeStep(s, i, ok);
      && i in s'.daemons && s'.daemons == s.daemons[i := s'.daemons[i]]
      && (s'.socket != s.socket ==> GuardPhase(m.phase))
      && (BoundPhase(s'.daemons[i].phase) ==> s'.socket == Some(Socket(Some(i))))
  {}

  /** Only bind, cleanup and the serving phases between them touch the socket. */
  lemma OtherStepSockets(s: State, step: Step)
    requires Enabled(s, step) && !(step.Act? && !Claiming(s.daemons[step.daemon].phase))
    ensures var s' := Apply(s, step);
      && s'.socket == s.socket
      && forall j | j in s'.daemons && BoundPhase(s'.daemons[j].phase) ::
           j in s.daemons && BoundPhase(s.daemons[j].phase)
  {
    match step
    case Act(i, ok) => ClaimPhasesOnly(s, i, ok);
    case _ =>
  }

  lemma ClaimPhasesOnly(s: State, i: Id, ok: bool)
    requires i in s.daemons && Claiming(s.daemons[i].phase)
    ensures var s' := ClaimStep(s, i, ok);
      && s'.socket == s.socket
      && i in s'.daemons && s'.daemons == s.daemons[i := s'.daemons[i]] && !BoundPhase(s'.daemons[i].phase)
  {}

  /** At most one guard is live. */
  ghost predicate OneGuard(s: State) {
    forall i, j | HoldsGuard(s, i) && HoldsGuard(s, j) :: i == j
  }

  lemma StepKeepsSockets(s: State, step: Step)
    requires OneGuard(s) && SocketsOwned(s) && Enabled(s, step)
    ensures SocketsOwned(Apply(s, step))
  {
    if step.Act? && !Claiming(s.daemons[step.daemon].phase) {
      ServeSocketShape(s, step.daemon, step.ok);
      var s' := Apply(s, step);
      if s'.socket != s.socket {
        forall j | j in s.daemons && BoundPhase(s.daemons[j].phase) ensures j == step.daemon {
          assert HoldsGuard(s, j) && HoldsGuard(s, step.daemon);
        }
      }
    } else {
      OtherStepSockets(s, step);
    }
  }

  lemma {:induction false} SocketsAlways(s: State, steps: seq<Step>, n: nat)
    requires Init(s) && Possible(s, steps) && n <= |steps|
    requires forall k | 0 <= k <= n :: OneGuard(After(s, steps, k))
    ensures SocketsOwned(After(s, steps, n))
    decreases n
  {
    if n > 0 {
      SocketsAlways(s, steps, n - 1);
      AfterSnoc(s, steps, n - 1);
      StepKeepsSockets(After(s, steps, n - 1), steps[n - 1]);
    }
  }

  predicate Finishing(m: Instance) { m.phase in {Closing, Cleaning, Stopping} || Over(m) }

  /** on_stop has run, or the process is dead. */
  predicate Over(m: Instance) { m.stopped || m.phase == Dead }

  /** What a client in shutdown() may rely on about the daemon that acknowledged it. */
  ghost predicate ClientOk(s: State, c: Client) {
    match c
    case CheckSocket(d) => d in s.daemons && Finishing(s.daemons[d])
    case ReadPid(d) => d in s.daemons && Finishing(s.daemons[d])
    case ProbePid(d, pid) => d in s.daemons && Finishing(s.daemons[d])
        && (Over(s.daemons[d]) || pid == s.daemons[d].pid)
    case ReturnedTrue(d) => d in s.daemons && Over(s.daemons[d])
    case _ => true
  }

  ghost predicate ClientsOk(s: State) {
    forall c | c in s.clients :: ClientOk(s, s.clients[c])
  }

  /** Instances never come back: what is finishing stays so, what is over stays over. */
  lemma OverStays(s: State, step: Step, d: Id)
    requires Enabled(s, step) && d in s.daemons
    ensures var s' := Apply(s, step);
      && d in s'.daemons && s'.daemons[d].pid == s.daemons[d].pid
      && (Over(s.daemons[d]) ==> Over(s'.daemons[d]))
      && (Finishing(s.daemons[d]) ==> Finishing(s'.daemons[d]))
  {
    if step.Act? && !Claiming(s.daemons[step.daemon].phase) {
      ServeStepShape(s, step.daemon, step.ok);
    }
  }

  lemma ClientStepOk(s: State, c: Id, ok: bool)
    requires Inv(s) && Exclusive(s) && c in s.clients && ClientOk(s, s.clients[c])
    ensures ClientOk(s, ClientStep(s, c, ok).clients[c])
  {
    match s.clients[c]
    case ReadPid(d) =>
      assert InstanceOk(s, d);
      if !Over(s.daemons[d]) { assert Active(s, d); }
    case ProbePid(d, pid) =>
      assert InstanceOk(s, d);
    case _ =>
  }

  lemma StepKeepsClients(s: State, step: Step)
    requires Inv(s) && Exclusive(s) && ClientsOk(s) && Enabled(s, step)
    ensures ClientsOk(Apply(s, step))
  {
    var s' := Apply(s, step);
    forall c | c in s'.clients ensures ClientOk(s', s'.clients[c]) {
      if c in s.clients && s'.clients[c] == s.clients[c] {
        assert ClientOk(s, s.clients[c]);
        match s.clients[c]
        case CheckSocket(d) => OverStays(s, step, d);
        case ReadPid(d) => OverStays(s, step, d);
        case ProbePid(d, pid) => OverStays(s, step, d);
        case ReturnedTrue(d) => OverStays(s, step, d);
        case _ =>
      } else if step.ClientAct? {
        ClientStepOk(s, c, step.ok);
      }
    }
  }

  ghost predicate Safe(s: State) {
    Inv(s) && Exclusive(s) && ClientsOk(s)
  }

  lemma {:induction false} SafeAlways(s: State, steps: seq<Step>, n: nat)
    requires Init(s) && Possible(s, steps) && StealFree(s, steps) && n <= |steps|
    ensures Safe(After(s, steps, n))
    decreases n
  {
    InitInv(s);
    if n > 0 {
      SafeAlways(s, steps, n - 1);
      AfterSnoc(s, steps, n - 1);
      var t := After(s, steps, n - 1);
      StepKeepsInv(t, steps[n - 1]);
      StepKeepsExclusive(t, steps[n - 1]);
      StepKeepsClients(t, steps[n - 1]);
    }
  }

  /** Runs without theft: at every moment at most one guard is live, and the pid file is the
      one its holder created and shows the holder's pid. */
  lemma GuardExclusion(s: State, steps: seq<Step>, n: nat, i: Id)
    requires Init(s) && Possible(s, steps) && StealFree(s, steps) && n <= |steps|
    requires HoldsGuard(After(s, steps, n), i)
    ensures var t := After(s, steps, n);
      && t.pidFile == Some(PidFile(t.daemons[i].file, Names(t.daemons[i].pid)))
      && forall j | HoldsGuard(t, j) :: j == i
  {
    SafeAlways(s, steps, n);
    var t := After(s, steps, n);
    assert InstanceOk(t, i);
    forall j | HoldsGuard(t, j) ensures j == i { AtMostOne(t, i, j); }
  }

  /** As long as there was at most one live guard: bind never removes the socket of an open
      listener, and cleanup removes the daemon's own socket and no other. */
  lemma SocketSafety(s: State, steps: seq<Step>, n: nat, i: Id)
    requires Init(s) && Possible(s, steps) && n < |steps|
    requires forall k | 0 <= k <= n :: OneGuard(After(s, steps, k))
    requires steps[n] == Act(i, true)
    ensures i in After(s, steps, n).daemons && SparesOthers(After(s, steps, n), i)
  {
    SocketsAlways(s, steps, n);
    AfterSnoc(s, steps, n);
    var t := After(s, steps, n);
    if t.daemons[i].phase == BindUnlink {
      forall o | ListenerOpen(t, o) ensures o == i {
        assert HoldsGuard(t, o) && HoldsGuard(t, i);
      }
    }
  }

  /** What the next operation of daemon i may do to the socket file. */
  predicate SparesOthers(s: State, i: Id)
    requires i in s.daemons
  {
    && (s.daemons[i].phase == BindUnlink && s.socket.Some? && s.socket.value.Socket? && s.socket.value.owner.Some? ==>
          !ListenerOpen(s, s.socket.value.owner.value))
    && (s.daemons[i].phase == Cleaning ==> s.socket == Some(Socket(Some(i))))
  }

  /** In particular in runs without theft. */
  lemma SocketSafetyWithoutTheft(s: State, steps: seq<Step>, n: nat, i: Id)
    requires Init(s) && Possible(s, steps) && StealFree(s, steps) && n < |steps|
    requires steps[n] == Act(i, true)
    ensures i in After(s, steps, n).daemons && SparesOthers(After(s, steps, n), i)
  {
    forall k | 0 <= k <= n ensures OneGuard(After(s, steps, k)) {
      forall j | HoldsGuard(After(s, steps, k), j) { GuardExclusion(s, steps, k, j); }
    }
    SocketSafety(s, steps, n, i);
  }

  /** Runs without theft: when shutdown() returns true, the daemon that acknowledged it has
      run on_stop or its process is dead, whatever other daemons did meanwhile. Exclusion of guards
      alone would not do, see ShutdownNeedsTheftFreedom. */
  lemma ShutdownTrue(s: State, steps: seq<Step>, n: nat, c: Id, d: Id)
    requires Init(s) && Possible(s, steps) && StealFree(s, steps) && n <= |steps|
    requires c in After(s, steps, n).clients && After(s, steps, n).clients[c] == ReturnedTrue(d)
    ensures var t := After(s, steps, n);
      d in t.daemons && (t.daemons[d].stopped || t.daemons[d].phase == Dead)
  {
    SafeAlways(s, steps, n);
  }

  // ---- Shutdown needs more than exclusion ---------------------------------

  /** A run to t in which at most one guard was live at any moment. */
  ghost predicate LeadsGuarded(steps: seq<Step>, t: State) {
    Leads(Empty(), steps, t) && forall k | 0 <= k <= |steps| :: OneGuard(After(Empty(), steps, k))
  }

  lemma {:induction false} AfterPrefix(s: State, steps: seq<Step>, step: Step, k: nat)
    requires Possible(s, steps) && Possible(s, steps + [step]) && k <= |steps|
    ensures After(s, steps + [step], k) == After(s, steps, k)
    decreases k
  {
    if k > 0 {
      assert (steps + [step])[1..] == steps[1..] + [step];
      AfterPrefix(Apply(s, steps[0]), steps[1..], step, k - 1);
    }
  }

  /** Daemon 1 never holds a guard in the run below. */
  predicate OnlyZero(t: State, m: Instance, n: Instance) {
    t.daemons == map[0 := m, 1 := n] && !GuardPhase(n.phase)
  }

  lemma GuardedStep(steps: seq<Step>, t: State, step: Step) returns (steps': seq<Step>, t': State)
    requires LeadsGuarded(steps, t) && Enabled(t, step) && OneGuard(Apply(t, step))
    ensures LeadsGuarded(steps', t') && t' == Apply(t, step)
  {
    Extend(Empty(), steps, step);
    steps', t' := steps + [step], Apply(t, step);
    forall k | 0 <= k <= |steps'| ensures OneGuard(After(Empty(), steps', k)) {
      if k <= |steps| { AfterPrefix(Empty(), steps, step, k); }
    }
  }

  lemma GuardedThen(steps: seq<Step>, t: State, step: Step, m: Instance, n: Instance)
    returns (steps': seq<Step>, t': State)
    requires LeadsGuarded(steps, t) && Enabled(t, step) && OnlyZero(Apply(t, step), m, n)
    ensures LeadsGuarded(steps', t') && t' == Apply(t, step)
  {
    steps', t' := GuardedStep(steps, t, step);
  }

  lemma Spawned() returns (steps: seq<Step>, t: State)
    ensures LeadsGuarded(steps, t) && t.alive == {7, 8} && t.nextInc == 0
    ensures OnlyZero(t, Instance(7, ClaimExists(0), 0, false), Instance(8, ClaimExists(0), 0, false))
    ensures t.pidFile == None && t.socket == None && t.clients == map[]
  {
    steps, t := [], Empty();
    assert LeadsGuarded(steps, t);
    steps, t := GuardedStep(steps, t, ProcessStarts(7));
    steps, t := GuardedStep(steps, t, ProcessStarts(8));
    steps, t := GuardedStep(steps, t, Spawn(0, 7));
    steps, t := GuardedStep(steps, t, Spawn(1, 8));
  }

  /** Daemon 1 has read the pid file of daemon 0 before the pid was written. */
  lemma ReadEarly() returns (steps: seq<Step>, t: State)
    ensures LeadsGuarded(steps, t) && t.alive == {7, 8}
    ensures OnlyZero(t, Instance(7, ClaimWrite, 0, false), Instance(8, ClaimUnlink(0, Saw(0, Unwritten)), 0, false))
    ensures t.pidFile == Some(PidFile(0, Unwritten)) && t.socket == None && t.clients == map[]
  {
    steps, t := Spawned();
    var b := Instance(8, ClaimExists(0), 0, false);
    steps, t := GuardedThen(steps, t, Act(0, true), Instance(7, ClaimCreate(0), 0, false), b);
    var a := Instance(7, ClaimWrite, 0, false);
    steps, t := GuardedThen(steps, t, Act(0, true), a, b);
    steps, t := GuardedThen(steps, t, Act(1, true), a, b.(phase := ClaimRead(0)));
    steps, t := GuardedThen(steps, t, Act(1, true), a, b.(phase := ClaimUnlink(0, Saw(0, Unwritten))));
  }

  /** Daemon 0 holds the guard, but its file is gone: daemon 1 unlinked it and died. */
  lemma LoneTheft() returns (steps: seq<Step>, t: State)
    ensures LeadsGuarded(steps, t) && t.alive == {7}
    ensures OnlyZero(t, Instance(7, Starting, 0, false), Instance(8, Dead, 0, false))
    ensures t.pidFile == None && t.socket == None && t.clients == map[]
  {
    steps, t := ReadEarly();
    var a, b := Instance(7, Starting, 0, false), Instance(8, ClaimUnlink(0, Saw(0, Unwritten)), 0, false);
    steps, t := GuardedThen(steps, t, Act(0, true), a, b);
    steps, t := GuardedThen(steps, t, Act(1, true), a, b.(phase := ClaimCreate(0)));
    steps, t := GuardedThen(steps, t, ProcessDies(8), a, b.(phase := Dead));
  }

  /** Exclusion of guards is not enough for shutdown(): with one theft, and never more than one
      live guard, a client is told that its daemon is gone before on_stop has run. */
  lemma ShutdownNeedsTheftFreedom() returns (steps: seq<Step>, t: State)
    ensures Init(Empty()) && LeadsGuarded(steps, t)
    ensures 0 in t.clients && t.clients[0] == ReturnedTrue(0)
    ensures 0 in t.daemons && !t.daemons[0].stopped && t.daemons[0].phase == Stopping
  {
    steps, t := LoneTheft();
    var a, b := Instance(7, BindExists, 0, false), Instance(8, Dead, 0, false);
    steps, t := GuardedThen(steps, t, Act(0, true), a, b);
    steps, t := GuardedThen(steps, t, Act(0, true), a.(phase := BindCreate), b);
    steps, t := GuardedThen(steps, t, Act(0, true), a.(phase := BindListen), b);
    steps, t := GuardedThen(steps, t, Act(0, true), a.(phase := Looping), b);
    steps, t := Told(steps, t);
  }

  /** The client connects and is acknowledged. */
  lemma Acknowledged(before: seq<Step>, s: State) returns (steps: seq<Step>, t: State)
    requires LeadsGuarded(before, s) && s.clients == map[] && s.pidFile == None && s.socket == Some(Socket(Some(0)))
    requires OnlyZero(s, Instance(7, Looping, 0, false), Instance(8, Dead, 0, false))
    ensures LeadsGuarded(steps, t) && t == s.(clients := t.clients, daemons := t.daemons)
    ensures t.clients == map[0 := CheckSocket(0)]
    ensures OnlyZero(t, Instance(7, Closing, 0, false), Instance(8, Dead, 0, false))
  {
    var a, b := Instance(7, Looping, 0, false), Instance(8, Dead, 0, false);
    steps, t := GuardedThen(before, s, Ask(0), a, b);
    steps, t := GuardedThen(steps, t, ClientAct(0, true), a, b);
    assert t.clients == map[0 := Awaiting(0)];
    steps, t := GuardedThen(steps, t, Ack(0, 0), a.(phase := Closing), b);
  }

  /** And the daemon goes down as far as on_stop. */
  lemma SocketRemoved(before: seq<Step>, s: State) returns (steps: seq<Step>, t: State)
    requires LeadsGuarded(before, s) && OnlyZero(s, Instance(7, Closing, 0, false), Instance(8, Dead, 0, false))
    ensures LeadsGuarded(steps, t) && t == s.(socket := None, daemons := t.daemons)
    ensures OnlyZero(t, Instance(7, Stopping, 0, false), Instance(8, Dead, 0, false))
  {
    var a, b := Instance(7, Cleaning, 0, false), Instance(8, Dead, 0, false);
    steps, t := GuardedThen(before, s, Act(0, true), a, b);
    steps, t := GuardedThen(steps, t, Act(0, true), a.(phase := Stopping), b);
  }

  lemma Told(before: seq<Step>, s: State) returns (steps: seq<Step>, t: State)
    requires LeadsGuarded(before, s) && s.clients == map[] && s.pidFile == None && s.socket == Some(Socket(Some(0)))
    requires OnlyZero(s, Instance(7, Looping, 0, false), Instance(8, Dead, 0, false))
    ensures LeadsGuarded(steps, t)
    ensures 0 in t.clients && t.clients[0] == ReturnedTrue(0)
    ensures 0 in t.daemons && !t.daemons[0].stopped && t.daemons[0].phase == Stopping
  {
    var a, b := Instance(7, Stopping, 0, false), Instance(8, Dead, 0, false);
    steps, t := Acknowledged(before, s);
    steps, t := SocketRemoved(steps, t);
    steps, t := GuardedThen(steps, t, ClientAct(0, true), a, b);
    steps, t := GuardedThen(steps, t, ClientAct(0, true), a, b);
  }

  // ---- Claims one at a time ------------------------------------------------

  /** Between the exists and the write of a claim. */
  predicate InClaim(phase: Phase) {
    phase.ClaimRead? || phase.ClaimProbe? || phase.ClaimUnlink? || phase.ClaimCreate? || phase == ClaimWrite
  }

  /** At most one instance is inside a claim. */
  ghost predicate OneAtATime(s: State) {
    forall i, j | i in s.daemons && j in s.daemons && InClaim(s.daemons[i].phase) && InClaim(s.daemons[j].phase) ::
        i == j
  }

  /** What a claimant about to probe or unlink has read is still what is there, if anything is. */
  ghost predicate ReadHolds(s: State, i: Id)
    requires i in s.daemons
  {
    var phase := s.daemons[i].phase;
    (phase.ClaimProbe? || phase.ClaimUnlink?) && s.pidFile.Some? ==>
      && phase.seen.Saw? && phase.seen.inc == s.pidFile.value.inc
      && (phase.seen.text == Unwritten ==> forall v | Active(s, v) :: s.daemons[v].file != phase.seen.inc)
  }

  ghost predicate ReadsHold(s: State) {
    forall i | i in s.daemons :: ReadHolds(s, i)
  }

  /** While what claimants have read holds, no unlink of theirs hits the file of an active
      instance. */
  lemma NoTheft(s: State, step: Step)
    requires Inv(s) && ReadsHold(s)
    ensures forall v :: !Steals(s, step, v)
  {
    if v :| Steals(s, step, v) {
      StealsAreCareless(s, step, v);
    }
  }

  lemma ReadStepHolds(s: State, i: Id, ok: bool)
    requires Inv(s) && OneAtATime(s) && i in s.daemons && s.daemons[i].phase.ClaimRead?
    ensures ReadHolds(ClaimStep(s, i, ok), i)
  {
    var s' := ClaimStep(s, i, ok);
    forall v | Active(s', v) && s.pidFile.Some? && s.pidFile.value.text == Unwritten
      ensures s'.daemons[v].file != s.pidFile.value.inc
    {
      assert InstanceOk(s, v);
    }
  }

  /** A claimant's own operations. */
  lemma OwnClaimHolds(s: State, i: Id, ok: bool)
    requires Inv(s) && ReadsHold(s) && OneAtATime(s) && i in s.daemons && Claiming(s.daemons[i].phase)
    ensures ReadHolds(ClaimStep(s, i, ok), i)
  {
    assert ReadHolds(s, i);
    if s.daemons[i].phase.ClaimRead? {
      ReadStepHolds(s, i, ok);
    } else if s.daemons[i].phase.ClaimProbe? {
      ProbeStepHolds(s, i, ok);
    }
  }

  lemma ProbeStepHolds(s: State, i: Id, ok: bool)
    requires i in s.daemons && s.daemons[i].phase.ClaimProbe? && ReadHolds(s, i)
    ensures ReadHolds(ClaimStep(s, i, ok), i)
  {
    var s' := ClaimStep(s, i, ok);
    assert forall v | Active(s', v) :: Active(s, v) && s'.daemons[v].file == s.daemons[v].file;
  }

  /** A step that makes nobody active and puts no file in place. */
  lemma HoldsOn(s: State, s': State, i: Id)
    requires i in s.daemons && ReadHolds(s, i) && i in s'.daemons
    requires s'.daemons[i].phase.ClaimProbe? || s'.daemons[i].phase.ClaimUnlink? ==>
        s'.daemons[i].phase == s.daemons[i].phase
    requires s'.pidFile == None || s'.pidFile == s.pidFile
    requires forall v | Active(s', v) :: Active(s, v) && s'.daemons[v].file == s.daemons[v].file
    ensures ReadHolds(s', i)
  {}

  /** The operations of another claimant, which can only be about to enter or to give up. */
  lemma OtherClaimHolds(s: State, i: Id, j: Id, ok: bool)
    requires IfThereReadHolds(s, i) && OneAtATime(s) && i != j && j in s.daemons && Claiming(s.daemons[j].phase)
    ensures IfThereReadHolds(ClaimStep(s, j, ok), i)
  {
    var s' := ClaimStep(s, j, ok);
    if i in s.daemons && InClaim(s.daemons[i].phase) {
      assert !InClaim(s.daemons[j].phase);
      assert forall v | Active(s', v) :: Active(s, v) && s'.daemons[v].file == s.daemons[v].file;
      HoldsOn(s, s', i);
    }
  }

  ghost predicate IfThereReadHolds(s: State, i: Id) {
    i in s.daemons ==> ReadHolds(s, i)
  }

  lemma ServeHolds(s: State, i: Id, j: Id, ok: bool)
    requires i in s.daemons && ReadHolds(s, i) && j in s.daemons && !Claiming(s.daemons[j].phase)
    ensures ReadHolds(ServeStep(s, j, ok), i)
  {
    var s' := ServeStep(s, j, ok);
    ServeStepShape(s, j, ok);
    assert forall v | Active(s', v) :: Active(s, v) && s'.daemons[v].file == s.daemons[v].file;
    HoldsOn(s, s', i);
  }

  lemma OtherStepHolds(s: State, step: Step, i: Id)
    requires IfThereReadHolds(s, i) && Enabled(s, step) && !step.Act?
    ensures IfThereReadHolds(Apply(s, step), i)
  {
    var s' := Apply(s, step);
    if i in s.daemons {
      assert forall v | Active(s', v) :: Active(s, v) && s'.daemons[v].file == s.daemons[v].file;
      HoldsOn(s, s', i);
    }
  }

  lemma StepKeepsReads(s: State, step: Step)
    requires Inv(s) && ReadsHold(s) && OneAtATime(s) && Enabled(s, step)
    ensures ReadsHold(Apply(s, step))
  {
    forall i | i in Apply(s, step).daemons ensures ReadHolds(Apply(s, step), i) {
      assert i in s.daemons ==> ReadHolds(s, i);
      match step
      case Act(j, ok) =>
        if !Claiming(s.daemons[j].phase) { ServeHolds(s, i, j, ok); }
        else if i == j { OwnClaimHolds(s, i, ok); }
        else { OtherClaimHolds(s, i, j, ok); }
      case _ => OtherStepHolds(s, step, i);
    }
  }

  /** If at every moment at most one instance is between the exists and the write of its claim,
      as when claims are made under a lock, no file of an active instance is ever stolen. */
  lemma {:induction false} OneAtATimeIsStealFree(s: State, steps: seq<Step>, n: nat)
    requires Init(s) && Possible(s, steps) && n <= |steps|
    requires forall k | 0 <= k <= n :: OneAtATime(After(s, steps, k))
    ensures ReadsHold(After(s, steps, n))
    ensures forall k, v | 0 <= k < n :: !Steals(After(s, steps, k), steps[k], v)
    decreases n
  {
    if n > 0 {
      OneAtATimeIsStealFree(s, steps, n - 1);
      ReadsHoldNext(s, steps, n - 1);
    }
  }

  lemma ReadsHoldNext(s: State, steps: seq<Step>, n: nat)
    requires Init(s) && Possible(s, steps) && n < |steps|
    requires OneAtATime(After(s, steps, n)) && ReadsHold(After(s, steps, n))
    ensures ReadsHold(After(s, steps, n + 1))
    ensures forall v :: !Steals(After(s, steps, n), steps[n], v)
  {
    InitInv(s);
    InvAlways(s, steps, n);
    AfterSnoc(s, steps, n);
    StepKeepsReads(After(s, steps, n), steps[n]);
    NoTheft(After(s, steps, n), steps[n]);
  }

  /** So then at most one guard is live at any moment, and the pid file names its holder. */
  lemma OneAtATimeIsExclusive(s: State, steps: seq<Step>, n: nat, i: Id)
    requires Init(s) && Possible(s, steps) && n <= |steps|
    requires forall k | 0 <= k <= |steps| :: OneAtATime(After(s, steps, k))
    requires HoldsGuard(After(s, steps, n), i)
    ensures StealFree(s, steps)
    ensures var t := After(s, steps, n);
      && t.pidFile == Some(PidFile(t.daemons[i].file, Names(t.daemons[i].pid)))
      && forall j | HoldsGuard(t, j) :: j == i
  {
    OneAtATimeIsStealFree(s, steps, |steps|);
    GuardExclusion(s, steps, n, i);
  }
}
