/** What a daemon achieves when nobody else acts and none of its operations fails. */
module SoloRuns {
  import opened Wrappers
  import opened Ownership
  import opened OwnershipTheorems
  import opened Accounts

  // ---- Acting alone -------------------------------------------------------

  /** n operations of daemon me, all successful. */
  function Acts(me: Id, n: nat): (r: seq<Step>)
    ensures |r| == n
  {
    seq(n, i requires 0 <= i < n => Act(me, true))
  }

  lemma ActsAppend(me: Id, a: nat, b: nat)
    ensures Acts(me, a) + Acts(me, b) == Acts(me, a + b)
  {}

  function Solo(s: State, me: Id, n: nat): State
    decreases n
  {
    if n == 0 || me !in s.daemons then s else Solo(ActStep(s, me, true), me, n - 1)
  }

  function SoloTrail(s: State, me: Id, n: nat): (own: seq<Taken>)
    decreases n
  {
    if n == 0 || me !in s.daemons then []
    else [Taken(s, Act(me, true))] + SoloTrail(ActStep(s, me, true), me, n - 1)
  }

  lemma {:induction false} SoloRun(s: State, me: Id, n: nat)
    requires Possible(s, Acts(me, n))
    ensures After(s, Acts(me, n), n) == Solo(s, me, n)
    ensures Trail(TheDaemon(me), s, Acts(me, n)) == SoloTrail(s, me, n)
    decreases n
  {
    if n > 0 {
      assert Acts(me, n)[1..] == Acts(me, n - 1);
      SoloRun(Apply(s, Act(me, true)), me, n - 1);
    }
  }

  lemma {:induction false} AfterAppend(s: State, a: seq<Step>, b: seq<Step>)
    requires Possible(s, a + b)
    ensures Possible(s, a) && Possible(After(s, a, |a|), b)
    ensures After(s, a + b, |a| + |b|) == After(After(s, a, |a|), b, |b|)
    decreases |a|
  {
    if a == [] {
      assert a + b == b;
    } else {
      assert (a + b)[1..] == a[1..] + b;
      AfterAppend(Apply(s, a[0]), a[1..], b);
    }
  }

  lemma {:induction false} TrailAppend(who: Actor, s: State, a: seq<Step>, b: seq<Step>, m: State)
    requires Possible(s, a + b) && Leads(s, a, m) && Possible(m, b)
    ensures Trail(who, s, a + b) == Trail(who, s, a) + Trail(who, m, b)
    decreases |a|
  {
    if a == [] {
      assert a + b == b;
    } else {
      assert (a + b)[1..] == a[1..] + b;
      var s' := Apply(s, a[0]);
      TrailAppend(who, s', a[1..], b, m);
      TrailFirst(who, s, a);
      TrailFirst(who, s, a + b);
    }
  }

  lemma TrailFirst(who: Actor, s: State, a: seq<Step>)
    requires Possible(s, a) && a != []
    ensures Trail(who, s, a)
         == (if ActsFor(who, a[0]) then [Taken(s, a[0])] else []) + Trail(who, Apply(s, a[0]), a[1..])
  {}

  /** A run that goes on with operations of daemon me only. */
  lemma GoesOnAlone(start: State, steps: seq<Step>, s: State, me: Id, n: nat, s': State)
    requires Leads(start, steps, s) && Leads(start, steps + Acts(me, n), s')
    ensures s' == Solo(s, me, n)
    ensures Trail(TheDaemon(me), start, steps + Acts(me, n)) == Trail(TheDaemon(me), start, steps) + SoloTrail(s, me, n)
  {
    AfterAppend(start, steps, Acts(me, n));
    TrailAppend(TheDaemon(me), start, steps, Acts(me, n), s);
    SoloRun(s, me, n);
  }

  /** A moment of a machine: the trails, whether the others are idle and no fault is due, and the
      steps so far. */
  datatype Mark = Mark(trails: imap<Actor, seq<Taken>>, alone: bool, steps: seq<Step>)

  /** Between two moments daemon me took the steps own, and if it was alone nobody else did. */
  ghost predicate Did(me: Id, m: Mark, m': Mark, own: seq<Taken>) {
    && GrewBy(TheDaemon(me), m.trails, m'.trails, own)
    && (m.alone ==> m'.alone && m'.steps == m.steps + Acts(me, |own|))
  }

  lemma DidNothing(me: Id, m: Mark)
    requires TheDaemon(me) in m.trails
    ensures Did(me, m, m, [])
  {
    assert m.trails[TheDaemon(me)] + [] == m.trails[TheDaemon(me)];
    assert m.steps + Acts(me, 0) == m.steps;
  }

  lemma DidOn(me: Id, m0: Mark, m1: Mark, m2: Mark, a: seq<Taken>, b: seq<Taken>)
    requires Did(me, m0, m1, a) && Did(me, m1, m2, b)
    ensures Did(me, m0, m2, a + b)
  {
    GrewOn(TheDaemon(me), m0.trails, m1.trails, m2.trails, a, b);
    if m0.alone {
      Regroup(m0.steps, Acts(me, |a|), Acts(me, |b|));
      ActsAppend(me, |a|, |b|);
    }
  }

  // ---- A claim alone ------------------------------------------------------

  /** The own steps up to here are those of a claim, and it is over. */
  predicate ClaimingUntil(s: State, me: Id, n: nat)
    decreases n
  {
    && me in s.daemons
    && if n == 0 then !Claiming(s.daemons[me].phase)
       else Claiming(s.daemons[me].phase) && ClaimingUntil(ActStep(s, me, true), me, n - 1)
  }

  /** A claim alone is refused if the file names a running process, and nothing has changed;
      otherwise the file is there, created by the claimant and with its pid. */
  predicate ClaimedAlone(s: State, s': State, me: Id)
    requires me in s.daemons && me in s'.daemons
  {
    && s'.socket == s.socket && s'.alive == s.alive
    && if NamesRunning(s) then s'.daemons[me].phase == Finished && s'.pidFile == s.pidFile
       else
         && s'.daemons[me].phase == Starting
         && s'.pidFile == Some(PidFile(s'.daemons[me].file, Names(s.daemons[me].pid)))
  }

  lemma SoloWrite(s: State, me: Id, n: nat)
    requires ClaimingUntil(s, me, n) && s.daemons[me].phase == ClaimWrite
    requires s.pidFile.Some? && s.pidFile.value.inc == s.daemons[me].file
    ensures n == 1
    ensures var s' := Solo(s, me, n);
      && me in s'.daemons && s'.socket == s.socket && s'.alive == s.alive
      && s'.daemons[me].phase == Starting
      && s'.pidFile == Some(PidFile(s'.daemons[me].file, Names(s.daemons[me].pid)))
  {
    assert ClaimingUntil(ActStep(s, me, true), me, n - 1);
    assert ActStep(s, me, true).daemons[me].phase == Starting;
  }

  lemma SoloCreate(s: State, me: Id, n: nat)
    requires ClaimingUntil(s, me, n) && s.daemons[me].phase.ClaimCreate? && s.pidFile.None?
    ensures var s' := Solo(s, me, n);
      && me in s'.daemons && s'.socket == s.socket && s'.alive == s.alive
      && s'.daemons[me].phase == Starting
      && s'.pidFile == Some(PidFile(s'.daemons[me].file, Names(s.daemons[me].pid)))
  {
    var t := ActStep(s, me, true);
    assert t.daemons[me].phase == ClaimWrite && t.pidFile == Some(PidFile(s.nextInc, Unwritten));
    SoloWrite(t, me, n - 1);
  }

  lemma SoloUnlink(s: State, me: Id, n: nat)
    requires ClaimingUntil(s, me, n) && s.daemons[me].phase.ClaimUnlink?
    ensures var s' := Solo(s, me, n);
      && me in s'.daemons && s'.socket == s.socket && s'.alive == s.alive
      && s'.daemons[me].phase == Starting
      && s'.pidFile == Some(PidFile(s'.daemons[me].file, Names(s.daemons[me].pid)))
  {
    var t := ActStep(s, me, true);
    assert t.daemons[me].phase.ClaimCreate? && t.pidFile.None?;
    SoloCreate(t, me, n - 1);
  }

  lemma SoloProbe(s: State, me: Id, n: nat)
    requires ClaimingUntil(s, me, n) && s.daemons[me].phase.ClaimProbe? && PidIn(s).Some?
    requires s.daemons[me].phase.seen == Saw(s.pidFile.value.inc, s.pidFile.value.text)
    ensures me in Solo(s, me, n).daemons && ClaimedAlone(s, Solo(s, me, n), me)
  {
    var t := ActStep(s, me, true);
    assert ClaimingUntil(t, me, n - 1);
    if NamesRunning(s) {
      assert t.daemons[me].phase == Finished && n == 1;
    } else {
      assert t.daemons[me].phase.ClaimUnlink?;
      SoloUnlink(t, me, n - 1);
    }
  }

  lemma SoloRead(s: State, me: Id, n: nat)
    requires ClaimingUntil(s, me, n) && s.daemons[me].phase.ClaimRead? && s.pidFile.Some?
    ensures me in Solo(s, me, n).daemons && ClaimedAlone(s, Solo(s, me, n), me)
  {
    var t := ActStep(s, me, true);
    if PidIn(s).Some? { SoloProbe(t, me, n - 1); } else { SoloUnlink(t, me, n - 1); }
  }

  lemma SoloClaim(s: State, me: Id, n: nat)
    requires ClaimingUntil(s, me, n) && s.daemons[me].phase == ClaimExists(0)
    ensures me in Solo(s, me, n).daemons && ClaimedAlone(s, Solo(s, me, n), me)
  {
    var t := ActStep(s, me, true);
    if s.pidFile.Some? { SoloRead(t, me, n - 1); } else { SoloCreate(t, me, n - 1); }
  }

  // ---- A bind alone -------------------------------------------------------

  predicate BindingUntil(s: State, me: Id, n: nat)
    decreases n
  {
    && me in s.daemons
    && if n == 0 then !Binding(s.daemons[me].phase)
       else Binding(s.daemons[me].phase) && BindingUntil(ActStep(s, me, true), me, n - 1)
  }

  /** The path is free, or holds a socket on which nobody answers. */
  predicate Reclaimable(s: State) {
    s.socket.None? || (IsSocket(s) && !Answers(s))
  }

  /** A bind alone ends listening on an own socket at the path exactly if the path can be
      reclaimed, and otherwise leaves it as it is. */
  predicate BoundAlone(s: State, s': State, me: Id)
    requires me in s'.daemons
  {
    && s'.pidFile == s.pidFile
    && if Reclaimable(s) then s'.daemons[me].phase == Looping && s'.socket == Some(Socket(Some(me)))
       else s'.daemons[me].phase == Stopping && s'.socket == s.socket
  }

  lemma SoloListen(s: State, me: Id, n: nat)
    requires BindingUntil(s, me, n) && s.daemons[me].phase == BindListen
    ensures var s' := Solo(s, me, n);
      me in s'.daemons && s'.daemons[me].phase == Looping && s'.socket == s.socket && s'.pidFile == s.pidFile
  {
    assert BindingUntil(ActStep(s, me, true), me, n - 1);
    assert ActStep(s, me, true).daemons[me].phase == Looping;
  }

  lemma SoloPath(s: State, me: Id, n: nat)
    requires BindingUntil(s, me, n) && s.daemons[me].phase == BindCreate && s.socket.None?
    ensures me in Solo(s, me, n).daemons && BoundAlone(s, Solo(s, me, n), me)
  {
    var t := ActStep(s, me, true);
    assert t.daemons[me].phase == BindListen && t.socket == Some(Socket(Some(me)));
    SoloListen(t, me, n - 1);
  }

  lemma SoloRemove(s: State, me: Id, n: nat)
    requires BindingUntil(s, me, n) && s.daemons[me].phase == BindUnlink && IsSocket(s) && !Answers(s)
    ensures me in Solo(s, me, n).daemons && BoundAlone(s, Solo(s, me, n), me)
  {
    var t := ActStep(s, me, true);
    assert t.daemons[me].phase == BindCreate && t.socket.None?;
    SoloPath(t, me, n - 1);
  }

  lemma SoloConnect(s: State, me: Id, n: nat)
    requires BindingUntil(s, me, n) && s.daemons[me].phase == BindProbe && IsSocket(s)
    ensures me in Solo(s, me, n).daemons && BoundAlone(s, Solo(s, me, n), me)
  {
    var t := ActStep(s, me, true);
    assert BindingUntil(t, me, n - 1);
    if Answers(s) {
      assert t.daemons[me].phase == Stopping && n == 1;
    } else {
      assert t.daemons[me].phase == BindUnlink && !Answers(t);
      SoloRemove(t, me, n - 1);
    }
  }

  lemma SoloStat(s: State, me: Id, n: nat)
    requires BindingUntil(s, me, n) && s.daemons[me].phase == BindStat && s.socket.Some?
    ensures me in Solo(s, me, n).daemons && BoundAlone(s, Solo(s, me, n), me)
  {
    var t := ActStep(s, me, true);
    assert BindingUntil(t, me, n - 1);
    if IsSocket(s) {
      assert t.daemons[me].phase == BindProbe && Answers(t) == Answers(s);
      SoloConnect(t, me, n - 1);
    } else {
      assert t.daemons[me].phase == Stopping && n == 1;
    }
  }

  lemma SoloBind(s: State, me: Id, n: nat)
    requires BindingUntil(s, me, n) && s.daemons[me].phase == BindExists
    ensures me in Solo(s, me, n).daemons && BoundAlone(s, Solo(s, me, n), me)
  {
    var t := ActStep(s, me, true);
    if s.socket.Some? {
      assert Answers(t) == Answers(s);
      SoloStat(t, me, n - 1);
    } else {
      SoloPath(t, me, n - 1);
    }
  }

  // ---- The way down alone -------------------------------------------------

  /** From Closing on: four operations remove the socket and the pid file, with on_stop between. */
  lemma SoloDown(s: State, me: Id)
    requires me in s.daemons && s.daemons[me].phase == Closing
    ensures var s' := Solo(s, me, 4);
      && me in s'.daemons && s'.daemons[me].phase == Finished && s'.daemons[me].stopped
      && s'.socket.None? && s'.pidFile.None?
  {
    var t := ActStep(s, me, true);
    var u := ActStep(t, me, true);
    var v := ActStep(u, me, true);
    assert t.daemons[me].phase == Cleaning && u.daemons[me].phase == Stopping && v.daemons[me].phase == Releasing;
    assert Solo(v, me, 1) == ActStep(v, me, true);
    assert Solo(u, me, 2) == Solo(v, me, 1) && Solo(t, me, 3) == Solo(u, me, 2) && Solo(s, me, 4) == Solo(t, me, 3);
  }

  // ---- From trails to phases ----------------------------------------------

  lemma {:induction false} TrailIsClaim(s: State, me: Id, n: nat)
    requires me in s.daemons && AllClaiming(SoloTrail(s, me, n))
    requires me in Solo(s, me, n).daemons && !Claiming(Solo(s, me, n).daemons[me].phase)
    ensures ClaimingUntil(s, me, n)
    decreases n
  {
    if n > 0 {
      var t := ActStep(s, me, true);
      var own, more := SoloTrail(s, me, n), SoloTrail(t, me, n - 1);
      assert own[0] in own && PhaseAt(own[0]) == s.daemons[me].phase;
      StaysThere(s, me);
      assert forall x | x in more :: x in own;
      TrailIsClaim(t, me, n - 1);
    }
  }

  lemma {:induction false} TrailIsBind(s: State, me: Id, n: nat)
    requires me in s.daemons && forall t | t in SoloTrail(s, me, n) :: Binding(PhaseAt(t))
    requires me in Solo(s, me, n).daemons && !Binding(Solo(s, me, n).daemons[me].phase)
    ensures BindingUntil(s, me, n)
    decreases n
  {
    if n > 0 {
      var t := ActStep(s, me, true);
      var own, more := SoloTrail(s, me, n), SoloTrail(t, me, n - 1);
      assert own[0] in own && PhaseAt(own[0]) == s.daemons[me].phase;
      StaysThere(s, me);
      assert forall x | x in more :: x in own;
      TrailIsBind(t, me, n - 1);
    }
  }

  lemma StaysThere(s: State, me: Id)
    requires me in s.daemons
    ensures me in ActStep(s, me, true).daemons
  {}
}
