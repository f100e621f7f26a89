/** A run of the router in which a reset of the dedup table makes a difference: 1024 sessions
    are each sent one skill, which fills the table, and a further request resets it while its
    hits are walked. */
module RouterReset {
  import opened Wrappers
  import opened CText
  import opened StableSort
  import opened RouterSpec
  import opened RouterTheorems
  import opened RouterRuns

  /** Paths ending in x match both rules, paths ending in y the second only. */
  function TwoRules(): RuleTables {
    RuleTables([RuleSpec("x", 10, ["a", "b"]), RuleSpec("x|y", 1, ["a"])], [])
  }

  function TwoFiles(): seq<Entry> {
    [Entry("a", Some([1])), Entry("b", Some([2]))]
  }

  function FirstRule(): Rule { Rule(["x"], [0, 1], 10, false) }

  function SecondRule(): Rule { Rule(["x", "y"], [0], 1, false) }

  function SmallLibrary(): Library { Library(TwoSkills(), [FirstRule(), SecondRule()], []) }

  // ---- Loading ------------------------------------------------------------

  lemma FilesLoaded()
    ensures DirValid(TwoFiles()) && LoadSkills(TwoFiles()) == TwoSkills()
  {
    var dir := TwoFiles();
    assert dir[..1] == [dir[0]] && dir[..1][..0] == [];
    assert LoadSkills(dir[..1]) == [Skill("a", [1])];
  }

  lemma TokensOfX()
    ensures Tokens("x") == ["x"]
  {
    assert "x"[..1] == "x" && "x"[1..] == "";
  }

  lemma TokensOfXY()
    ensures Tokens("x|y") == ["x", "y"]
  {
    var s := "x|y";
    assert RunLength(s[1..]) == 0 && RunLength(s) == 1;
    assert s[..1] == "x" && s[1..] == "|y" && "|y"[1..] == "y";
    assert RunLength("y") == 1 && "y"[..1] == "y" && "y"[1..] == "";
    assert Tokens("y") == ["y"];
    assert Tokens("|y") == ["y"];
  }

  lemma SkillsFound()
    ensures FindSkill(TwoSkills(), "a") == Some(0) && FindSkill(TwoSkills(), "b") == Some(1)
    ensures Resolve(TwoSkills(), ["a"]) == [0] && Resolve(TwoSkills(), ["a", "b"]) == [0, 1]
  {
    var a, ab := ["a"], ["a", "b"];
    assert TwoSkills()[0].id == "a" && TwoSkills()[1].id == "b";
    assert a[..0] == [] && ab[..1] == a;
  }

  lemma RulesMade()
    ensures MakeRule(TwoSkills(), TwoRules().file[0], false) == FirstRule()
    ensures MakeRule(TwoSkills(), TwoRules().file[1], false) == SecondRule()
  {
    TokensOfX();
    TokensOfXY();
    SkillsFound();
  }

  lemma Loaded()
    ensures Load(TwoRules(), TwoFiles()) == SmallLibrary()
  {
    FilesLoaded();
    RulesMade();
    var specs := TwoRules().file;
    assert specs[..1] == [specs[0]] && specs[..1][..0] == [];
    assert LoadRules(TwoSkills(), specs[..1], false) == [FirstRule()];
  }

  // ---- Matching -----------------------------------------------------------

  lemma Suffixes()
    ensures IsSuffix("x", "x") && IsSuffix("y", "y") && !IsSuffix("x", "y")
  {}

  lemma FirstMatches()
    ensures Matches(FirstRule(), "x") && !Matches(FirstRule(), "y")
  {
    Suffixes();
    assert PatternMatches(false, FirstRule().patterns[0], "x");
  }

  lemma SecondMatches()
    ensures Matches(SecondRule(), "x") && Matches(SecondRule(), "y")
  {
    Suffixes();
    assert PatternMatches(false, SecondRule().patterns[0], "x");
    assert PatternMatches(false, SecondRule().patterns[1], "y");
  }

  function Ask(path: string, session: string): Request { Request(1, path, session) }

  lemma HitsOfTwo(a: Rule, b: Rule, path: string)
    ensures AllHits([a, b], path)
         == (if Matches(a, path) then RuleHits(a) else []) + (if Matches(b, path) then RuleHits(b) else [])
  {
    var one, two := [a], [a, b];
    assert two[..1] == one && one[..0] == [];
    assert AllHits(one, path) == if Matches(a, path) then RuleHits(a) else [];
  }

  lemma FirstHitsOf(path: string, session: string)
    requires path != []
    ensures FirstHits(SmallLibrary(), Ask(path, session))
         == Truncate(AllHits([FirstRule(), SecondRule()], path), MAX_HITS)
  {}

  lemma FirstRuleHits()
    ensures RuleHits(FirstRule()) == [Hit(0, 10), Hit(1, 10)]
  {}

  lemma SecondRuleHits()
    ensures RuleHits(SecondRule()) == [Hit(0, 1)]
  {}

  lemma BothRuleHits()
    ensures RuleHits(FirstRule()) + RuleHits(SecondRule()) == [Hit(0, 10), Hit(1, 10), Hit(0, 1)]
  {
    FirstRuleHits();
    SecondRuleHits();
  }

  lemma HitsOf(a: Rule, b: Rule, path: string)
    requires Matches(b, path) && |RuleHits(a)| <= MAX_RULE_SKILLS && |RuleHits(b)| <= MAX_RULE_SKILLS
    ensures Truncate(AllHits([a, b], path), MAX_HITS) == if Matches(a, path) then RuleHits(a) + RuleHits(b)
        else RuleHits(b)
  {
    HitsOfTwo(a, b, path);
    assert [] + RuleHits(b) == RuleHits(b);
  }

  lemma HitsOfX(session: string)
    ensures FirstHits(SmallLibrary(), Ask("x", session)) == [Hit(0, 10), Hit(1, 10), Hit(0, 1)]
  {
    assert Matches(FirstRule(), "x") by { FirstMatches(); }
    assert Matches(SecondRule(), "x") by { SecondMatches(); }
    HitsOf(FirstRule(), SecondRule(), "x");
    FirstHitsOf("x", session);
    BothRuleHits();
  }

  lemma HitsOfY(session: string)
    ensures FirstHits(SmallLibrary(), Ask("y", session)) == [Hit(0, 1)]
  {
    assert !Matches(FirstRule(), "y") by { FirstMatches(); }
    assert Matches(SecondRule(), "y") by { SecondMatches(); }
    SecondRuleHits();
    HitsOf(FirstRule(), SecondRule(), "y");
    FirstHitsOf("y", session);
  }

  lemma AlreadySorted(hits: seq<Hit>)
    requires Descending(hits)
    ensures Sorted(hits) == hits
  {
    SortedIsStableSort(hits);
    StableSortUnique(hits, Sorted(hits));
  }

  lemma ThreeHits()
    ensures var hits := [Hit(0, 10), Hit(1, 10), Hit(0, 1)]; Descending(hits) && SkillsOf(hits) == [0, 1, 0]
  {}

  lemma WalkOfX(session: string)
    ensures SkillsOf(Sorted(FirstHits(SmallLibrary(), Ask("x", session)))) == [0, 1, 0]
  {
    HitsOfX(session);
    ThreeHits();
    AlreadySorted([Hit(0, 10), Hit(1, 10), Hit(0, 1)]);
  }

  lemma CandidatesOfY(session: string)
    requires ValidLibrary(SmallLibrary())
    ensures Candidates(SmallLibrary(), Ask("y", session)) == [0]
  {
    HitsOfY(session);
    var hits := [Hit(0, 1)];
    SortedOfOne(hits);
    var s := SkillsOf(hits);
    assert s == [0] && s[..0] == [];
  }

  // ---- The run ------------------------------------------------------------

  function Session(i: nat): string
    requires i < 1024
  {
    [(1 + i / 64) as char, (1 + i % 64) as char]
  }

  lemma SessionsDiffer(i: nat, j: nat)
    requires i < j < 1024
    ensures Session(i) != Session(j)
  {
    assert Session(i)[0] != Session(j)[0] || Session(i)[1] != Session(j)[1];
  }

  function FillEvent(i: nat): Event
    requires i < 1024
  {
    Event(Message(PROTOCOL_MAGIC, PROTOCOL_VERSION, Ask("y", Session(i))), TwoFiles())
  }

  /** n sessions, each asking for y. */
  function Fill(n: nat): (evs: seq<Event>)
    requires n <= 1024
    ensures |evs| == n && forall i | 0 <= i < n :: evs[i] == FillEvent(i)
  {
    seq(n, i requires 0 <= i < n => FillEvent(i))
  }

  /** The table that they leave. */
  function Filled(n: nat): (table: seq<Pair>)
    requires n <= 1024
    ensures |table| == n && forall i | 0 <= i < n :: table[i] == Pair(Session(i), "a")
  {
    seq(n, i requires 0 <= i < n => Pair(Session(i), "a"))
  }

  lemma NewToTable(n: nat)
    requires n < 1024
    ensures Pair(Session(n), "a") !in Filled(n)
  {
    if i :| 0 <= i < n && Filled(n)[i] == Pair(Session(n), "a") {
      SessionsDiffer(i, n);
    }
  }

  lemma OneMore(n: nat)
    requires n < 1024 && ValidLibrary(SmallLibrary())
    ensures Respond(SmallLibrary(), Filled(n), Ask("y", Session(n))).table == Filled(n + 1)
  {
    var skills, session, table := TwoSkills(), Session(n), Filled(n);
    CandidatesOfY(session);
    NewToTable(n);
    var cands := [0];
    assert cands[..0] == [];
    ContentSnoc(skills, [], 0);
    assert Takes(skills, session, Picks([], table), 0);
    assert Greedy(skills, session, table, cands) == Picks([0], table + [Pair(session, "a")]);
    assert Filled(n + 1) == table + [Pair(session, "a")];
  }

  lemma FilesValid()
    ensures DirValid(TwoFiles()) && ValidLibrary(SmallLibrary())
  {
    FilesLoaded();
    Loaded();
    LoadedLibraryValid(TwoRules(), TwoFiles());
  }

  lemma {:induction false} FillRuns(n: nat)
    requires n <= 1024
    ensures DirValid(TwoFiles()) && EventsValid(Fill(n))
    ensures Run(TwoRules(), TwoFiles(), Fill(n)).st == State(SmallLibrary(), Filled(n), true)
  {
    FilesValid();
    if n == 0 {
      Loaded();
    } else {
      FillRuns(n - 1);
      FillNext(n - 1);
    }
  }

  lemma FillNext(n: nat)
    requires n < 1024 && DirValid(TwoFiles()) && EventsValid(Fill(n)) && EventsValid(Fill(n + 1))
    requires Run(TwoRules(), TwoFiles(), Fill(n)).st == State(SmallLibrary(), Filled(n), true)
    ensures Run(TwoRules(), TwoFiles(), Fill(n + 1)).st == State(SmallLibrary(), Filled(n + 1), true)
  {
    assert Fill(n + 1)[..n] == Fill(n);
    FilesValid();
    FillStep(n);
  }

  lemma FillStep(n: nat)
    requires n < 1024 && ValidLibrary(SmallLibrary())
    ensures Next(TwoRules(), State(SmallLibrary(), Filled(n), true), FillEvent(n))
        == State(SmallLibrary(), Filled(n + 1), true)
  {
    OneMore(n);
    assert CommandOf(FillEvent(n).msg) == Route;
  }

  /** A request whose sorted hits are a, b, a, and on which the code sends b only, where
      skipping only selected skills would send a as well. */
  ghost predicate Differs(lib: Library, table: seq<Pair>, req: Request)
    requires ValidLibrary(lib)
  {
    FirstHitsBelow(lib, req);
    var s := SkillsOf(Sorted(FirstHits(lib, req)));
    && s == [0, 1, 0] && |lib.skills| == 2
    && AtTurn(lib.skills, req.session, table, s, |s|).chosen == [1]
    && GreedyBySelected(lib.skills, req.session, table, s).chosen == [1, 0]
    && Respond(lib, table, req).content == lib.skills[1].data
  }

  lemma DiffersWhenFull(table: seq<Pair>, session: string)
    requires ValidLibrary(SmallLibrary()) && |table| == MAX_DEDUP_ENTRIES
    requires Pair(session, "a") in table && Pair(session, "b") !in table
    ensures Differs(SmallLibrary(), table, Ask("x", session))
  {
    WalkOfX(session);
    var s := [0, 1, 0];
    SeenDiffersAfterReset(table, session, s);
    assert s[..|s|] == s;
    assert Contents(TwoSkills(), [1]) == [TwoSkills()[1].data];
  }

  lemma FilledTable()
    ensures Pair(Session(0), "a") in Filled(1024) && Pair(Session(0), "b") !in Filled(1024)
  {
    assert Filled(1024)[0] == Pair(Session(0), "a");
  }

  /** After 1024 sessions have asked for y, the first of them asks for x: it knows a, and sending
      b resets the table. */
  lemma ResetMatters() returns (evs: seq<Event>, req: Request)
    ensures DirValid(TwoFiles()) && EventsValid(evs)
    ensures var st := Run(TwoRules(), TwoFiles(), evs).st; st.running && Differs(st.lib, st.table, req)
  {
    FillRuns(1024);
    FilledTable();
    evs, req := Fill(1024), Ask("x", Session(0));
    DiffersWhenFull(Filled(1024), Session(0));
  }
}
