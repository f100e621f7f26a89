/** The router over whole runs: what each connection does to the library and the dedup
    table, and what holds of the table and the library after any sequence of connections. */
module RouterRuns {
  import opened Wrappers
  import opened CText
  import opened StableSort
  import opened RouterSpec

  const PROTOCOL_MAGIC := 0x494F5352
  const PROTOCOL_VERSION := 1

  /** A directory entry under skills/; content is None if SKILL.md cannot be mapped. */
  datatype Entry = Entry(name: string, content: Option<bytes>)

  /** The compiled-in rule tables. */
  datatype RuleTables = RuleTables(file: seq<RuleSpec>, bash: seq<RuleSpec>)

  /** What arrives on one connection; Short if fewer bytes than a header were read. */
  datatype Message = Short | Message(magic: nat, version: byte, req: Request)

  /** A connection, and the skills directory as a reload would find it. */
  datatype Event = Event(msg: Message, dir: seq<Entry>)

  datatype State = State(lib: Library, table: seq<Pair>, running: bool)

  datatype Answer = Closed | Answer(status: Status, count: nat, content: bytes)

  // ---- Loading ------------------------------------------------------------

  predicate Loadable(e: Entry) {
    && e.name != [] && e.name[0] != '.' && e.name[0] != '_'
    && e.content.Some? && e.content.value != []
  }

  predicate EntryValid(e: Entry) {
    e.name != [] && (e.content.Some? ==> |e.content.value| <= MAX_SKILL_SIZE)
  }

  predicate DirValid(dir: seq<Entry>) {
    forall i | 0 <= i < |dir| :: EntryValid(dir[i])
  }

  function LoadSkills(dir: seq<Entry>): (skills: seq<Skill>)
    ensures |skills| <= MAX_MAPPED_SKILLS
  {
    if dir == [] then []
    else
      var skills, e := LoadSkills(dir[..|dir| - 1]), dir[|dir| - 1];
      if Loadable(e) && |skills| < MAX_MAPPED_SKILLS
      then skills + [Skill(Truncate(e.name, ID_LEN), e.content.value)]
      else skills
  }

  function LoadRules(skills: seq<Skill>, specs: seq<RuleSpec>, isBash: bool): (rules: seq<Rule>)
    ensures |rules| <= MAX_RULES
  {
    if specs == [] then []
    else
      var rules := LoadRules(skills, specs[..|specs| - 1], isBash);
      if |rules| < MAX_RULES then rules + [MakeRule(skills, specs[|specs| - 1], isBash)] else rules
  }

  function Load(tables: RuleTables, dir: seq<Entry>): Library {
    var skills := LoadSkills(dir);
    Library(skills, LoadRules(skills, tables.file, false), LoadRules(skills, tables.bash, true))
  }

  lemma {:induction false} LoadedSkillsValid(dir: seq<Entry>)
    requires DirValid(dir)
    ensures forall k | 0 <= k < |LoadSkills(dir)| ::
      0 < |LoadSkills(dir)[k].data| <= MAX_SKILL_SIZE && |LoadSkills(dir)[k].id| <= ID_LEN
  {
    if dir != [] {
      LoadedSkillsValid(dir[..|dir| - 1]);
      assert EntryValid(dir[|dir| - 1]);
    }
  }

  lemma {:induction false} LoadedRulesValid(skills: seq<Skill>, specs: seq<RuleSpec>, isBash: bool)
    ensures RulesValid(LoadRules(skills, specs, isBash), |skills|, isBash)
  {
    if specs != [] {
      LoadedRulesValid(skills, specs[..|specs| - 1], isBash);
    }
  }

  lemma LoadedLibraryValid(tables: RuleTables, dir: seq<Entry>)
    requires DirValid(dir)
    ensures ValidLibrary(Load(tables, dir))
  {
    LoadedSkillsValid(dir);
    LoadedRulesValid(LoadSkills(dir), tables.file, false);
    LoadedRulesValid(LoadSkills(dir), tables.bash, true);
  }

  // ---- One connection -----------------------------------------------------

  datatype Command = Drop | Ping | Shutdown | Reload | Route

  /** The control command a path begins with; any other path is routed. */
  function ControlOf(path: string): Command {
    if "PING" <= path then Ping
    else if "SHUTDOWN" <= path then Shutdown
    else if "RELOAD" <= path then Reload
    else Route
  }

  /** The dispatch of process_connection. */
  function CommandOf(msg: Message): Command {
    if msg.Short? || msg.magic != PROTOCOL_MAGIC || msg.version != PROTOCOL_VERSION then Drop
    else if msg.req.tool != 0 then Route
    else ControlOf(msg.req.path)
  }

  predicate ValidState(st: State) {
    ValidLibrary(st.lib) && |st.table| <= MAX_DEDUP_ENTRIES
  }

  function Next(tables: RuleTables, st: State, ev: Event): (st': State)
    requires ValidState(st)
  {
    match CommandOf(ev.msg)
    case Drop => st
    case Ping => st
    case Shutdown => st.(running := false)
    case Reload => st.(lib := Load(tables, ev.dir))
    case Route => st.(table := Respond(st.lib, st.table, ev.msg.req).table)
  }

  function AnswerTo(st: State, ev: Event): (a: Answer)
    requires ValidState(st)
  {
    match CommandOf(ev.msg)
    case Drop => Closed
    case Route =>
      var r := Respond(st.lib, st.table, ev.msg.req);
      Answer(r.status, r.count, r.content)
    case _ => Answer(Matched, 0, [])
  }

  function PairsOf(session: string, skills: seq<Skill>, chosen: seq<nat>): (r: seq<Pair>)
    requires Below(chosen, |skills|)
    ensures |r| == |chosen|
  {
    seq(|chosen|, i requires 0 <= i < |chosen| => PairOf(session, skills, chosen[i]))
  }

  /** The (session, skill) pairs a connection injects, in order. */
  function Injected(st: State, ev: Event): seq<Pair>
    requires ValidState(st)
  {
    if CommandOf(ev.msg) != Route then []
    else
      var req := ev.msg.req;
      var p := Greedy(st.lib.skills, req.session, st.table, Candidates(st.lib, req));
      PairsOf(req.session, st.lib.skills, p.chosen)
  }

  // ---- The dedup table over a run ----------------------------------------

  /** The table holds exactly the injections of the current block of 1024, slot n mod 1024
      holding the n-th, and no pair is injected twice in one block. */
  ghost predicate TableInv(table: seq<Pair>, log: seq<Pair>) {
    && |table| <= MAX_DEDUP_ENTRIES && |table| <= |log|
    && (|log| - |table|) % MAX_DEDUP_ENTRIES == 0
    && table == log[|log| - |table|..]
    && (log != [] ==> table != [])
    && forall i, j | 0 <= i < j < |log| && log[i] == log[j] :: i / MAX_DEDUP_ENTRIES != j / MAX_DEDUP_ENTRIES
  }

  /** One injection: it goes to slot n mod 1024, where n injections came before it. */
  lemma MarkKeepsInv(table: seq<Pair>, log: seq<Pair>, p: Pair)
    requires TableInv(table, log) && p !in table
    ensures TableInv(Mark(table, p), log + [p])
    ensures |Mark(table, p)| == |log| % MAX_DEDUP_ENTRIES + 1
    ensures Mark(table, p)[|log| % MAX_DEDUP_ENTRIES] == p
  {
    FreshInBlock(table, log, p);
    BlockSlot(|log|, |table|);
    var log' := log + [p];
    if |table| < MAX_DEDUP_ENTRIES {
      assert log'[|log| - |table|..] == log[|log| - |table|..] + [p];
    } else {
      assert log'[|log|..] == [p];
    }
  }

  lemma BlockSlot(n: nat, size: nat)
    requires size <= MAX_DEDUP_ENTRIES && size <= n && (n - size) % MAX_DEDUP_ENTRIES == 0
    ensures n % MAX_DEDUP_ENTRIES == if size == MAX_DEDUP_ENTRIES then 0 else size
  {}

  lemma FreshInBlock(table: seq<Pair>, log: seq<Pair>, p: Pair)
    requires TableInv(table, log) && p !in table
    ensures var log' := log + [p];
      forall i, j | 0 <= i < j < |log'| && log'[i] == log'[j] :: i / MAX_DEDUP_ENTRIES != j / MAX_DEDUP_ENTRIES
  {
    var log', base := log + [p], |log| - |table|;
    forall i | base <= i < |log| ensures log[i] != p {
      assert log[i] == table[i - base];
    }
    forall i, j | 0 <= i < j < |log'| && log'[i] == log'[j]
      ensures i / MAX_DEDUP_ENTRIES != j / MAX_DEDUP_ENTRIES
    {
      if j < |log| {
        assert log[i] == log[j];
      }
    }
  }

  lemma ConsiderKeepsInv(skills: seq<Skill>, session: string, p: Picks, k: nat, log: seq<Pair>)
    requires Below(p.chosen, |skills|) && k < |skills|
    requires TableInv(p.table, log + PairsOf(session, skills, p.chosen))
    ensures var q := Consider(skills, session, p, k);
      TableInv(q.table, log + PairsOf(session, skills, q.chosen))
  {
    if Takes(skills, session, p, k) {
      var before := log + PairsOf(session, skills, p.chosen);
      MarkKeepsInv(p.table, before, PairOf(session, skills, k));
      PairsSnoc(skills, session, p.chosen, k, log);
    }
  }

  lemma PairsSnoc(skills: seq<Skill>, session: string, chosen: seq<nat>, k: nat, log: seq<Pair>)
    requires Below(chosen, |skills|) && k < |skills|
    ensures log + PairsOf(session, skills, chosen) + [PairOf(session, skills, k)]
         == log + PairsOf(session, skills, chosen + [k])
  {}

  lemma {:induction false} GreedyKeepsInv(skills: seq<Skill>, session: string, table: seq<Pair>, cands: seq<nat>,
      log: seq<Pair>)
    requires Below(cands, |skills|) && TableInv(table, log)
    ensures var p := Greedy(skills, session, table, cands);
      TableInv(p.table, log + PairsOf(session, skills, p.chosen))
  {
    if cands == [] {
      assert log + PairsOf(session, skills, []) == log;
    } else {
      var front := cands[..|cands| - 1];
      GreedyKeepsInv(skills, session, table, front, log);
      ConsiderKeepsInv(skills, session, Greedy(skills, session, table, front), cands[|cands| - 1], log);
    }
  }

  lemma NextKeepsInv(tables: RuleTables, st: State, ev: Event, log: seq<Pair>)
    requires ValidState(st) && DirValid(ev.dir) && TableInv(st.table, log)
    ensures var st' := Next(tables, st, ev);
      ValidState(st') && TableInv(st'.table, log + Injected(st, ev))
  {
    match CommandOf(ev.msg)
    case Route =>
      GreedyKeepsInv(st.lib.skills, ev.msg.req.session, st.table, Candidates(st.lib, ev.msg.req), log);
    case Reload =>
      LoadedLibraryValid(tables, ev.dir);
      assert log + [] == log;
    case _ =>
      assert log + [] == log;
  }

  lemma {:induction false} GreedyKeepsCap(skills: seq<Skill>, session: string, table: seq<Pair>, cands: seq<nat>)
    requires Below(cands, |skills|) && |table| <= MAX_DEDUP_ENTRIES
    ensures |Greedy(skills, session, table, cands).table| <= MAX_DEDUP_ENTRIES
  {
    if cands != [] { GreedyKeepsCap(skills, session, table, cands[..|cands| - 1]); }
  }

  lemma NextKeepsState(tables: RuleTables, st: State, ev: Event)
    requires ValidState(st) && DirValid(ev.dir)
    ensures ValidState(Next(tables, st, ev))
  {
    LoadedLibraryValid(tables, ev.dir);
    if CommandOf(ev.msg) == Route {
      GreedyKeepsCap(st.lib.skills, ev.msg.req.session, st.table, Candidates(st.lib, ev.msg.req));
    }
  }

  // ---- Runs ---------------------------------------------------------------

  predicate EventsValid(evs: seq<Event>) {
    forall i | 0 <= i < |evs| :: DirValid(evs[i].dir)
  }

  /** The daemon right after start-up: skills and rules loaded, nothing injected. */
  function Start(tables: RuleTables, dir: seq<Entry>): State {
    State(Load(tables, dir), [], true)
  }

  datatype History = History(st: State, log: seq<Pair>)

  /** The state and all injections after a sequence of connections. */
  function Run(tables: RuleTables, dir: seq<Entry>, evs: seq<Event>): (h: History)
    requires DirValid(dir) && EventsValid(evs)
    ensures ValidState(h.st)
  {
    if evs == [] then
      LoadedLibraryValid(tables, dir);
      History(Start(tables, dir), [])
    else
      var h := Run(tables, dir, evs[..|evs| - 1]);
      var ev := evs[|evs| - 1];
      NextKeepsState(tables, h.st, ev);
      History(Next(tables, h.st, ev), h.log + Injected(h.st, ev))
  }

  /** The state after the first n connections. */
  function RunUpTo(tables: RuleTables, dir: seq<Entry>, evs: seq<Event>, n: nat): (st: State)
    requires DirValid(dir) && EventsValid(evs) && n <= |evs|
    ensures ValidState(st)
    ensures n == 0 ==> st == Start(tables, dir)
  {
    Run(tables, dir, evs[..n]).st
  }

  /** Each connection was served while the daemon was running, and answered in the state that
      those before it left. */
  ghost predicate ServedInTurn(tables: RuleTables, dir: seq<Entry>, evs: seq<Event>, answers: seq<Answer>)
    requires DirValid(dir) && EventsValid(evs) && |answers| <= |evs|
  {
    forall k {:trigger answers[k]} | 0 <= k < |answers| ::
      RunUpTo(tables, dir, evs, k).running && answers[k] == AnswerTo(RunUpTo(tables, dir, evs, k), evs[k])
  }

  lemma ServedNext(tables: RuleTables, dir: seq<Entry>, evs: seq<Event>, answers: seq<Answer>, answer: Answer)
    requires DirValid(dir) && EventsValid(evs) && |answers| < |evs|
    requires ServedInTurn(tables, dir, evs, answers)
    requires var st := RunUpTo(tables, dir, evs, |answers|); st.running && answer == AnswerTo(st, evs[|answers|])
    ensures ServedInTurn(tables, dir, evs, answers + [answer])
  {
    forall k | 0 <= k <= |answers|
      ensures RunUpTo(tables, dir, evs, k).running
              && (answers + [answer])[k] == AnswerTo(RunUpTo(tables, dir, evs, k), evs[k])
    {
      if k < |answers| { assert (answers + [answer])[k] == answers[k]; }
    }
  }

  lemma ServedMore(tables: RuleTables, dir: seq<Entry>, evs: seq<Event>, ev: Event, answers: seq<Answer>)
    requires DirValid(dir) && EventsValid(evs) && DirValid(ev.dir) && |answers| <= |evs|
    requires ServedInTurn(tables, dir, evs, answers)
    ensures EventsValid(evs + [ev]) && ServedInTurn(tables, dir, evs + [ev], answers)
    ensures RunUpTo(tables, dir, evs + [ev], |evs|) == RunUpTo(tables, dir, evs, |evs|)
  {
    assert (evs + [ev])[..|evs|] == evs[..|evs|];
    forall k | 0 <= k < |answers|
      ensures RunUpTo(tables, dir, evs + [ev], k).running
              && answers[k] == AnswerTo(RunUpTo(tables, dir, evs + [ev], k), (evs + [ev])[k])
    {
      assert (evs + [ev])[..k] == evs[..k];
      assert answers[k] == AnswerTo(RunUpTo(tables, dir, evs, k), evs[k]);
    }
  }

  // ---- The main loop ------------------------------------------------------

  const IDLE_TIMEOUT_SECS := 300

  /** How a select ended, with the connection if one was accepted. */
  datatype Select = Interrupted | Broken | Quiet | NoStream | Connected(ev: Event)

  /** One round of the main loop: how its select ended and when, and whether a signal came in. */
  datatype Turn = Turn(what: Select, time: int, signal: bool)

  predicate TurnsValid(turns: seq<Turn>) {
    forall n | 0 <= n < |turns| && turns[n].what.Connected? :: DirValid(turns[n].what.ev.dir)
  }

  /** The connections accepted, in order. */
  function Heard(turns: seq<Turn>): (evs: seq<Event>)
    ensures TurnsValid(turns) ==> EventsValid(evs)
  {
    if turns == [] then []
    else
      var last := turns[|turns| - 1].what;
      Heard(turns[..|turns| - 1]) + (if last.Connected? then [last.ev] else [])
  }

  /** When the last of the first n rounds with a connection was, or the start. */
  function LastHeard(turns: seq<Turn>, n: nat, start: int): int
    requires n <= |turns|
  {
    if n == 0 then start
    else if turns[n - 1].what.Connected? then turns[n - 1].time
    else LastHeard(turns, n - 1, start)
  }

  /** Where the main loop is: the state, what it answered, the time of the last connection,
      whether a round has ended it, and how many rounds there were. */
  datatype Loop = Loop(st: State, answers: seq<Answer>, last: int, over: bool, used: nat)

  /** A round that ends the loop: select fails, or is quiet too long after the last connection. */
  predicate EndsLoop(turn: Turn, last: int) {
    turn.what == Broken || (turn.what == Quiet && turn.time - last > IDLE_TIMEOUT_SECS)
  }

  predicate TurnValid(turn: Turn) {
    turn.what.Connected? ==> DirValid(turn.what.ev.dir)
  }

  function Round(tables: RuleTables, l: Loop, turn: Turn): (l': Loop)
    requires ValidState(l.st) && TurnValid(turn)
    ensures ValidState(l'.st)
  {
    if !l.st.running || l.over then l
    else if EndsLoop(turn, l.last) then l.(over := true, used := l.used + 1)
    else if turn.what.Connected? then
      var ev := turn.what.ev;
      NextKeepsState(tables, l.st, ev);
      Signalled(Loop(Next(tables, l.st, ev), l.answers + [AnswerTo(l.st, ev)], turn.time, false, l.used + 1),
          turn.signal)
    else Signalled(l.(used := l.used + 1), turn.signal)
  }

  function Signalled(l: Loop, signal: bool): Loop {
    if signal then l.(st := l.st.(running := false)) else l
  }

  /** The main loop after rounds that ended as given. */
  function LoopAfter(tables: RuleTables, dir: seq<Entry>, turns: seq<Turn>, start: int): (l: Loop)
    requires DirValid(dir) && TurnsValid(turns)
    ensures ValidState(l.st)
  {
    if turns == [] then
      LoadedLibraryValid(tables, dir);
      Loop(Start(tables, dir), [], start, false, 0)
    else Round(tables, LoopAfter(tables, dir, turns[..|turns| - 1], start), turns[|turns| - 1])
  }

  lemma LoopNext(tables: RuleTables, dir: seq<Entry>, turns: seq<Turn>, n: nat, start: int)
    requires DirValid(dir) && TurnsValid(turns) && n < |turns|
    ensures TurnValid(turns[n])
    ensures LoopAfter(tables, dir, turns[..n + 1], start)
        == Round(tables, LoopAfter(tables, dir, turns[..n], start), turns[n])
  {
    assert turns[..n + 1][..n] == turns[..n];
  }

  /** Once stopped, the loop takes no notice of further rounds. */
  lemma {:induction false} LoopStopped(tables: RuleTables, dir: seq<Entry>, turns: seq<Turn>, n: nat, start: int)
    requires DirValid(dir) && TurnsValid(turns) && n <= |turns|
    requires var l := LoopAfter(tables, dir, turns[..n], start); !l.st.running || l.over || n == |turns|
    ensures LoopAfter(tables, dir, turns, start) == LoopAfter(tables, dir, turns[..n], start)
    decreases |turns|
  {
    if n < |turns| {
      assert turns[..|turns| - 1][..n] == turns[..n];
      LoopStopped(tables, dir, turns[..|turns| - 1], n, start);
    } else {
      assert turns[..n] == turns;
    }
  }

  // ---- What the main loop amounts to --------------------------------------

  /** All connections accepted were served while the daemon ran, the state st is the one they
      left, and only a SHUTDOWN or a signal has cleared the flag. */
  ghost predicate Followed(tables: RuleTables, dir: seq<Entry>, turns: seq<Turn>, answers: seq<Answer>, st: State)
    requires DirValid(dir) && TurnsValid(turns)
  {
    var evs := Heard(turns);
    var left := Run(tables, dir, evs).st;
    && |answers| == |evs| && ServedInTurn(tables, dir, evs, answers)
    && st == left.(running := st.running) && (st.running ==> left.running)
    && (left.running && !st.running ==> exists n :: 0 <= n < |turns| && turns[n].signal)
  }

  lemma HeardSnoc(turns: seq<Turn>, turn: Turn)
    ensures Heard(turns + [turn]) == if turn.what.Connected? then Heard(turns) + [turn.what.ev] else Heard(turns)
    ensures TurnsValid(turns) && TurnValid(turn) ==> TurnsValid(turns + [turn])
  {
    assert (turns + [turn])[..|turns|] == turns;
  }

  lemma Unheard(tables: RuleTables, dir: seq<Entry>, turns: seq<Turn>, turn: Turn, answers: seq<Answer>, st: State)
    requires DirValid(dir) && TurnsValid(turns) && TurnsValid(turns + [turn]) && !turn.what.Connected?
    requires Followed(tables, dir, turns, answers, st)
    ensures Followed(tables, dir, turns + [turn], answers, st)
  {
    HeardSnoc(turns, turn);
    if n :| 0 <= n < |turns| && turns[n].signal { assert (turns + [turn])[n].signal; }
  }

  lemma HeardOne(tables: RuleTables, dir: seq<Entry>, turns: seq<Turn>, turn: Turn, answers: seq<Answer>, st: State)
    requires DirValid(dir) && TurnsValid(turns) && TurnsValid(turns + [turn]) && turn.what.Connected?
    requires Followed(tables, dir, turns, answers, st) && st.running && ValidState(st)
    ensures var ev := turn.what.ev;
      Followed(tables, dir, turns + [turn], answers + [AnswerTo(st, ev)], Next(tables, st, ev))
  {
    var evs, ev := Heard(turns), turn.what.ev;
    HeardSnoc(turns, turn);
    assert (turns + [turn])[|turns|] == turn;
    assert (evs + [ev])[..|evs|] == evs && (evs + [ev])[..|evs| + 1] == evs + [ev];
    ServedMore(tables, dir, evs, ev, answers);
    ServedNext(tables, dir, evs + [ev], answers, AnswerTo(st, ev));
  }

  lemma SignalFollows(tables: RuleTables, dir: seq<Entry>, turns: seq<Turn>, answers: seq<Answer>, st: State)
    requires DirValid(dir) && TurnsValid(turns) && Followed(tables, dir, turns, answers, st)
    requires turns != [] && turns[|turns| - 1].signal
    ensures Followed(tables, dir, turns, answers, st.(running := false))
  {}

  /** Why and when the loop stops: no round before the last ended it, and if there were rounds
      left then the last one did, or the flag is cleared. */
  predicate Halts(turns: seq<Turn>, l: Loop, start: int) {
    && l.used <= |turns| && (l.over ==> l.used > 0)
    && (l.over ==> EndsLoop(turns[l.used - 1], LastHeard(turns, l.used - 1, start)))
    && (!l.over ==> l.last == LastHeard(turns, l.used, start))
    && (l.used < |turns| ==> l.over || !l.st.running)
    && GoesOn(turns, if l.over then l.used - 1 else l.used, start)
  }

  /** None of the first n rounds ends the loop. */
  predicate GoesOn(turns: seq<Turn>, n: nat, start: int)
    requires n <= |turns|
  {
    n == 0 || (!EndsLoop(turns[n - 1], LastHeard(turns, n - 1, start)) && GoesOn(turns, n - 1, start))
  }

  /** The main loop: every connection accepted before it stops is served, in order, and it stops
      at the first round that ends it or when the flag is cleared. */
  ghost predicate LoopAccount(tables: RuleTables, dir: seq<Entry>, turns: seq<Turn>, start: int, l: Loop)
    requires DirValid(dir)
  {
    Halts(turns, l, start) && FollowedSoFar(tables, dir, turns, l)
  }

  lemma LoopMeans(tables: RuleTables, dir: seq<Entry>, turns: seq<Turn>, start: int)
    requires DirValid(dir) && TurnsValid(turns)
    ensures LoopAccount(tables, dir, turns, start, LoopAfter(tables, dir, turns, start))
  {
    LoopHalts(tables, dir, turns, start);
    LoopFollows(tables, dir, turns, start);
  }

  lemma {:induction false} LoopHalts(tables: RuleTables, dir: seq<Entry>, turns: seq<Turn>, start: int)
    requires DirValid(dir) && TurnsValid(turns)
    ensures Halts(turns, LoopAfter(tables, dir, turns, start), start)
  {
    if turns != [] {
      var front, turn := turns[..|turns| - 1], turns[|turns| - 1];
      LoopHalts(tables, dir, front, start);
      HaltsOn(tables, front, turn, LoopAfter(tables, dir, front, start), start);
      assert turns == front + [turn];
    }
  }

  /** The connections of the rounds that the loop has made are accounted for. */
  ghost predicate FollowedSoFar(tables: RuleTables, dir: seq<Entry>, turns: seq<Turn>, l: Loop)
    requires DirValid(dir)
  {
    l.used <= |turns| && TurnsValid(turns[..l.used]) && Followed(tables, dir, turns[..l.used], l.answers, l.st)
  }

  lemma {:induction false} LoopFollows(tables: RuleTables, dir: seq<Entry>, turns: seq<Turn>, start: int)
    requires DirValid(dir) && TurnsValid(turns)
    ensures FollowedSoFar(tables, dir, turns, LoopAfter(tables, dir, turns, start))
  {
    if turns == [] {
      var none: seq<Turn> := [];
      assert none[..0] == [];
    } else {
      var front, turn := turns[..|turns| - 1], turns[|turns| - 1];
      LoopFollows(tables, dir, front, start);
      LoopHalts(tables, dir, front, start);
      assert turns == front + [turn];
      FollowedOn(tables, dir, turns, front, turn, LoopAfter(tables, dir, front, start));
    }
  }

  lemma FollowedOn(tables: RuleTables, dir: seq<Entry>, all: seq<Turn>, turns: seq<Turn>, turn: Turn, l: Loop)
    requires DirValid(dir) && all == turns + [turn] && TurnsValid(turns) && TurnValid(turn) && ValidState(l.st)
    requires FollowedSoFar(tables, dir, turns, l) && (l.used < |turns| ==> l.over || !l.st.running)
    ensures FollowedSoFar(tables, dir, all, Round(tables, l, turn))
  {
    if l.st.running && !l.over {
      assert turns[..l.used] == turns && all[..l.used + 1] == turns + [turn];
      RoundFollows(tables, dir, turns, turn, l);
    } else {
      assert turns[..l.used] == all[..l.used];
    }
  }

  lemma RoundFollows(tables: RuleTables, dir: seq<Entry>, turns: seq<Turn>, turn: Turn, l: Loop)
    requires DirValid(dir) && TurnsValid(turns) && TurnValid(turn) && ValidState(l.st) && l.st.running && !l.over
    requires Followed(tables, dir, turns, l.answers, l.st)
    ensures TurnsValid(turns + [turn])
    ensures var l' := Round(tables, l, turn); Followed(tables, dir, turns + [turn], l'.answers, l'.st)
  {
    HeardSnoc(turns, turn);
    if turn.what.Connected? {
      HeardOne(tables, dir, turns, turn, l.answers, l.st);
      if turn.signal {
        SignalFollows(tables, dir, turns + [turn], l.answers + [AnswerTo(l.st, turn.what.ev)],
            Next(tables, l.st, turn.what.ev));
      }
    } else {
      Unheard(tables, dir, turns, turn, l.answers, l.st);
      if turn.signal { SignalFollows(tables, dir, turns + [turn], l.answers, l.st); }
    }
  }

  lemma HaltsOn(tables: RuleTables, turns: seq<Turn>, turn: Turn, l: Loop, start: int)
    requires ValidState(l.st) && TurnValid(turn) && Halts(turns, l, start)
    ensures Halts(turns + [turn], Round(tables, l, turn), start)
  {
    LastHeardPrefix(turns, turn, l.used, start);
    if l.over { LastHeardPrefix(turns, turn, l.used - 1, start); }
    GoesOnPrefix(turns, turn, if l.over then l.used - 1 else l.used, start);
  }

  lemma {:induction false} LastHeardPrefix(turns: seq<Turn>, turn: Turn, n: nat, start: int)
    requires n <= |turns|
    ensures LastHeard(turns + [turn], n, start) == LastHeard(turns, n, start)
  {
    if n > 0 { LastHeardPrefix(turns, turn, n - 1, start); }
  }

  lemma {:induction false} GoesOnPrefix(turns: seq<Turn>, turn: Turn, n: nat, start: int)
    requires n <= |turns| && GoesOn(turns, n, start)
    ensures GoesOn(turns + [turn], n, start)
  {
    if n > 0 {
      LastHeardPrefix(turns, turn, n - 1, start);
      GoesOnPrefix(turns, turn, n - 1, start);
    }
  }

  /** What a dedup table says after the injections of log: the live slots are exactly the pairs
      of the current block of 1024 injections, the n-th in slot n mod 1024, and two injections
      of one pair never fall in the same block. */
  ghost predicate InBlocks(table: seq<Pair>, log: seq<Pair>) {
    var n := |log|;
    && |table| == (if n == 0 then 0 else (n - 1) % 1024 + 1)
    && (forall i | 0 <= i < n && i / 1024 == (n - 1) / 1024 ::
          i % 1024 < |table| && table[i % 1024] == log[i])
    && (forall i, j | 0 <= i < j < n && log[i] == log[j] :: i / 1024 != j / 1024)
  }

  /** Over every run of requests, reloads and other connections the table is so. */
  lemma RunDedup(tables: RuleTables, dir: seq<Entry>, evs: seq<Event>)
    requires DirValid(dir) && EventsValid(evs)
    ensures var h := Run(tables, dir, evs); InBlocks(h.st.table, h.log)
  {
    var h := Run(tables, dir, evs);
    RunKeepsTable(tables, dir, evs);
    TableSlots(h.st.table, h.log);
  }

  lemma {:induction false} RunKeepsTable(tables: RuleTables, dir: seq<Entry>, evs: seq<Event>)
    requires DirValid(dir) && EventsValid(evs)
    ensures TableInv(Run(tables, dir, evs).st.table, Run(tables, dir, evs).log)
  {
    if evs != [] {
      var h := Run(tables, dir, evs[..|evs| - 1]);
      RunKeepsTable(tables, dir, evs[..|evs| - 1]);
      NextKeepsInv(tables, h.st, evs[|evs| - 1], h.log);
    }
  }

  lemma TableSlots(table: seq<Pair>, log: seq<Pair>)
    requires TableInv(table, log)
    ensures InBlocks(table, log)
  {
    var base := |log| - |table|;
    var q := base / MAX_DEDUP_ENTRIES;
    assert base == q * MAX_DEDUP_ENTRIES;
    forall i | 0 <= i < |log| && i / MAX_DEDUP_ENTRIES == (|log| - 1) / MAX_DEDUP_ENTRIES
      ensures i % MAX_DEDUP_ENTRIES < |table| && table[i % MAX_DEDUP_ENTRIES] == log[i]
    {
      assert (|log| - 1) / MAX_DEDUP_ENTRIES == q;
      assert i % MAX_DEDUP_ENTRIES == i - base;
    }
  }

  /** Between connections, and also after a reload, every rule points below the skill count
      and every table is within its cap. */
  lemma RunKeepsCaps(tables: RuleTables, dir: seq<Entry>, evs: seq<Event>)
    requires DirValid(dir) && EventsValid(evs)
    ensures var st := Run(tables, dir, evs).st;
      && |st.lib.skills| <= MAX_MAPPED_SKILLS && |st.table| <= MAX_DEDUP_ENTRIES
      && |st.lib.fileRules| <= MAX_RULES && |st.lib.bashRules| <= MAX_RULES
      && (forall rule, k | (rule in st.lib.fileRules || rule in st.lib.bashRules) && k in rule.skills ::
            k < |st.lib.skills|)
      && forall rule | rule in st.lib.fileRules || rule in st.lib.bashRules ::
           |rule.patterns| <= MAX_PATTERNS && |rule.skills| <= MAX_RULE_SKILLS
  {
    var st := Run(tables, dir, evs).st;
    forall rule, k | (rule in st.lib.fileRules || rule in st.lib.bashRules) && k in rule.skills
      ensures k < |st.lib.skills|
    {
      assert RuleValid(rule, |st.lib.skills|);
    }
    forall rule | rule in st.lib.fileRules || rule in st.lib.bashRules
      ensures |rule.patterns| <= MAX_PATTERNS && |rule.skills| <= MAX_RULE_SKILLS
    {
      assert RuleValid(rule, |st.lib.skills|);
    }
  }
}
