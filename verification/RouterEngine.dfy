/** The router daemon itself: global arrays and counters that loops update in place.
    Every method is proved against the functions of RouterSpec and RouterRuns. */
module RouterEngine {
  import opened Wrappers
  import opened CText
  import opened StableSort
  import opened RouterSpec
  import opened RouterTheorems
  import opened RouterRuns

  /** C's int: every sum below is checked to stay inside it. */
  newtype int32 = x: int | -0x8000_0000 <= x <= 0x7fff_ffff

  class Router {
    const tables: RuleTables
    const skills: array<Skill>
    var skillCount: nat
    const fileRules: array<Rule>
    var fileRuleCount: nat
    const bashRules: array<Rule>
    var bashRuleCount: nat
    const dedup: array<Pair>
    var dedupCount: nat
    var running: bool

    /** Array sizes and counters; holds at every moment, also in the middle of a reload. */
    ghost predicate Shape()
      reads this
    {
      && skills.Length == MAX_MAPPED_SKILLS && skillCount <= MAX_MAPPED_SKILLS
      && fileRules.Length == MAX_RULES && fileRuleCount <= MAX_RULES
      && bashRules.Length == MAX_RULES && bashRuleCount <= MAX_RULES
      && dedup.Length == MAX_DEDUP_ENTRIES && dedupCount <= MAX_DEDUP_ENTRIES
      && fileRules != bashRules
    }

    ghost function Skills(): seq<Skill>
      reads this, skills
      requires Shape()
    {
      skills[..skillCount]
    }

    ghost function Lib(): Library
      reads this, skills, fileRules, bashRules
      requires Shape()
    {
      Library(Skills(), fileRules[..fileRuleCount], bashRules[..bashRuleCount])
    }

    ghost function Table(): seq<Pair>
      reads this, dedup
      requires Shape()
    {
      dedup[..dedupCount]
    }

    /** Holds between connections. */
    ghost predicate Valid()
      reads this, skills, fileRules, bashRules
    {
      Shape() && ValidLibrary(Lib())
    }

    ghost function Abstract(): State
      reads this, skills, fileRules, bashRules, dedup
      requires Shape()
    {
      State(Lib(), Table(), running)
    }

    /** Start-up: everything zeroed, then skills and rules loaded. */
    constructor (tables: RuleTables, dir: seq<Entry>)
      requires DirValid(dir)
      ensures Valid() && this.tables == tables
      ensures fresh(skills) && fresh(fileRules) && fresh(bashRules) && fresh(dedup)
      ensures Abstract() == Start(tables, dir)
    {
      this.tables := tables;
      skills := new Skill[MAX_MAPPED_SKILLS];
      fileRules := new Rule[MAX_RULES];
      bashRules := new Rule[MAX_RULES];
      dedup := new Pair[MAX_DEDUP_ENTRIES];
      skillCount, fileRuleCount, bashRuleCount, dedupCount, running := 0, 0, 0, 0, true;
      new;
      LoadAllSkills(dir);
      LoadRuleTables();
      LoadedLibraryValid(tables, dir);
    }

    // ---- Skills and rules -------------------------------------------------

    method FindSkillIndex(id: string) returns (idx: int)
      requires Shape()
      ensures idx == (match FindSkill(Skills(), id) case None => -1 case Some(i) => i)
    {
      var i := 0;
      while i < skillCount
        invariant i <= skillCount
        invariant forall j | 0 <= j < i :: Skills()[j].id != id
      {
        if skills[i].id == id {
          assert Skills()[i].id == id;
          return i;
        }
        i := i + 1;
      }
      return -1;
    }

    method LoadAllSkills(dir: seq<Entry>)
      requires Shape() && skillCount == 0
      modifies this`skillCount, skills
      ensures Shape() && Skills() == LoadSkills(dir)
    {
      assert Skills() == [];
      assert dir[..|dir|] == dir;
      for n := 0 to |dir|
        invariant Shape() && Skills() == LoadSkills(dir[..n])
      {
        assert dir[..n + 1][..n] == dir[..n];
        var e := dir[n];
        if e.name != [] && (e.name[0] == '.' || e.name[0] == '_') { continue; }
        if e.name != [] && e.content.Some? {
          MmapSkill(e.name, e.content.value);
        }
      }
    }

    method MmapSkill(id: string, data: bytes)
      requires Shape()
      modifies this`skillCount, skills
      ensures Shape()
      ensures Skills() == if old(skillCount) < MAX_MAPPED_SKILLS && data != []
                          then old(Skills()) + [Skill(Truncate(id, ID_LEN), data)] else old(Skills())
    {
      if skillCount >= MAX_MAPPED_SKILLS || |data| == 0 { return; }
      skills[skillCount] := Skill(Truncate(id, ID_LEN), data);
      skillCount := skillCount + 1;
    }

    method UnloadAllSkills()
      requires Shape()
      modifies this`skillCount
      ensures Shape() && skillCount == 0
    {
      skillCount := 0;
    }

    /** Appends one rule unless the table is full; strtok splits the patterns, at most 16. */
    method AddRule(rules: array<Rule>, count: nat, isBash: bool, spec: RuleSpec) returns (count': nat)
      requires Shape() && rules.Length == MAX_RULES && count <= MAX_RULES
      modifies rules
      ensures count <= count' <= MAX_RULES
      ensures rules[..count'] == old(rules[..count])
                + (if count < MAX_RULES then [MakeRule(old(Skills()), spec, isBash)] else [])
    {
      if count >= MAX_RULES { return count; }
      var patterns := SplitPatterns(Truncate(spec.patterns, PATTERN_BUF));
      var indices := ResolveIds(spec.skillIds);
      var rule := Rule(patterns, indices, spec.priority, isBash);
      assert rule == MakeRule(Skills(), spec, isBash);
      rules[count] := rule;
      assert rules[..count + 1] == rules[..count] + [rule];
      return count + 1;
    }

    /** The indices of the first three skill ids that are loaded. */
    method ResolveIds(ids: seq<string>) returns (indices: seq<nat>)
      requires Shape()
      ensures indices == Resolve(Skills(), Truncate(ids, MAX_RULE_SKILLS))
    {
      indices := [];
      var i := 0;
      assert ids[..0] == [];
      while i < |ids| && i < MAX_RULE_SKILLS
        invariant i <= |ids| && i <= MAX_RULE_SKILLS
        invariant indices == Resolve(Skills(), ids[..i])
      {
        var idx := FindSkillIndex(ids[i]);
        assert ids[..i + 1][..i] == ids[..i];
        if idx >= 0 {
          indices := indices + [idx];
        }
        i := i + 1;
      }
      assert ids[..i] == Truncate(ids, MAX_RULE_SKILLS);
    }

    /** strtok over the copied buffer: rest is what strtok has not consumed yet. */
    static method SplitPatterns(buf: string) returns (patterns: seq<string>)
      ensures patterns == ClipAll(Truncate(Tokens(buf), MAX_PATTERNS))
    {
      patterns := [];
      var rest := buf;
      ghost var taken: seq<string> := [];
      while |patterns| < MAX_PATTERNS
        invariant |patterns| <= MAX_PATTERNS
        invariant Tokens(buf) == taken + Tokens(rest) && patterns == ClipAll(taken)
        invariant |patterns| < MAX_PATTERNS || patterns == ClipAll(Truncate(Tokens(buf), MAX_PATTERNS))
        decreases |rest|, 1
      {
        while rest != [] && rest[0] == '|'
          invariant Tokens(buf) == taken + Tokens(rest)
          decreases |rest|
        {
          rest := rest[1..];
        }
        if rest == [] {
          assert Tokens(buf) == taken;
          return;
        }
        var n := RunLength(rest);
        var token := rest[..n];
        assert Tokens(rest) == [token] + Tokens(rest[n..]);
        assert taken + Tokens(rest) == (taken + [token]) + Tokens(rest[n..]);
        patterns := patterns + [Truncate(token, ID_LEN)];
        taken := taken + [token];
        rest := rest[n..];
        assert |taken| == MAX_PATTERNS ==> Truncate(Tokens(buf), MAX_PATTERNS) == taken;
      }
    }

    method LoadRuleTables()
      requires Shape() && fileRuleCount == 0 && bashRuleCount == 0
      modifies this`fileRuleCount, this`bashRuleCount, fileRules, bashRules
      ensures Shape()
      ensures fileRules[..fileRuleCount] == LoadRules(Skills(), tables.file, false)
      ensures bashRules[..bashRuleCount] == LoadRules(Skills(), tables.bash, true)
    {
      fileRuleCount := AddRules(fileRules, tables.file, false);
      bashRuleCount := AddRules(bashRules, tables.bash, true);
    }

    /** One rule after the other, in the order of the table. */
    method AddRules(rules: array<Rule>, specs: seq<RuleSpec>, isBash: bool) returns (count: nat)
      requires Shape() && rules.Length == MAX_RULES
      modifies rules
      ensures count <= MAX_RULES && rules[..count] == LoadRules(Skills(), specs, isBash)
    {
      count := 0;
      for n := 0 to |specs|
        invariant count <= MAX_RULES && Skills() == old(Skills())
        invariant rules[..count] == LoadRules(Skills(), specs[..n], isBash)
      {
        assert specs[..n + 1][..n] == specs[..n];
        count := AddRule(rules, count, isBash, specs[n]);
      }
      assert specs[..|specs|] == specs;
    }

    // ---- Dedup ------------------------------------------------------------

    method IsDeduped(session: string, skill: string) returns (found: bool)
      requires Shape()
      ensures found <==> Pair(session, skill) in Table()
    {
      var i := 0;
      while i < dedupCount
        invariant i <= dedupCount
        invariant Pair(session, skill) !in dedup[..i]
      {
        if dedup[i].session == session && dedup[i].skill == skill {
          assert Table()[i] == Pair(session, skill);
          return true;
        }
        i := i + 1;
      }
      return false;
    }

    /** Writes the next slot, starting over at slot 0 when all 1024 are in use. */
    method MarkDeduped(session: string, skill: string)
      requires Shape()
      modifies this`dedupCount, dedup
      ensures Shape() && Table() == Mark(old(Table()), Pair(session, skill))
      ensures dedup[..] == old(dedup[..])[dedupCount - 1 := Pair(session, skill)]
    {
      if dedupCount >= MAX_DEDUP_ENTRIES {
        dedupCount := 0;
      }
      dedup[dedupCount] := Pair(session, skill);
      dedupCount := dedupCount + 1;
    }

    // ---- handle_request ---------------------------------------------------

    static method RuleMatches(rule: Rule, str: string, basename: string) returns (m: bool)
      requires rule.isBash || basename == Basename(str)
      ensures m <==> Matches(rule, str)
    {
      var p := 0;
      while p < |rule.patterns|
        invariant p <= |rule.patterns|
        invariant forall q | 0 <= q < p :: !PatternMatches(rule.isBash, rule.patterns[q], str)
      {
        var pat := rule.patterns[p];
        if rule.isBash {
          if Contains(str, pat) {
            assert PatternMatches(rule.isBash, rule.patterns[p], str);
            return true;
          }
        } else {
          BasenameRedundant(pat, str);
          if |basename| >= |pat| && basename[|basename| - |pat|..] == pat {
            assert PatternMatches(rule.isBash, rule.patterns[p], str);
            return true;
          }
          if |str| >= |pat| && str[|str| - |pat|..] == pat {
            assert PatternMatches(rule.isBash, rule.patterns[p], str);
            return true;
          }
        }
        p := p + 1;
      }
      return false;
    }

    /** Phase 1: fills hits with the first 64 hits in rule order. */
    static method CollectHits(rules: array<Rule>, ruleCount: nat, path: string, basename: string, hits: array<Hit>)
      returns (hitCount: nat)
      requires ruleCount <= rules.Length && hits.Length == MAX_HITS
      requires forall r | 0 <= r < ruleCount :: rules[r].isBash || basename == Basename(path)
      modifies hits
      ensures hitCount <= MAX_HITS
      ensures hits[..hitCount] == Truncate(AllHits(old(rules[..ruleCount]), path), MAX_HITS)
    {
      hitCount := 0;
      ghost var rs := rules[..ruleCount];
      for r := 0 to ruleCount
        invariant hitCount <= MAX_HITS
        invariant hits[..hitCount] == Truncate(AllHits(rs[..r], path), MAX_HITS)
      {
        assert rs[..r + 1][..r] == rs[..r];
        var rule := rules[r];
        var m := RuleMatches(rule, path, basename);
        if !m { continue; }
        ghost var before := AllHits(rs[..r], path);
        var s := 0;
        while s < |rule.skills|
          invariant s <= |rule.skills| && hitCount <= MAX_HITS
          invariant hits[..hitCount] == Truncate(before + RuleHits(rule)[..s], MAX_HITS)
        {
          assert RuleHits(rule)[..s + 1] == RuleHits(rule)[..s] + [Hit(rule.skills[s], rule.priority)];
          if hitCount >= MAX_HITS {
            assert (before + RuleHits(rule))[..MAX_HITS] == (before + RuleHits(rule)[..s])[..MAX_HITS];
            break;
          }
          hits[hitCount] := Hit(rule.skills[s], rule.priority);
          hitCount := hitCount + 1;
          s := s + 1;
        }
        assert s == |rule.skills| ==> RuleHits(rule)[..s] == RuleHits(rule);
      }
      assert rs[..ruleCount] == rs;
    }

    /** memcpy(buf + at, src, |src|) */
    static method MemCpy(buf: array<byte>, at: int32, src: bytes)
      requires 0 <= at && at as int + |src| <= buf.Length
      modifies buf
      ensures buf[..at as int + |src|] == old(buf[..at as int]) + src
    {
      var n := at as int;
      forall i | 0 <= i < |src| {
        buf[n + i] := src[i];
      }
    }

    /** Whether an earlier hit has the same skill. */
    static method SeenBefore(hits: array<Hit>, i: nat) returns (seen: bool)
      requires i < hits.Length
      ensures seen <==> hits[i].skill in SkillsOf(hits[..i])
    {
      var j := 0;
      while j < i
        invariant j <= i
        invariant forall m | 0 <= m < j :: hits[m].skill != hits[i].skill
      {
        if hits[j].skill == hits[i].skill {
          assert SkillsOf(hits[..i])[j] == hits[i].skill;
          return true;
        }
        j := j + 1;
      }
      return false;
    }

    /** The budget checks and the copies for one skill: appends it, after a separator unless
        it is the first, when the result stays within the buffer. */
    static method Append(buf: array<byte>, total: int32, selected: nat, data: bytes) returns (fits: bool, total': int32)
      requires buf.Length == BUDGET && 0 <= total && total as int <= BUDGET
      requires |data| <= MAX_SKILL_SIZE
      modifies buf
      ensures 0 <= total' && total' as int <= BUDGET
      ensures var text := old(buf[..total as int]) + (if selected > 0 then SEPARATOR else []) + data;
        && (fits <==> |text| <= BUDGET)
        && buf[..total' as int] == if fits then text else old(buf[..total as int])
    {
      var size := |data| as int32;
      if total + size > BUDGET as int32 { return false, total; }
      total' := total;
      if selected > 0 {
        var sepLen: int32 := 7;
        if total + sepLen + size > BUDGET as int32 { return false, total; }
        MemCpy(buf, total', SEPARATOR);
        total' := total' + sepLen;
      }
      MemCpy(buf, total', data);
      total' := total' + size;
      fits := true;
    }

    /** One hit whose skill is new to the walk: skipped if the session knows it or it does not
        fit, otherwise appended and marked. */
    method TrySkill(session: string, idx: nat, buf: array<byte>, total: int32, selected: nat, ghost p: Picks)
      returns (known: bool, total': int32, selected': nat)
      requires Shape() && buf.Length == BUDGET && idx < skillCount && |skills[idx].data| <= MAX_SKILL_SIZE
      requires Below(p.chosen, skillCount) && selected == |p.chosen| < MAX_PICKS
      requires 0 <= total && total as int <= BUDGET
      requires Table() == p.table && buf[..total as int] == Content(Skills(), p.chosen)
      modifies this`dedupCount, dedup, buf
      ensures Shape() && 0 <= total' && total' as int <= BUDGET
      ensures known <==> PairOf(session, Skills(), idx) in p.table
      ensures var q := Consider(Skills(), session, p, idx);
        Table() == q.table && selected' == |q.chosen| && buf[..total' as int] == Content(Skills(), q.chosen)
    {
      total', selected' := total, selected;
      var skill := skills[idx];
      assert skill == Skills()[idx];
      known := IsDeduped(session, skill.id);
      if known { return; }
      ContentSnoc(Skills(), p.chosen, idx);
      var fits;
      fits, total' := Append(buf, total, selected, skill.data);
      if !fits { return; }
      MarkDeduped(session, skill.id);
      selected' := selected + 1;
    }

    /** What the walk over the sorted hits keeps: after i hits the table, the count and the
        bytes in buf are those of the greedy choice, and allDeduped is still exact while
        nothing has been selected. */
    ghost predicate Progress(session: string, table: seq<Pair>, s: seq<nat>, i: nat, buf: array<byte>,
                             total: int32, selected: nat, allDeduped: bool)
      reads this, skills, dedup, buf
      requires Shape() && Below(s, skillCount) && i <= |s| && buf.Length == BUDGET
    {
      var p := AtTurn(Skills(), session, table, s, i);
      && 0 <= total && total as int <= BUDGET
      && Table() == p.table && selected == |p.chosen| && buf[..total as int] == Content(Skills(), p.chosen)
      && (p.chosen == [] ==> p.table == table && (allDeduped <==> KnownBefore(Skills(), session, table, s, i)))
    }

    /** One iteration: a hit whose skill occurred before is skipped. */
    method VisitHit(session: string, hits: array<Hit>, i: nat, buf: array<byte>, total: int32, selected: nat,
                    allDeduped: bool, ghost table: seq<Pair>, ghost s: seq<nat>)
      returns (total': int32, selected': nat, allDeduped': bool)
      requires Shape() && buf.Length == BUDGET && i < |s| <= hits.Length
      requires s == SkillsOf(hits[..|s|]) && Below(s, skillCount) && selected < MAX_PICKS
      requires forall k | 0 <= k < skillCount :: |Skills()[k].data| <= MAX_SKILL_SIZE
      requires Progress(session, table, s, i, buf, total, selected, allDeduped)
      modifies this`dedupCount, dedup, buf
      ensures Shape() && Progress(session, table, s, i + 1, buf, total', selected', allDeduped')
    {
      TurnStep(Skills(), session, table, s, i);
      KnownStep(Skills(), session, table, s, i);
      total', selected', allDeduped' := total, selected, allDeduped;
      assert hits[i].skill == s[i] && SkillsOf(hits[..i]) == s[..i];
      assert |skills[s[i]].data| == |Skills()[s[i]].data|;
      var seen := SeenBefore(hits, i);
      if seen { return; }
      var known;
      known, total', selected' := TrySkill(session, hits[i].skill, buf, total, selected,
                                           AtTurn(Skills(), session, table, s, i));
      if known { return; }
      allDeduped' := false;
    }

    /** Phase 3: walks the sorted hits, skipping repeated skills and known pairs, until three
        skills are selected; fills buf and the dedup table. */
    method SelectSkills(session: string, hits: array<Hit>, hitCount: nat, buf: array<byte>)
      returns (total: int32, selected: nat, allDeduped: bool)
      requires Shape() && buf.Length == BUDGET && hitCount <= hits.Length
      requires Below(SkillsOf(hits[..hitCount]), skillCount)
      requires forall k | 0 <= k < skillCount :: |Skills()[k].data| <= MAX_SKILL_SIZE
      modifies this`dedupCount, dedup, buf
      ensures Shape()
      ensures Progress(session, old(Table()), SkillsOf(old(hits[..hitCount])), hitCount, buf, total, selected,
          allDeduped)
    {
      ghost var table, s := Table(), SkillsOf(hits[..hitCount]);
      total, selected, allDeduped := 0, 0, true;
      var i := 0;
      AtFirstTurn(Skills(), session, table, s);
      assert s[..0] == [];
      while i < hitCount && selected < MAX_PICKS
        invariant i <= hitCount && Shape() && Skills() == old(Skills()) && SkillsOf(hits[..hitCount]) == s
        invariant Progress(session, table, s, i, buf, total, selected, allDeduped)
      {
        total, selected, allDeduped := VisitHit(session, hits, i, buf, total, selected, allDeduped, table, s);
        i := i + 1;
      }
      ChosenGrows(Skills(), session, table, s, i, |s|);
    }

    /** Phases 1 to 3 for the chosen rule array. */
    method RouteWith(rules: array<Rule>, ruleCount: nat, req: Request, basename: string, buf: array<byte>)
      returns (len: nat, count: nat, status: Status)
      requires Valid() && buf.Length == BUDGET
      requires ruleCount <= rules.Length && rules[..ruleCount] == RulesFor(Lib(), req)
      requires forall r | 0 <= r < ruleCount :: rules[r].isBash || basename == Basename(req.path)
      modifies this`dedupCount, dedup, buf
      ensures Valid() && len <= buf.Length
      ensures var r := Respond(Lib(), old(Table()), req);
        status == r.status && count == r.count && buf[..len] == r.content && Table() == r.table
    {
      ghost var lib, table := Lib(), Table();
      var hits := new Hit[MAX_HITS];
      var hitCount := CollectHits(rules, ruleCount, req.path, basename, hits);
      if hitCount == 0 {
        NoHits(lib, table, req);
        return 0, 0, NoMatch;
      }
      ghost var unsorted := hits[..];
      InsertionSort(hits, hitCount);
      assert hits[..hitCount] == Sorted(unsorted[..hitCount]);
      FirstHitsBelow(lib, req);
      ghost var s := SkillsOf(hits[..hitCount]);
      assert s[..|s|] == s;
      assert s[0] in Distinct(s);
      var total, selected, allDeduped := SelectSkills(req.session, hits, hitCount, buf);
      len, count := total as int, selected;
      if selected > 0 {
        status := Matched;
      } else if allDeduped && hitCount > 0 {
        status := Deduped;
      } else {
        status := NoMatch;
      }
    }

    method HandleRequest(req: Request, buf: array<byte>) returns (len: nat, count: nat, status: Status)
      requires Valid() && buf.Length == BUDGET
      modifies this`dedupCount, dedup, buf
      ensures Valid() && len <= buf.Length
      ensures var r := Respond(Lib(), old(Table()), req);
        status == r.status && count == r.count && buf[..len] == r.content && Table() == r.table
    {
      var isFileTool, isBash := IsFileTool(req.tool), IsBashTool(req.tool);
      if isFileTool && req.path != [] {
        len, count, status := RouteWith(fileRules, fileRuleCount, req, Basename(req.path), buf);
      } else if isBash && req.path != [] {
        assert forall r | 0 <= r < bashRuleCount :: bashRules[r] == Lib().bashRules[r];
        len, count, status := RouteWith(bashRules, bashRuleCount, req, [], buf);
      } else {
        NoHits(Lib(), Table(), req);
        return 0, 0, NoMatch;
      }
    }

    // ---- process_connection -----------------------------------------------

    method ReloadAll(dir: seq<Entry>)
      requires Shape() && DirValid(dir)
      modifies this`skillCount, this`fileRuleCount, this`bashRuleCount, skills, fileRules, bashRules
      ensures Valid() && Abstract() == old(Abstract()).(lib := Load(tables, dir))
    {
      UnloadAllSkills();
      LoadAllSkills(dir);
      ReloadRules();
      LoadedLibraryValid(tables, dir);
    }

    method ReloadRules()
      requires Shape()
      modifies this`fileRuleCount, this`bashRuleCount, fileRules, bashRules
      ensures Shape() && Lib() == Library(Skills(), LoadRules(Skills(), tables.file, false),
          LoadRules(Skills(), tables.bash, true))
      ensures Skills() == old(Skills())
    {
      fileRuleCount := 0;
      bashRuleCount := 0;
      LoadRuleTables();
    }

    /** One connection. dir is what the skills directory holds if a reload reads it. */
    method ProcessConnection(msg: Message, dir: seq<Entry>) returns (answer: Answer)
      requires Valid() && DirValid(dir)
      modifies this, skills, fileRules, bashRules, dedup
      ensures Valid()
      ensures Abstract() == Next(tables, old(Abstract()), Event(msg, dir))
      ensures answer == AnswerTo(old(Abstract()), Event(msg, dir))
    {
      if msg.Short? { return Closed; }
      if msg.magic != PROTOCOL_MAGIC || msg.version != PROTOCOL_VERSION { return Closed; }
      var handled := false;
      if msg.req.tool == 0 { handled := Control(msg.req.path, dir); }
      if handled { return Answer(Matched, 0, []); }
      answer := Route(msg.req);
    }

    /** The control commands; all of them are answered alike. */
    method Control(path: string, dir: seq<Entry>) returns (handled: bool)
      requires Valid() && DirValid(dir)
      modifies this`skillCount, this`fileRuleCount, this`bashRuleCount, this`running, skills, fileRules, bashRules
      ensures Valid() && handled == (ControlOf(path) != Command.Route)
      ensures Abstract() == match ControlOf(path)
        case Shutdown => old(Abstract()).(running := false)
        case Reload => old(Abstract()).(lib := Load(tables, dir))
        case _ => old(Abstract())
    {
      if "PING" <= path { return true; }
      if "SHUTDOWN" <= path {
        running := false;
        return true;
      }
      if "RELOAD" <= path {
        ReloadAll(dir);
        return true;
      }
      return false;
    }

    method Route(req: Request) returns (answer: Answer)
      requires Valid()
      modifies this`dedupCount, dedup
      ensures Valid()
      ensures var r := Respond(Lib(), old(Table()), req);
        answer == Answer(r.status, r.count, r.content) && Abstract() == old(Abstract()).(table := r.table)
    {
      var buf := new byte[BUDGET];
      var len, count, status := HandleRequest(req, buf);
      return Answer(status, count, buf[..len]);
    }

    /** The loop of main, until a SHUTDOWN or a signal clears the flag, select fails, or nothing
        came in for too long. used is how many rounds there were. */
    method Serve(turns: seq<Turn>, start: int, ghost dir: seq<Entry>) returns (answers: seq<Answer>, used: nat)
      requires Valid() && DirValid(dir) && TurnsValid(turns)
      requires Abstract() == Start(tables, dir)
      modifies this, skills, fileRules, bashRules, dedup
      ensures Valid()
      ensures var l := LoopAfter(tables, dir, turns, start);
        Abstract() == l.st && answers == l.answers && used == l.used
    {
      answers, used := [], 0;
      var lastActivity, over := start, false;
      assert turns[..0] == [];
      while running && !over && used < |turns|
        invariant Valid() && used <= |turns|
        invariant LoopAfter(tables, dir, turns[..used], start) == Loop(Abstract(), answers, lastActivity, over, used)
      {
        LoopNext(tables, dir, turns, used, start);
        answers, lastActivity, over := OneRound(turns[used], answers, lastActivity, used);
        used := used + 1;
      }
      LoopStopped(tables, dir, turns, used, start);
    }

    method OneRound(turn: Turn, answers: seq<Answer>, lastActivity: int, ghost used: nat)
      returns (answers': seq<Answer>, lastActivity': int, over: bool)
      requires Valid() && running && TurnValid(turn)
      modifies this, skills, fileRules, bashRules, dedup
      ensures Valid()
      ensures Loop(Abstract(), answers', lastActivity', over, used + 1)
           == Round(tables, Loop(old(Abstract()), answers, lastActivity, false, used), turn)
    {
      answers', lastActivity', over := answers, lastActivity, false;
      if turn.what == Broken { return answers, lastActivity, true; }
      if turn.what == Quiet && turn.time - lastActivity > IDLE_TIMEOUT_SECS { return answers, lastActivity, true; }
      if turn.what.Connected? {
        lastActivity' := turn.time;
        var answer := ProcessConnection(turn.what.ev.msg, turn.what.ev.dir);
        answers' := answers + [answer];
      }
      if turn.signal { running := false; }
    }
  }

  /** Whether the table knows every skill of the first i hits. */
  predicate KnownBefore(skills: seq<Skill>, session: string, table: seq<Pair>, s: seq<nat>, i: nat)
    requires Below(s, |skills|) && i <= |s|
  {
    BelowPrefix(s, i, |skills|);
    AllKnown(skills, session, table, Distinct(s[..i]))
  }

  lemma KnownStep(skills: seq<Skill>, session: string, table: seq<Pair>, s: seq<nat>, i: nat)
    requires Below(s, |skills|) && i < |s|
    ensures KnownBefore(skills, session, table, s, i + 1)
            <==> KnownBefore(skills, session, table, s, i) && (FirstAt(s, i) ==> PairOf(session, skills, s[i]) in table)
  {
    DistinctPrefix(s, i);
    var d := Distinct(s[..i]);
    assert forall j | 0 <= j < |d| :: (d + [s[i]])[j] == d[j];
    assert (d + [s[i]])[|d|] == s[i];
  }

  lemma NoHits(lib: Library, table: seq<Pair>, req: Request)
    requires ValidLibrary(lib) && FirstHits(lib, req) == []
    ensures Respond(lib, table, req) == Reply(NoMatch, 0, [], table)
  {
    assert Candidates(lib, req) == [];
    assert Content(lib.skills, []) == [];
  }
}
