/** What the skill router computes, on values: rules, hits, the greedy choice of skills
    under the three limits, and the reply. The engine is proved against these functions. */
module RouterSpec {
  import opened Wrappers
  import opened CText
  import opened StableSort

  const MAX_MAPPED_SKILLS := 256
  const MAX_DEDUP_ENTRIES := 1024
  const MAX_RULES := 64
  const MAX_PATTERNS := 16
  const MAX_RULE_SKILLS := 3
  const MAX_HITS := 64
  const MAX_PICKS := 3
  const BUDGET := 24576
  const ID_LEN := 127
  const PATTERN_BUF := 1023
  const SEPARATOR: bytes := [10, 10, 45, 45, 45, 10, 10]
  /** The largest file for which none of the engine's int sums overflows. */
  const MAX_SKILL_SIZE := 0x7fff_ffff - 24583

  datatype Skill = Skill(id: string, data: bytes)

  datatype Rule = Rule(patterns: seq<string>, skills: seq<nat>, priority: int, isBash: bool)

  /** One row of the compiled-in rule table. */
  datatype RuleSpec = RuleSpec(patterns: string, priority: int, skillIds: seq<string>)

  datatype Pair = Pair(session: string, skill: string)

  datatype Library = Library(skills: seq<Skill>, fileRules: seq<Rule>, bashRules: seq<Rule>)

  datatype Request = Request(tool: byte, path: string, session: string)

  datatype Status = NoMatch | Matched | Deduped

  datatype Reply = Reply(status: Status, count: nat, content: bytes, table: seq<Pair>)

  // ---- Rules --------------------------------------------------------------

  predicate PatternMatches(isBash: bool, pattern: string, path: string) {
    if isBash then Contains(path, pattern) else IsSuffix(pattern, path)
  }

  predicate Matches(rule: Rule, path: string) {
    exists p | 0 <= p < |rule.patterns| :: PatternMatches(rule.isBash, rule.patterns[p], path)
  }

  /** First skill with the given id. */
  function FindSkill(skills: seq<Skill>, id: string): (r: Option<nat>)
    ensures r.Some? ==> r.value < |skills| && skills[r.value].id == id
    ensures r.Some? ==> forall j | 0 <= j < r.value :: skills[j].id != id
    ensures r.None? ==> forall j | 0 <= j < |skills| :: skills[j].id != id
  {
    if skills == [] then None
    else if skills[0].id == id then Some(0)
    else match FindSkill(skills[1..], id)
      case None =>
        assert forall j | 1 <= j < |skills| :: skills[j] == skills[1..][j - 1];
        None
      case Some(i) =>
        assert forall j | 1 <= j < |skills| :: skills[j] == skills[1..][j - 1];
        Some(i + 1)
  }

  function Resolve(skills: seq<Skill>, ids: seq<string>): (r: seq<nat>)
    ensures |r| <= |ids| && Below(r, |skills|)
  {
    if ids == [] then []
    else
      Resolve(skills, ids[..|ids| - 1]) +
      (match FindSkill(skills, ids[|ids| - 1]) case None => [] case Some(i) => [i])
  }

  function ClipAll(tokens: seq<string>): (r: seq<string>)
    ensures |r| == |tokens|
    ensures forall i | 0 <= i < |r| :: r[i] == Truncate(tokens[i], ID_LEN)
  {
    seq(|tokens|, i requires 0 <= i < |tokens| => Truncate(tokens[i], ID_LEN))
  }

  function MakeRule(skills: seq<Skill>, spec: RuleSpec, isBash: bool): (r: Rule) {
    Rule(ClipAll(Truncate(Tokens(Truncate(spec.patterns, PATTERN_BUF)), MAX_PATTERNS)),
         Resolve(skills, Truncate(spec.skillIds, MAX_RULE_SKILLS)),
         spec.priority, isBash)
  }

  predicate WithinCaps(patterns: string) {
    |patterns| <= PATTERN_BUF && |Tokens(patterns)| <= MAX_PATTERNS
    && forall t | t in Tokens(patterns) :: |t| <= ID_LEN
  }

  lemma RulePatterns(skills: seq<Skill>, spec: RuleSpec, isBash: bool)
    requires WithinCaps(spec.patterns)
    ensures MakeRule(skills, spec, isBash).patterns == Tokens(spec.patterns)
  {
    var ts := Tokens(spec.patterns);
    var rule := MakeRule(skills, spec, isBash);
    forall i | 0 <= i < |ts| ensures rule.patterns[i] == ts[i] { assert ts[i] in ts; }
  }

  /** A file rule matches exactly the paths that end in one of its pipe-separated patterns. */
  lemma FileRuleMeaning(skills: seq<Skill>, spec: RuleSpec, path: string)
    requires WithinCaps(spec.patterns)
    ensures Matches(MakeRule(skills, spec, false), path)
            <==> exists t, u :: IsField(spec.patterns, t) && path == u + t
  {
    var ts := Tokens(spec.patterns);
    var rule := MakeRule(skills, spec, false);
    RulePatterns(skills, spec, false);
    if p :| 0 <= p < |ts| && IsSuffix(ts[p], path) {
      TokensAreFields(spec.patterns, ts[p]);
      SuffixMeans(ts[p], path);
    }
    if t, u :| IsField(spec.patterns, t) && path == u + t {
      TokensAreFields(spec.patterns, t);
      SuffixMeans(t, path);
      var p :| 0 <= p < |ts| && ts[p] == t;
      assert PatternMatches(false, rule.patterns[p], path);
    }
  }

  /** A bash rule matches exactly the commands in which one of its patterns occurs. */
  lemma BashRuleMeaning(skills: seq<Skill>, spec: RuleSpec, command: string)
    requires WithinCaps(spec.patterns)
    ensures Matches(MakeRule(skills, spec, true), command)
            <==> exists t, u, v :: IsField(spec.patterns, t) && command == u + t + v
  {
    var ts := Tokens(spec.patterns);
    var rule := MakeRule(skills, spec, true);
    RulePatterns(skills, spec, true);
    if p :| 0 <= p < |ts| && Contains(command, ts[p]) {
      TokensAreFields(spec.patterns, ts[p]);
      ContainsMeans(command, ts[p]);
    }
    if t, u, v :| IsField(spec.patterns, t) && command == u + t + v {
      TokensAreFields(spec.patterns, t);
      ContainsMeans(command, t);
      var p :| 0 <= p < |ts| && ts[p] == t;
      assert PatternMatches(true, rule.patterns[p], command);
    }
  }

  // ---- Hits ---------------------------------------------------------------

  function RuleHits(rule: Rule): (r: seq<Hit>)
    ensures |r| == |rule.skills|
  {
    seq(|rule.skills|, i requires 0 <= i < |rule.skills| => Hit(rule.skills[i], rule.priority))
  }

  /** Every (skill, priority) of every matching rule, in rule order. */
  function AllHits(rules: seq<Rule>, path: string): seq<Hit> {
    if rules == [] then []
    else
      var last := rules[|rules| - 1];
      AllHits(rules[..|rules| - 1], path) + (if Matches(last, path) then RuleHits(last) else [])
  }

  function SkillsOf(hits: seq<Hit>): (r: seq<nat>)
    ensures |r| == |hits| && forall i | 0 <= i < |r| :: r[i] == hits[i].skill
  {
    seq(|hits|, i requires 0 <= i < |hits| => hits[i].skill)
  }

  predicate Below(s: seq<nat>, n: nat) {
    forall i | 0 <= i < |s| :: s[i] < n
  }

  predicate RulesValid(rules: seq<Rule>, n: nat, isBash: bool) {
    |rules| <= MAX_RULES
    && forall r | 0 <= r < |rules| :: RuleValid(rules[r], n) && rules[r].isBash == isBash
  }

  predicate RuleValid(rule: Rule, n: nat) {
    |rule.patterns| <= MAX_PATTERNS && |rule.skills| <= MAX_RULE_SKILLS && Below(rule.skills, n)
  }

  lemma {:induction false} AllHitsBelow(rules: seq<Rule>, path: string, n: nat)
    requires forall r | 0 <= r < |rules| :: RuleValid(rules[r], n)
    ensures forall i | 0 <= i < |AllHits(rules, path)| :: AllHits(rules, path)[i].skill < n
  {
    if rules != [] {
      AllHitsBelow(rules[..|rules| - 1], path, n);
      assert RuleValid(rules[|rules| - 1], n);
    }
  }

  /** First occurrences only. */
  function Distinct(s: seq<nat>): (r: seq<nat>)
    ensures forall k :: k in r <==> k in s
    ensures forall n :: Below(s, n) ==> Below(r, n)
    ensures forall i, j | 0 <= i < j < |r| :: r[i] != r[j]
  {
    if s == [] then []
    else
      var front, last := s[..|s| - 1], s[|s| - 1];
      assert s == front + [last];
      assert forall n | Below(s, n) :: Below(front, n) && last < n;
      if last in front then Distinct(front) else Distinct(front) + [last]
  }

  // ---- Greedy choice ------------------------------------------------------

  function Joined(parts: seq<bytes>): bytes {
    if parts == [] then []
    else if |parts| == 1 then parts[0]
    else Joined(parts[..|parts| - 1]) + SEPARATOR + parts[|parts| - 1]
  }

  function TotalSize(parts: seq<bytes>): nat {
    if parts == [] then 0 else TotalSize(parts[..|parts| - 1]) + |parts[|parts| - 1]|
  }

  function Contents(skills: seq<Skill>, chosen: seq<nat>): (r: seq<bytes>)
    requires Below(chosen, |skills|)
    ensures |r| == |chosen|
  {
    seq(|chosen|, i requires 0 <= i < |chosen| => skills[chosen[i]].data)
  }

  function Content(skills: seq<Skill>, chosen: seq<nat>): bytes
    requires Below(chosen, |skills|)
  {
    Joined(Contents(skills, chosen))
  }

  predicate Fits(skills: seq<Skill>, chosen: seq<nat>, k: nat)
    requires Below(chosen, |skills|) && k < |skills|
  {
    |Content(skills, chosen + [k])| <= BUDGET
  }

  function PairOf(session: string, skills: seq<Skill>, k: nat): Pair
    requires k < |skills|
  {
    Pair(session, skills[k].id)
  }

  /** The dedup table forgets everything when it is full. */
  function Mark(table: seq<Pair>, p: Pair): (t: seq<Pair>)
    ensures |table| <= MAX_DEDUP_ENTRIES ==> |t| <= MAX_DEDUP_ENTRIES
  {
    if |table| >= MAX_DEDUP_ENTRIES then [p] else table + [p]
  }

  datatype Picks = Picks(chosen: seq<nat>, table: seq<Pair>)

  /** A skill is taken if there is room for a third, it is new to the session and it fits. */
  predicate Takes(skills: seq<Skill>, session: string, p: Picks, k: nat)
    requires Below(p.chosen, |skills|) && k < |skills|
  {
    |p.chosen| < MAX_PICKS && PairOf(session, skills, k) !in p.table && Fits(skills, p.chosen, k)
  }

  function Consider(skills: seq<Skill>, session: string, p: Picks, k: nat): (q: Picks)
    requires Below(p.chosen, |skills|) && k < |skills|
    ensures Below(q.chosen, |skills|)
  {
    if Takes(skills, session, p, k)
    then Picks(p.chosen + [k], Mark(p.table, PairOf(session, skills, k)))
    else p
  }

  /** Candidates are considered in order; the table is threaded through. */
  function Greedy(skills: seq<Skill>, session: string, table: seq<Pair>, cands: seq<nat>): (p: Picks)
    requires Below(cands, |skills|)
    ensures Below(p.chosen, |skills|)
  {
    if cands == [] then Picks([], table)
    else Consider(skills, session, Greedy(skills, session, table, cands[..|cands| - 1]), cands[|cands| - 1])
  }

  // ---- The reply ----------------------------------------------------------

  predicate IsFileTool(tool: byte) { 1 <= tool <= 4 }

  predicate IsBashTool(tool: byte) { tool == 5 }

  function RulesFor(lib: Library, req: Request): seq<Rule> {
    if IsFileTool(req.tool) && req.path != [] then lib.fileRules
    else if IsBashTool(req.tool) && req.path != [] then lib.bashRules
    else []
  }

  /** The first 64 hits, in rule order. */
  function FirstHits(lib: Library, req: Request): (r: seq<Hit>) {
    Truncate(AllHits(RulesFor(lib, req), req.path), MAX_HITS)
  }

  predicate ValidLibrary(lib: Library) {
    && |lib.skills| <= MAX_MAPPED_SKILLS
    && (forall k | 0 <= k < |lib.skills| :: 0 < |lib.skills[k].data| <= MAX_SKILL_SIZE && |lib.skills[k].id| <= ID_LEN)
    && RulesValid(lib.fileRules, |lib.skills|, false)
    && RulesValid(lib.bashRules, |lib.skills|, true)
  }

  lemma FirstHitsBelow(lib: Library, req: Request)
    requires ValidLibrary(lib)
    ensures forall i | 0 <= i < |FirstHits(lib, req)| :: FirstHits(lib, req)[i].skill < |lib.skills|
    ensures Below(SkillsOf(Sorted(FirstHits(lib, req))), |lib.skills|)
  {
    var hits := FirstHits(lib, req);
    AllHitsBelow(RulesFor(lib, req), req.path, |lib.skills|);
    SortedMembers(hits);
    forall i | 0 <= i < |hits| ensures Sorted(hits)[i].skill < |lib.skills| {
      assert Sorted(hits)[i] in hits;
    }
  }

  /** The first 64 hits sorted by descending priority, first occurrence of each skill. */
  function Candidates(lib: Library, req: Request): (r: seq<nat>)
    requires ValidLibrary(lib)
    ensures Below(r, |lib.skills|)
  {
    FirstHitsBelow(lib, req);
    Distinct(SkillsOf(Sorted(FirstHits(lib, req))))
  }

  predicate AllKnown(skills: seq<Skill>, session: string, table: seq<Pair>, cands: seq<nat>)
    requires Below(cands, |skills|)
  {
    forall i | 0 <= i < |cands| :: PairOf(session, skills, cands[i]) in table
  }

  function StatusOf(skills: seq<Skill>, session: string, table: seq<Pair>, cands: seq<nat>, chosen: seq<nat>): Status
    requires Below(cands, |skills|)
  {
    if chosen != [] then Matched
    else if cands != [] && AllKnown(skills, session, table, cands) then Deduped
    else NoMatch
  }

  /** handle_request as a function of the library, the dedup table and the request. */
  function Respond(lib: Library, table: seq<Pair>, req: Request): (r: Reply)
    requires ValidLibrary(lib)
  {
    var cands := Candidates(lib, req);
    var p := Greedy(lib.skills, req.session, table, cands);
    Reply(StatusOf(lib.skills, req.session, table, cands, p.chosen), |p.chosen|, Content(lib.skills, p.chosen), p.table)
  }
}
