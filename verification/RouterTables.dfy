/** What the router has in its tables, by positions: which directory entries became skills,
    which skills a rule names, and which rules the hits of a request come from. */
module RouterTables {
  import opened Wrappers
  import opened CText
  import opened StableSort
  import opened RouterSpec
  import opened RouterRuns

  predicate Ascending(ps: seq<nat>, n: nat) {
    (forall i | 0 <= i < |ps| :: ps[i] < n) && forall i, j | 0 <= i < j < |ps| :: ps[i] < ps[j]
  }

  // ---- Skills -------------------------------------------------------------

  /** An entry that is neither hidden nor private and has a file with something in it. */
  predicate HasSkill(e: Entry) {
    e.name != [] && e.name[0] !in {'.', '_'} && e.content.Some? && |e.content.value| > 0
  }

  /** The skills are those of the entries at ps, in directory order, and no other entry has one
      unless 256 come before it. */
  ghost predicate LoadedFrom(dir: seq<Entry>, skills: seq<Skill>, ps: seq<nat>) {
    && Ascending(ps, |dir|) && |ps| == |skills| <= 256
    && (forall i | 0 <= i < |ps| :: LoadedAs(dir[ps[i]], skills[i]))
    && forall x | 0 <= x < |dir| && HasSkill(dir[x]) && x !in ps :: |ps| == 256 && forall p | p in ps :: p < x
  }

  predicate LoadedAs(e: Entry, skill: Skill) {
    && HasSkill(e)
    && skill.id == e.name[..if |e.name| < 127 then |e.name| else 127]
    && skill.data == e.content.value
  }

  lemma {:induction false} SkillsLoaded(dir: seq<Entry>) returns (ps: seq<nat>)
    ensures LoadedFrom(dir, LoadSkills(dir), ps)
  {
    ps := [];
    if dir != [] {
      var front := dir[..|dir| - 1];
      ps := SkillsLoaded(front);
      LoadOne(front, dir[|front|], LoadSkills(front), ps);
      assert dir == front + [dir[|front|]];
      if HasSkill(dir[|front|]) && |ps| < 256 { ps := ps + [|front|]; }
    }
  }

  lemma LoadOne(front: seq<Entry>, e: Entry, skills: seq<Skill>, ps: seq<nat>)
    requires LoadedFrom(front, skills, ps)
    ensures HasSkill(e) && |ps| < 256 ==> forall s | LoadedAs(e, s) ::
        LoadedFrom(front + [e], skills + [s], ps + [|front|])
    ensures !HasSkill(e) || |ps| == 256 ==> LoadedFrom(front + [e], skills, ps)
  {
    var dir := front + [e];
    assert forall i | 0 <= i < |ps| :: ps[i] in ps && dir[ps[i]] == front[ps[i]];
    assert forall x | 0 <= x < |front| :: dir[x] == front[x];
  }

  // ---- Rules --------------------------------------------------------------

  /** The rules of the first 64 rows, in order. */
  predicate RulesFrom(skills: seq<Skill>, specs: seq<RuleSpec>, isBash: bool, rules: seq<Rule>) {
    && |rules| == (if |specs| < 64 then |specs| else 64)
    && forall i | 0 <= i < |rules| :: rules[i] == MakeRule(skills, specs[i], isBash)
  }

  lemma {:induction false} RulesLoaded(skills: seq<Skill>, specs: seq<RuleSpec>, isBash: bool)
    ensures RulesFrom(skills, specs, isBash, LoadRules(skills, specs, isBash))
  {
    if specs != [] {
      var front := specs[..|specs| - 1];
      RulesLoaded(skills, front, isBash);
      assert forall i | 0 <= i < |front| :: front[i] == specs[i];
    }
  }

  /** Loading takes the skills from the directory, and each rule array from its own table. */
  lemma LibraryLoaded(tables: RuleTables, dir: seq<Entry>) returns (ps: seq<nat>)
    ensures var lib := Load(tables, dir);
      && LoadedFrom(dir, lib.skills, ps)
      && RulesFrom(lib.skills, tables.file, false, lib.fileRules)
      && RulesFrom(lib.skills, tables.bash, true, lib.bashRules)
  {
    ps := SkillsLoaded(dir);
    RulesLoaded(LoadSkills(dir), tables.file, false);
    RulesLoaded(LoadSkills(dir), tables.bash, true);
  }

  /** The skills are the first ones with the ids at ps, in order; nothing has the other ids. */
  ghost predicate ResolvedFrom(skills: seq<Skill>, ids: seq<string>, r: seq<nat>, ps: seq<nat>) {
    && Ascending(ps, |ids|) && |ps| == |r|
    && (forall i | 0 <= i < |ps| :: FirstWith(skills, ids[ps[i]], r[i]))
    && forall x | 0 <= x < |ids| && x !in ps :: forall j | 0 <= j < |skills| :: skills[j].id != ids[x]
  }

  predicate FirstWith(skills: seq<Skill>, id: string, k: nat) {
    k < |skills| && skills[k].id == id && forall j | 0 <= j < k :: skills[j].id != id
  }

  /** A rule has the priority of its row and the skills that its first three ids name. */
  lemma RuleNames(skills: seq<Skill>, spec: RuleSpec, isBash: bool) returns (ps: seq<nat>)
    ensures var rule, n := MakeRule(skills, spec, isBash), if |spec.skillIds| < 3 then |spec.skillIds| else 3;
      rule.priority == spec.priority && ResolvedFrom(skills, spec.skillIds[..n], rule.skills, ps)
  {
    ps := Resolved(skills, Truncate(spec.skillIds, 3));
  }

  lemma {:induction false} Resolved(skills: seq<Skill>, ids: seq<string>) returns (ps: seq<nat>)
    ensures ResolvedFrom(skills, ids, Resolve(skills, ids), ps)
  {
    ps := [];
    if ids != [] {
      var front, id := ids[..|ids| - 1], ids[|ids| - 1];
      ps := Resolved(skills, front);
      var found := FindSkill(skills, id);
      ResolveOne(skills, front, id, Resolve(skills, front), ps);
      assert ids == front + [id];
      assert Resolve(skills, front) + [] == Resolve(skills, front);
      if found.Some? { ps := ps + [|front|]; }
    }
  }

  lemma ResolveOne(skills: seq<Skill>, front: seq<string>, id: string, r: seq<nat>, ps: seq<nat>)
    requires ResolvedFrom(skills, front, r, ps)
    ensures match FindSkill(skills, id)
      case None => ResolvedFrom(skills, front + [id], r, ps)
      case Some(k) => ResolvedFrom(skills, front + [id], r + [k], ps + [|front|])
  {
    var ids := front + [id];
    assert forall i | 0 <= i < |ps| :: ps[i] in ps && ids[ps[i]] == front[ps[i]];
    assert forall x | 0 <= x < |front| :: ids[x] == front[x];
  }

  // ---- Hits ---------------------------------------------------------------

  /** A skill of a rule. */
  datatype Place = Place(rule: nat, slot: nat)

  predicate Before(p: Place, q: Place) {
    p.rule < q.rule || (p.rule == q.rule && p.slot < q.slot)
  }

  predicate Fires(rules: seq<Rule>, path: string, p: Place) {
    p.rule < |rules| && p.slot < |rules[p.rule].skills| && Matches(rules[p.rule], path)
  }

  predicate HitAt(rules: seq<Rule>, p: Place, h: Hit)
    requires p.rule < |rules| && p.slot < |rules[p.rule].skills|
  {
    h.skill == rules[p.rule].skills[p.slot] && h.priority == rules[p.rule].priority
  }

  /** The hits are the skills of the matching rules, rule by rule, and only a full table leaves
      any out: those at the end. */
  ghost predicate HitsFrom(rules: seq<Rule>, path: string, hits: seq<Hit>, ps: seq<Place>, cap: nat) {
    && |ps| == |hits| <= cap
    && (forall i | 0 <= i < |ps| :: Fires(rules, path, ps[i]) && HitAt(rules, ps[i], hits[i]))
    && (forall i, j | 0 <= i < j < |ps| :: Before(ps[i], ps[j]))
    && forall p | Fires(rules, path, p) && p !in ps :: |ps| == cap && forall q | q in ps :: Before(q, p)
  }

  lemma RequestHits(lib: Library, req: Request) returns (ps: seq<Place>)
    ensures var rules := if req.path == "" then []
                         else if 1 <= req.tool <= 4 then lib.fileRules
                         else if req.tool == 5 then lib.bashRules
                         else [];
      HitsFrom(rules, req.path, FirstHits(lib, req), ps, 64)
  {
    var rules := RulesFor(lib, req);
    var hits := AllHits(rules, req.path);
    ps := AllPlaces(rules, req.path);
    if |hits| > 64 {
      CutPlaces(rules, req.path, hits, ps);
      ps := ps[..64];
    } else {
      assert Truncate(hits, 64) == hits;
    }
  }

  lemma CutPlaces(rules: seq<Rule>, path: string, hits: seq<Hit>, ps: seq<Place>)
    requires HitsFrom(rules, path, hits, ps, |hits|) && |hits| > 64
    requires forall p | Fires(rules, path, p) :: p in ps
    ensures HitsFrom(rules, path, hits[..64], ps[..64], 64)
  {
    assert forall j | 0 <= j < 64 :: ps[..64][j] == ps[j];
    forall p | Fires(rules, path, p) && p !in ps[..64] ensures forall q | q in ps[..64] :: Before(q, p) {
      var j :| 0 <= j < |ps| && ps[j] == p;
    }
  }

  lemma {:induction false} AllPlaces(rules: seq<Rule>, path: string) returns (ps: seq<Place>)
    ensures HitsFrom(rules, path, AllHits(rules, path), ps, |AllHits(rules, path)|)
    ensures forall p | Fires(rules, path, p) :: p in ps
  {
    ps := [];
    if rules != [] {
      var front, last := rules[..|rules| - 1], rules[|rules| - 1];
      ps := AllPlaces(front, path);
      assert rules == front + [last];
      if Matches(last, path) {
        PlacesOfRule(front, last, path, AllHits(front, path), ps);
        ps := ps + SlotsOf(|front|, |last.skills|);
      } else {
        assert AllHits(front, path) + [] == AllHits(front, path);
      }
    }
  }

  function SlotsOf(r: nat, n: nat): (ps: seq<Place>)
    ensures |ps| == n && forall j | 0 <= j < n :: ps[j] == Place(r, j)
  {
    seq(n, j requires 0 <= j < n => Place(r, j))
  }

  lemma PlacesOfRule(front: seq<Rule>, last: Rule, path: string, hits: seq<Hit>, ps: seq<Place>)
    requires HitsFrom(front, path, hits, ps, |hits|) && forall p | Fires(front, path, p) :: p in ps
    requires Matches(last, path)
    ensures var rules, ps' := front + [last], ps + SlotsOf(|front|, |last.skills|);
      && HitsFrom(rules, path, hits + RuleHits(last), ps', |hits| + |last.skills|)
      && forall p | Fires(rules, path, p) :: p in ps'
  {
    var rules, slots := front + [last], SlotsOf(|front|, |last.skills|);
    forall p | Fires(rules, path, p) ensures p in ps + slots {
      if p.rule < |front| {
        assert Fires(front, path, p);
      } else {
        assert slots[p.slot] == p;
      }
    }
    assert forall i | 0 <= i < |ps| :: Fires(front, path, ps[i]);
  }
}
