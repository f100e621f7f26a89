/** What the router's reply means: byte accounting, the status, why a skill is left out,
    and how skipping seen skills compares with skipping selected ones. */
module RouterTheorems {
  import opened Wrappers
  import opened StableSort
  import opened RouterSpec

  // ---- Byte accounting ----------------------------------------------------

  lemma {:induction false} JoinedLength(parts: seq<bytes>)
    ensures |Joined(parts)| == TotalSize(parts) + (if parts == [] then 0 else 7 * (|parts| - 1))
  {
    if |parts| > 1 {
      JoinedLength(parts[..|parts| - 1]);
    } else if |parts| == 1 {
      assert TotalSize(parts[..0]) == 0;
    }
  }

  lemma ContentSnoc(skills: seq<Skill>, chosen: seq<nat>, k: nat)
    requires Below(chosen, |skills|) && k < |skills|
    ensures Content(skills, chosen + [k])
         == (if chosen == [] then [] else Content(skills, chosen) + SEPARATOR) + skills[k].data
  {
    var parts := Contents(skills, chosen + [k]);
    assert parts[..|parts| - 1] == Contents(skills, chosen);
  }

  /** After any prefix of the candidates: at most 3 skills, the content
      within the budget and exactly as long as the skills plus the separators between them. */
  lemma {:induction false} GreedyAccounting(skills: seq<Skill>, session: string, table: seq<Pair>, cands: seq<nat>)
    requires Below(cands, |skills|)
    ensures var chosen := Greedy(skills, session, table, cands).chosen;
      && |chosen| <= MAX_PICKS
      && |Content(skills, chosen)| <= BUDGET
      && |Content(skills, chosen)|
         == TotalSize(Contents(skills, chosen)) + (if chosen == [] then 0 else 7 * (|chosen| - 1))
  {
    var chosen := Greedy(skills, session, table, cands).chosen;
    if cands != [] {
      GreedyAccounting(skills, session, table, cands[..|cands| - 1]);
    }
    JoinedLength(Contents(skills, chosen));
  }

  ghost predicate NoRepeats(s: seq<nat>) {
    forall i, j | 0 <= i < j < |s| :: s[i] != s[j]
  }

  /** No skill is chosen twice if no candidate occurs twice. */
  lemma {:induction false} ChosenOnce(skills: seq<Skill>, session: string, table: seq<Pair>, cands: seq<nat>)
    requires Below(cands, |skills|) && NoRepeats(cands)
    ensures NoRepeats(Greedy(skills, session, table, cands).chosen)
  {
    if cands != [] {
      var front, last := cands[..|cands| - 1], cands[|cands| - 1];
      ChosenOnce(skills, session, table, front);
      ChosenFromCandidates(skills, session, table, front);
      assert last !in front;
      NoRepeatsSnoc(Greedy(skills, session, table, front).chosen, last);
    }
  }

  /** So no reply sends a skill twice. */
  lemma SentOnce(lib: Library, table: seq<Pair>, req: Request)
    requires ValidLibrary(lib)
    ensures NoRepeats(Greedy(lib.skills, req.session, table, Candidates(lib, req)).chosen)
  {
    ChosenOnce(lib.skills, req.session, table, Candidates(lib, req));
  }

  lemma NoRepeatsSnoc(s: seq<nat>, k: nat)
    requires NoRepeats(s) && k !in s
    ensures NoRepeats(s + [k])
  {}

  lemma {:induction false} ChosenFromCandidates(skills: seq<Skill>, session: string, table: seq<Pair>, cands: seq<nat>)
    requires Below(cands, |skills|)
    ensures forall k | k in Greedy(skills, session, table, cands).chosen :: k in cands
  {
    if cands != [] {
      assert cands == cands[..|cands| - 1] + [cands[|cands| - 1]];
      ChosenFromCandidates(skills, session, table, cands[..|cands| - 1]);
    }
  }

  /** Once three skills are chosen the rest of the candidates change nothing: the loop may stop. */
  lemma {:induction false} FullStays(skills: seq<Skill>, session: string, table: seq<Pair>, cands: seq<nat>, n: nat)
    requires Below(cands, |skills|) && n <= |cands|
    requires |Greedy(skills, session, table, cands[..n]).chosen| == MAX_PICKS
    ensures Greedy(skills, session, table, cands) == Greedy(skills, session, table, cands[..n])
    decreases |cands|
  {
    if n < |cands| {
      assert cands[..|cands| - 1][..n] == cands[..n];
      FullStays(skills, session, table, cands[..|cands| - 1], n);
    } else {
      assert cands[..n] == cands;
    }
  }

  // ---- Status -------------------------------------------------------------

  predicate Eligible(skills: seq<Skill>, session: string, table: seq<Pair>, k: nat)
    requires k < |skills|
  {
    PairOf(session, skills, k) !in table && |skills[k].data| <= BUDGET
  }

  /** Nothing is chosen exactly when no candidate was eligible before the request; then the
      table is as it was. */
  lemma {:induction false} NothingChosen(skills: seq<Skill>, session: string, table: seq<Pair>, cands: seq<nat>)
    requires Below(cands, |skills|)
    ensures Greedy(skills, session, table, cands).chosen == []
            <==> forall i | 0 <= i < |cands| :: !Eligible(skills, session, table, cands[i])
    ensures Greedy(skills, session, table, cands).chosen == []
            ==> Greedy(skills, session, table, cands).table == table
  {
    if cands != [] {
      var front, k := cands[..|cands| - 1], cands[|cands| - 1];
      NothingChosen(skills, session, table, front);
      ContentSnoc(skills, [], k);
      assert forall i | 0 <= i < |front| :: cands[i] == front[i];
      assert Eligible(skills, session, table, k) <==> Eligible(skills, session, table, cands[|front|]);
    }
  }

  lemma CandidateSkills(lib: Library, req: Request)
    requires ValidLibrary(lib)
    ensures forall k :: k in Candidates(lib, req) <==> exists h | h in FirstHits(lib, req) :: h.skill == k
  {
    var hits := FirstHits(lib, req);
    var s := SkillsOf(Sorted(hits));
    FirstHitsBelow(lib, req);
    SortedMembers(hits);
    forall k ensures k in s <==> exists h | h in hits :: h.skill == k {
      if k in s {
        var i :| 0 <= i < |s| && s[i] == k;
        assert Sorted(hits)[i] in hits;
      }
      if h :| h in hits && h.skill == k {
        var i :| 0 <= i < |s| && Sorted(hits)[i] == h;
        assert s[i] == k;
      }
    }
  }

  /** The status is decided by the hits and the table as they were before the request,
      although the table changes while the reply is built. */
  lemma StatusFromPreState(lib: Library, table: seq<Pair>, req: Request)
    requires ValidLibrary(lib)
    ensures forall h | h in FirstHits(lib, req) :: h.skill < |lib.skills|
    ensures var hits := FirstHits(lib, req); var r := Respond(lib, table, req);
      && (r.status == Matched <==> exists h | h in hits :: Eligible(lib.skills, req.session, table, h.skill))
      && (r.status == Deduped <==>
            hits != [] && forall h | h in hits :: PairOf(req.session, lib.skills, h.skill) in table)
      && (r.status != Matched ==> r.table == table && r.count == 0)
      && (r.content != [] <==> r.status == Matched)
  {
    FirstHitsBelow(lib, req);
    CandidateSkills(lib, req);
    var cands := Candidates(lib, req);
    NothingChosen(lib.skills, req.session, table, cands);
    StatusByHits(lib.skills, req.session, table, FirstHits(lib, req), cands);
    var chosen := Greedy(lib.skills, req.session, table, cands).chosen;
    ContentNonEmpty(lib.skills, chosen);
  }

  lemma StatusByHits(skills: seq<Skill>, session: string, table: seq<Pair>, hits: seq<Hit>, cands: seq<nat>)
    requires Below(cands, |skills|)
    requires forall k :: k in cands <==> exists h | h in hits :: h.skill == k
    ensures forall h | h in hits :: h.skill < |skills|
    ensures (exists i | 0 <= i < |cands| :: Eligible(skills, session, table, cands[i]))
            <==> exists h | h in hits :: Eligible(skills, session, table, h.skill)
    ensures cands != [] && AllKnown(skills, session, table, cands)
            <==> hits != [] && forall h | h in hits :: PairOf(session, skills, h.skill) in table
  {
    forall h | h in hits ensures h.skill in cands {}
    forall i | 0 <= i < |cands| ensures exists h | h in hits :: h.skill == cands[i] {
      assert cands[i] in cands;
    }
    assert hits != [] ==> hits[0] in hits;
    assert cands != [] ==> cands[0] in cands;
    if i :| 0 <= i < |cands| && Eligible(skills, session, table, cands[i]) {
      var h :| h in hits && h.skill == cands[i];
      assert Eligible(skills, session, table, h.skill);
    }
    if h :| h in hits && Eligible(skills, session, table, h.skill) {
      var i :| 0 <= i < |cands| && cands[i] == h.skill;
      assert Eligible(skills, session, table, cands[i]);
    }
  }

  lemma ContentNonEmpty(skills: seq<Skill>, chosen: seq<nat>)
    requires Below(chosen, |skills|)
    requires forall i | 0 <= i < |skills| :: 0 < |skills[i].data|
    ensures Content(skills, chosen) != [] <==> chosen != []
  {
    JoinedLength(Contents(skills, chosen));
    if chosen != [] {
      SizePositive(Contents(skills, chosen));
    }
  }

  lemma {:induction false} SizePositive(parts: seq<bytes>)
    requires parts != [] && forall i | 0 <= i < |parts| :: parts[i] != []
    ensures TotalSize(parts) > 0
  {
    assert parts[|parts| - 1] != [];
  }

  // ---- Why a skill is left out -------------------------------------------

  /** The state of the choice when the i-th sorted hit is reached. */
  function AtTurn(skills: seq<Skill>, session: string, table: seq<Pair>, s: seq<nat>, i: nat): (p: Picks)
    requires Below(s, |skills|) && i <= |s|
    ensures Below(p.chosen, |skills|)
  {
    BelowPrefix(s, i, |skills|);
    Greedy(skills, session, table, Distinct(s[..i]))
  }

  lemma BelowPrefix(s: seq<nat>, i: nat, n: nat)
    requires Below(s, n) && i <= |s|
    ensures Below(s[..i], n) && Below(Distinct(s[..i]), n)
  {
  }

  predicate FirstAt(s: seq<nat>, i: nat) {
    i < |s| && s[i] !in s[..i]
  }

  lemma DistinctPrefix(s: seq<nat>, i: nat)
    requires i < |s|
    ensures Distinct(s[..i + 1]) == if s[i] in s[..i] then Distinct(s[..i]) else Distinct(s[..i]) + [s[i]]
  {
    assert s[..i + 1][..i] == s[..i];
  }

  /** Choices are never taken back, and nothing changes after the third. */
  predicate Grows(p: Picks, q: Picks) {
    p.chosen <= q.chosen && (|p.chosen| >= MAX_PICKS ==> p == q)
  }

  lemma ChosenGrows(skills: seq<Skill>, session: string, table: seq<Pair>, s: seq<nat>, i: nat, j: nat)
    requires Below(s, |skills|) && i <= j <= |s|
    ensures Grows(AtTurn(skills, session, table, s, i), AtTurn(skills, session, table, s, j))
  {
    var turns := seq(|s| + 1, k requires 0 <= k <= |s| => AtTurn(skills, session, table, s, k));
    forall k | 0 <= k < |s| ensures Grows(turns[k], turns[k + 1]) {
      TurnGrows(skills, session, table, s, k);
    }
    GrowsOn(turns, i, j);
  }

  lemma {:induction false} GrowsOn(turns: seq<Picks>, i: nat, j: nat)
    requires i <= j < |turns|
    requires forall k | 0 <= k < |turns| - 1 :: Grows(turns[k], turns[k + 1])
    ensures Grows(turns[i], turns[j])
    decreases j
  {
    if i < j {
      GrowsOn(turns, i, j - 1);
      assert Grows(turns[j - 1], turns[j - 1 + 1]);
    }
  }

  lemma TurnGrows(skills: seq<Skill>, session: string, table: seq<Pair>, s: seq<nat>, i: nat)
    requires Below(s, |skills|) && i < |s|
    ensures Grows(AtTurn(skills, session, table, s, i), AtTurn(skills, session, table, s, i + 1))
  {
    TurnStep(skills, session, table, s, i);
  }

  lemma TurnStep(skills: seq<Skill>, session: string, table: seq<Pair>, s: seq<nat>, i: nat)
    requires Below(s, |skills|) && i < |s|
    ensures AtTurn(skills, session, table, s, i + 1)
         == if FirstAt(s, i) then Consider(skills, session, AtTurn(skills, session, table, s, i), s[i])
            else AtTurn(skills, session, table, s, i)
  {
    DistinctPrefix(s, i);
    var d := Distinct(s[..i]);
    assert (d + [s[i]])[..|d|] == d;
  }

  /** A skill that is matched but not sent was known to the session at its turn, or did not
      fit at its turn, or three others had been chosen from hits before it. */
  lemma LeftOut(skills: seq<Skill>, session: string, table: seq<Pair>, s: seq<nat>, i: nat)
    requires Below(s, |skills|) && FirstAt(s, i)
    requires s[i] !in AtTurn(skills, session, table, s, |s|).chosen
    ensures var p := AtTurn(skills, session, table, s, i);
      || PairOf(session, skills, s[i]) in p.table
      || !Fits(skills, p.chosen, s[i])
      || (|p.chosen| == MAX_PICKS && p == AtTurn(skills, session, table, s, |s|)
          && forall k | k in p.chosen :: k in s[..i])
  {
    var p := AtTurn(skills, session, table, s, i);
    TurnStep(skills, session, table, s, i);
    ChosenGrows(skills, session, table, s, i + 1, |s|);
    ChosenGrows(skills, session, table, s, i, |s|);
    assert s[i] !in AtTurn(skills, session, table, s, i + 1).chosen;
    assert s[i] in p.chosen + [s[i]];
    assert !Takes(skills, session, p, s[i]);
    BelowPrefix(s, i, |skills|);
    GreedyAccounting(skills, session, table, Distinct(s[..i]));
    ChosenFromCandidates(skills, session, table, Distinct(s[..i]));
  }

  /** p is the highest priority with which any hit proposes skill k. */
  ghost predicate Best(hits: seq<Hit>, k: nat, p: int) {
    && Hit(k, p) in hits
    && forall h | h in hits && h.skill == k :: h.priority <= p
  }

  /** The first sorted hit of a skill carries its best priority. */
  lemma FirstIsBest(hits: seq<Hit>, i: nat)
    requires FirstAt(SkillsOf(Sorted(hits)), i)
    ensures Best(hits, Sorted(hits)[i].skill, Sorted(hits)[i].priority)
  {
    var t := Sorted(hits);
    SortedIsStableSort(hits);
    SortedMembers(hits);
    assert t[i] in hits;
    forall h | h in hits && h.skill == t[i].skill ensures h.priority <= t[i].priority {
      assert h in t;
      var j :| 0 <= j < |t| && t[j] == h;
      assert forall m | 0 <= m < i :: SkillsOf(t)[..i][m] == t[m].skill;
      assert j >= i;
    }
  }

  /** The first sorted position of a skill. */
  function Turn(s: seq<nat>, k: nat): (i: nat)
    requires k in s
    ensures FirstAt(s, i) && s[i] == k
  {
    assert s == s[..|s| - 1] + [s[|s| - 1]];
    if k in s[..|s| - 1] then
      var i := Turn(s[..|s| - 1], k);
      assert s[..i] == s[..|s| - 1][..i];
      i
    else |s| - 1
  }

  /** Priority dominance: a matched skill that is new and fits at its turn, yet is not sent,
      lost to three skills none of which has a lower best priority. */
  lemma PriorityDominance(skills: seq<Skill>, session: string, table: seq<Pair>, hits: seq<Hit>,
                          k: nat, p: int, j: nat, q: int)
    requires Below(SkillsOf(Sorted(hits)), |skills|)
    requires Best(hits, k, p) && Best(hits, j, q)
    requires k in SkillsOf(Sorted(hits))
    requires var s := SkillsOf(Sorted(hits)); var end := AtTurn(skills, session, table, s, |s|);
      && k !in end.chosen && j in end.chosen
    requires var s := SkillsOf(Sorted(hits)); var turn := AtTurn(skills, session, table, s, Turn(s, k));
      && PairOf(session, skills, k) !in turn.table && Fits(skills, turn.chosen, k)
    ensures |AtTurn(skills, session, table, SkillsOf(Sorted(hits)), |hits|).chosen| == MAX_PICKS
    ensures p <= q
  {
    var t := Sorted(hits);
    var s := SkillsOf(t);
    var i := Turn(s, k);
    LeftOut(skills, session, table, s, i);
    assert j in s[..i];
    var m :| 0 <= m < i && s[..i][m] == j;
    SortedIsStableSort(hits);
    SortedMembers(hits);
    FirstIsBest(hits, i);
    assert Hit(k, p) in hits && t[i] in hits;
    assert t[m] in hits && t[m].skill == j;
  }

  // ---- Seen versus selected ----------------------------------------------

  /** The variant that skips a hit only if its skill has already been selected. */
  function GreedyBySelected(skills: seq<Skill>, session: string, table: seq<Pair>, s: seq<nat>): (p: Picks)
    requires Below(s, |skills|)
    ensures Below(p.chosen, |skills|)
  {
    if s == [] then Picks([], table)
    else
      var p := GreedyBySelected(skills, session, table, s[..|s| - 1]);
      if s[|s| - 1] in p.chosen then p else Consider(skills, session, p, s[|s| - 1])
  }

  predicate Refuses(skills: seq<Skill>, session: string, p: Picks, k: nat)
    requires Below(p.chosen, |skills|) && k < |skills|
  {
    |p.chosen| >= MAX_PICKS || PairOf(session, skills, k) in p.table || !Fits(skills, p.chosen, k)
  }

  /** While the table does not reset, a skill once refused stays refused: the table, the
      number of choices and the bytes only grow. */
  lemma {:induction false} RefusedStays(skills: seq<Skill>, session: string, table: seq<Pair>, cands: seq<nat>, k: nat)
    requires Below(cands, |skills|) && k in cands
    requires |table| + |Greedy(skills, session, table, cands).chosen| <= MAX_DEDUP_ENTRIES
    ensures var p := Greedy(skills, session, table, cands);
      && |p.table| == |table| + |p.chosen|
      && (k in p.chosen || Refuses(skills, session, p, k))
  {
    var front, last := cands[..|cands| - 1], cands[|cands| - 1];
    assert cands == front + [last];
    var p := Greedy(skills, session, table, front);
    var q := Consider(skills, session, p, last);
    TableGrows(skills, session, table, front);
    if k in front {
      RefusedStays(skills, session, table, front, k);
      if k !in q.chosen && q != p {
        ContentSnoc(skills, p.chosen, k);
        ContentSnoc(skills, p.chosen, last);
        ContentSnoc(skills, q.chosen, k);
      }
    }
  }

  lemma {:induction false} TableGrows(skills: seq<Skill>, session: string, table: seq<Pair>, cands: seq<nat>)
    requires Below(cands, |skills|)
    requires |table| + |Greedy(skills, session, table, cands).chosen| <= MAX_DEDUP_ENTRIES
    ensures |Greedy(skills, session, table, cands).table| == |table| + |Greedy(skills, session, table, cands).chosen|
  {
    if cands != [] {
      TableGrows(skills, session, table, cands[..|cands| - 1]);
    }
  }

  /** The i-th hit repeats a skill that was passed over before and that would be taken now.
      Only a reset of the table in between brings this about. */
  predicate TakenBack(skills: seq<Skill>, session: string, table: seq<Pair>, s: seq<nat>, i: nat)
    requires Below(s, |skills|) && i < |s|
  {
    var p := AtTurn(skills, session, table, s, i);
    s[i] in s[..i] && s[i] !in p.chosen && Takes(skills, session, p, s[i])
  }

  /** Skipping every skill seen before, as the code does, selects the same skills in the same
      order and leaves the same table as skipping only selected ones, exactly if no hit brings
      back a skill that was passed over. */
  lemma SeenEqualsSelected(skills: seq<Skill>, session: string, table: seq<Pair>, s: seq<nat>)
    requires Below(s, |skills|)
    ensures GreedyBySelected(skills, session, table, s) == AtTurn(skills, session, table, s, |s|)
            <==> forall i | 0 <= i < |s| :: !TakenBack(skills, session, table, s, i)
  {
    assert s[..|s|] == s;
    if i :| 0 <= i < |s| && TakenBack(skills, session, table, s, i) {
      var n := FirstTakenBack(skills, session, table, s, i);
      SameBefore(skills, session, table, s, n);
      SelectedNext(skills, session, table, s, n);
      SelectedGrows(skills, session, table, s, n + 1);
      SeenStaysOut(skills, session, table, s, s[n], n);
    } else {
      SameBefore(skills, session, table, s, |s|);
    }
  }

  lemma {:induction false} FirstTakenBack(skills: seq<Skill>, session: string, table: seq<Pair>, s: seq<nat>, i: nat)
      returns (n: nat)
    requires Below(s, |skills|) && i < |s| && TakenBack(skills, session, table, s, i)
    ensures n <= i && TakenBack(skills, session, table, s, n)
    ensures forall j | 0 <= j < n :: !TakenBack(skills, session, table, s, j)
    decreases i
  {
    if j :| 0 <= j < i && TakenBack(skills, session, table, s, j) {
      n := FirstTakenBack(skills, session, table, s, j);
    } else {
      n := i;
    }
  }

  /** Up to the first such hit the two walks agree. */
  lemma {:induction false} SameBefore(skills: seq<Skill>, session: string, table: seq<Pair>, s: seq<nat>, n: nat)
    requires Below(s, |skills|) && n <= |s|
    requires forall i | 0 <= i < n :: !TakenBack(skills, session, table, s, i)
    ensures GreedyBySelected(skills, session, table, s[..n]) == AtTurn(skills, session, table, s, n)
    decreases n
  {
    if n == 0 {
      AtFirstTurn(skills, session, table, s);
    } else {
      SameBefore(skills, session, table, s, n - 1);
      assert s[..n][..n - 1] == s[..n - 1];
      TurnStep(skills, session, table, s, n - 1);
      assert !TakenBack(skills, session, table, s, n - 1);
      ChosenFromCandidates(skills, session, table, Distinct(s[..n - 1]));
    }
  }

  lemma {:induction false} SelectedGrows(skills: seq<Skill>, session: string, table: seq<Pair>, s: seq<nat>, n: nat)
    requires Below(s, |skills|) && n <= |s|
    ensures forall k | k in GreedyBySelected(skills, session, table, s[..n]).chosen ::
              k in GreedyBySelected(skills, session, table, s).chosen
    decreases |s|
  {
    if n < |s| {
      assert s[..|s| - 1][..n] == s[..n];
      SelectedGrows(skills, session, table, s[..|s| - 1], n);
    } else {
      assert s[..n] == s;
    }
  }

  lemma SelectedNext(skills: seq<Skill>, session: string, table: seq<Pair>, s: seq<nat>, n: nat)
    requires Below(s, |skills|) && n < |s|
    requires var p := GreedyBySelected(skills, session, table, s[..n]);
      s[n] !in p.chosen && Takes(skills, session, p, s[n])
    ensures s[n] in GreedyBySelected(skills, session, table, s[..n + 1]).chosen
  {
    assert s[..n + 1][..n] == s[..n];
  }

  /** The code never takes a skill that it has passed over. */
  lemma {:induction false} SeenStaysOut(skills: seq<Skill>, session: string, table: seq<Pair>, s: seq<nat>, k: nat,
      i: nat)
    requires Below(s, |skills|) && i <= |s|
    requires k in s[..i] && k !in AtTurn(skills, session, table, s, i).chosen
    ensures k !in AtTurn(skills, session, table, s, |s|).chosen
    decreases |s| - i
  {
    if i < |s| {
      StaysOutNext(skills, session, table, s, k, i);
      assert k in s[..i + 1] by { assert s[..i + 1] == s[..i] + [s[i]]; }
      SeenStaysOut(skills, session, table, s, k, i + 1);
    }
  }

  lemma StaysOutNext(skills: seq<Skill>, session: string, table: seq<Pair>, s: seq<nat>, k: nat, i: nat)
    requires Below(s, |skills|) && i < |s|
    requires k in s[..i] && k !in AtTurn(skills, session, table, s, i).chosen
    ensures k !in AtTurn(skills, session, table, s, i + 1).chosen
  {
    TurnStep(skills, session, table, s, i);
  }

  /** What can be checked before the request: with room for three more pairs the table does
      not reset, and the two walks agree. */
  lemma SameWithRoom(skills: seq<Skill>, session: string, table: seq<Pair>, s: seq<nat>)
    requires Below(s, |skills|) && |table| + MAX_PICKS <= MAX_DEDUP_ENTRIES
    ensures GreedyBySelected(skills, session, table, s) == AtTurn(skills, session, table, s, |s|)
  {
    GreedyAccounting(skills, session, table, Distinct(s[..|s|]));
    SameUnlessReset(skills, session, table, s);
  }

  /** The status does not depend on the rule at all, resets or not: until something is chosen
      nothing changes, so a skill refused once is refused again. */
  lemma SameStatus(skills: seq<Skill>, session: string, table: seq<Pair>, s: seq<nat>)
    requires Below(s, |skills|)
    ensures StatusOf(skills, session, table, s, GreedyBySelected(skills, session, table, s).chosen)
         == StatusOf(skills, session, table, Distinct(s), AtTurn(skills, session, table, s, |s|).chosen)
  {
    assert s[..|s|] == s;
    NothingChosen(skills, session, table, Distinct(s));
    NothingSelected(skills, session, table, s);
    ByMembers(skills, session, table, s, Distinct(s));
    ByMembers(skills, session, table, Distinct(s), s);
  }

  lemma ByMembers(skills: seq<Skill>, session: string, table: seq<Pair>, a: seq<nat>, b: seq<nat>)
    requires Below(a, |skills|) && Below(b, |skills|)
    requires forall k | k in b :: k in a
    ensures AllKnown(skills, session, table, a) ==> AllKnown(skills, session, table, b)
    ensures (forall i | 0 <= i < |a| :: !Eligible(skills, session, table, a[i]))
            ==> forall i | 0 <= i < |b| :: !Eligible(skills, session, table, b[i])
    ensures b != [] ==> a != []
  {
    forall i | 0 <= i < |b|
      ensures AllKnown(skills, session, table, a) ==> PairOf(session, skills, b[i]) in table
      ensures (forall j | 0 <= j < |a| :: !Eligible(skills, session, table, a[j])) ==>
          !Eligible(skills, session, table, b[i])
    {
      assert b[i] in a;
    }
    if b != [] { assert b[0] in a; }
  }

  lemma {:induction false} NothingSelected(skills: seq<Skill>, session: string, table: seq<Pair>, s: seq<nat>)
    requires Below(s, |skills|)
    ensures GreedyBySelected(skills, session, table, s).chosen == []
            <==> forall i | 0 <= i < |s| :: !Eligible(skills, session, table, s[i])
    ensures GreedyBySelected(skills, session, table, s).chosen == []
            ==> GreedyBySelected(skills, session, table, s) == Picks([], table)
  {
    if s != [] {
      var front := s[..|s| - 1];
      NothingSelected(skills, session, table, front);
      assert forall i | 0 <= i < |front| :: front[i] == s[i];
    }
  }

  /** While the table does not reset, the two walks agree. */
  lemma {:induction false} SameUnlessReset(skills: seq<Skill>, session: string, table: seq<Pair>, s: seq<nat>)
    requires Below(s, |skills|)
    requires |table| + |AtTurn(skills, session, table, s, |s|).chosen| <= MAX_DEDUP_ENTRIES
    ensures GreedyBySelected(skills, session, table, s) == AtTurn(skills, session, table, s, |s|)
  {
    if s != [] {
      var n := |s| - 1;
      var front, k := s[..n], s[n];
      TurnStep(skills, session, table, s, n);
      ChosenGrows(skills, session, table, s, n, |s|);
      assert s[..|s|] == s && front[..n] == s[..n] == front;
      SameUnlessReset(skills, session, table, front);
      var p := AtTurn(skills, session, table, s, n);
      if k in front {
        assert k in Distinct(front);
        RefusedStays(skills, session, table, Distinct(front), k);
      } else {
        ChosenFromCandidates(skills, session, table, Distinct(front));
        assert k !in p.chosen;
      }
    }
  }

  /** With a reset the two differ: the table is full and knows a but not b, the hits are
      a, b, a. The code sends b only; the other rule sends b and then a again. */
  lemma SeenDiffersAfterReset(table: seq<Pair>, session: string, s: seq<nat>)
    requires |table| == MAX_DEDUP_ENTRIES
    requires Pair(session, "a") in table && Pair(session, "b") !in table
    requires s == [0, 1, 0]
    ensures AtTurn(TwoSkills(), session, table, s, |s|).chosen == [1]
    ensures GreedyBySelected(TwoSkills(), session, table, s).chosen == [1, 0]
  {
    ConsiderInReset(table, session);
    SeenOfThree(TwoSkills(), session, table, s);
    SelectedOfThree(TwoSkills(), session, table, s);
  }

  lemma FirstsOfThree(s: seq<nat>)
    requires |s| == 3 && s[2] == s[0] != s[1]
    ensures FirstAt(s, 0) && FirstAt(s, 1) && !FirstAt(s, 2)
  {
    assert s[..2][0] == s[2];
  }

  lemma AtFirstTurn(skills: seq<Skill>, session: string, table: seq<Pair>, s: seq<nat>)
    requires Below(s, |skills|)
    ensures AtTurn(skills, session, table, s, 0) == Picks([], table)
  {
    assert s[..0] == [];
  }

  lemma SeenOfThree(skills: seq<Skill>, session: string, table: seq<Pair>, s: seq<nat>)
    requires Below(s, |skills|) && |s| == 3 && s[2] == s[0] != s[1]
    ensures AtTurn(skills, session, table, s, 3)
         == Consider(skills, session, Consider(skills, session, Picks([], table), s[0]), s[1])
  {
    FirstsOfThree(s);
    AtFirstTurn(skills, session, table, s);
    TurnStep(skills, session, table, s, 0);
    assert AtTurn(skills, session, table, s, 1) == Consider(skills, session, Picks([], table), s[0]);
    TurnStep(skills, session, table, s, 1);
    TurnStep(skills, session, table, s, 2);
  }

  lemma SelectedOfThree(skills: seq<Skill>, session: string, table: seq<Pair>, s: seq<nat>)
    requires Below(s, |skills|) && |s| == 3 && s[2] == s[0] != s[1]
    requires Consider(skills, session, Picks([], table), s[0]).chosen == []
    ensures GreedyBySelected(skills, session, table, s)
         == Consider(skills, session,
                     Consider(skills, session, Consider(skills, session, Picks([], table), s[0]), s[1]), s[0])
  {
    assert s[..2][..1] == s[..1] && s[..1][..0] == [];
    var p := Consider(skills, session, Picks([], table), s[0]);
    assert GreedyBySelected(skills, session, table, s[..1]) == p;
    assert GreedyBySelected(skills, session, table, s[..2]) == Consider(skills, session, p, s[1]);
  }

  function TwoSkills(): seq<Skill> {
    [Skill("a", [1]), Skill("b", [2])]
  }

  lemma ConsiderInReset(table: seq<Pair>, session: string)
    requires |table| == MAX_DEDUP_ENTRIES
    requires Pair(session, "a") in table && Pair(session, "b") !in table
    ensures Consider(TwoSkills(), session, Picks([], table), 0) == Picks([], table)
    ensures Consider(TwoSkills(), session, Picks([], table), 1) == Picks([1], [Pair(session, "b")])
    ensures Consider(TwoSkills(), session, Picks([1], [Pair(session, "b")]), 0).chosen == [1, 0]
  {
    var skills := TwoSkills();
    ContentSnoc(skills, [], 1);
    ContentSnoc(skills, [1], 0);
    assert [] + [1] == [1] && [1] + [0] == [1, 0];
    assert Fits(skills, [], 1);
    assert Fits(skills, [1], 0);
    assert "a" != "b" by { assert "a"[0] != "b"[0]; }
  }
}
