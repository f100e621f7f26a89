/** The reply of the router, described without its algorithm: which skills of the hits it
    carries, in which order, and why every other one is left out. */
module RouterReply {
  import opened Wrappers
  import opened StableSort
  import opened RouterSpec
  import opened RouterTheorems

  // ---- The order of skills ------------------------------------------------

  predicate IsHit(hits: seq<Hit>, k: nat) {
    exists i | 0 <= i < |hits| :: hits[i].skill == k
  }

  /** One hit comes before another: by priority, and among equals by its place. */
  predicate Beats(hits: seq<Hit>, i: nat, j: nat)
    requires i < |hits| && j < |hits|
  {
    hits[i].priority > hits[j].priority || (hits[i].priority == hits[j].priority && i < j)
  }

  ghost predicate BeatsAll(hits: seq<Hit>, i: nat, b: nat)
    requires i < |hits|
  {
    forall j | 0 <= j < |hits| && hits[j].skill == b :: Beats(hits, i, j)
  }

  /** Some hit of a comes before every hit of b. */
  ghost predicate Precedes(hits: seq<Hit>, a: nat, b: nat) {
    exists i | 0 <= i < |hits| :: hits[i].skill == a && BeatsAll(hits, i, b)
  }

  lemma Asymmetric(hits: seq<Hit>, a: nat, b: nat)
    requires Precedes(hits, a, b)
    ensures !Precedes(hits, b, a)
  {
    var i :| 0 <= i < |hits| && hits[i].skill == a && BeatsAll(hits, i, b);
    forall j | 0 <= j < |hits| && hits[j].skill == b ensures !BeatsAll(hits, j, a) {
      assert Beats(hits, i, j);
    }
  }

  lemma Transitive(hits: seq<Hit>, a: nat, b: nat, c: nat)
    requires Precedes(hits, a, b) && Precedes(hits, b, c)
    ensures Precedes(hits, a, c)
  {
    var i :| 0 <= i < |hits| && hits[i].skill == a && BeatsAll(hits, i, b);
    var j :| 0 <= j < |hits| && hits[j].skill == b && BeatsAll(hits, j, c);
    assert Beats(hits, i, j);
    assert BeatsAll(hits, i, c);
  }

  // ---- Stable sorting and that order --------------------------------------

  /** h occurs, and before any g. */
  predicate Ahead(s: seq<Hit>, h: Hit, g: Hit) {
    s != [] && (Ahead(s[..|s| - 1], h, g) || (s[|s| - 1] == h && g !in s[..|s| - 1]))
  }

  /** An occurrence of h before any g. */
  predicate AheadAt(s: seq<Hit>, i: nat, h: Hit, g: Hit) {
    i < |s| && s[i] == h && forall j | 0 <= j < |s| && s[j] == g :: i < j
  }

  lemma {:induction false} AheadIndex(s: seq<Hit>, h: Hit, g: Hit) returns (i: nat)
    requires h != g && Ahead(s, h, g)
    ensures AheadAt(s, i, h, g)
  {
    var front := s[..|s| - 1];
    if Ahead(front, h, g) {
      i := AheadIndex(front, h, g);
      assert forall j | 0 <= j < |front| :: s[j] == front[j];
    } else {
      i := |front|;
      assert forall j | 0 <= j < |front| :: s[j] == front[j];
    }
  }

  lemma {:induction false} AheadFrom(s: seq<Hit>, i: nat, h: Hit, g: Hit)
    requires h != g && AheadAt(s, i, h, g)
    ensures Ahead(s, h, g)
  {
    var front := s[..|s| - 1];
    assert forall j | 0 <= j < |front| :: s[j] == front[j];
    if i < |front| { AheadFrom(front, i, h, g); }
  }

  /** Which of two hits of one priority comes first can be read off the hits of that priority. */
  lemma {:induction false} AheadAmongTies(s: seq<Hit>, h: Hit, g: Hit)
    requires h.priority == g.priority
    ensures Ahead(s, h, g) <==> Ahead(OfPriority(s, h.priority), h, g)
  {
    if s != [] {
      var front, last := s[..|s| - 1], s[|s| - 1];
      var ties := OfPriority(front, h.priority);
      AheadAmongTies(front, h, g);
      OfPriorityMember(front, g);
      if last.priority == h.priority {
        assert (ties + [last])[..|ties|] == ties;
      } else {
        assert OfPriority(s, h.priority) == ties + [] == ties;
      }
    }
  }

  /** Sorting keeps which of two hits of one priority comes first. */
  lemma AheadSurvives(hits: seq<Hit>, i: nat, h: Hit, g: Hit) returns (x: nat)
    requires h != g && h.priority == g.priority && AheadAt(Sorted(hits), i, h, g)
    ensures AheadAt(hits, x, h, g)
  {
    SortedIsStableSort(hits);
    AheadFrom(Sorted(hits), i, h, g);
    AheadAmongTies(Sorted(hits), h, g);
    AheadAmongTies(hits, h, g);
    x := AheadIndex(hits, h, g);
  }

  lemma FirstPlace(t: seq<Hit>, j: nat, z: nat)
    requires j < |t| && FirstAt(SkillsOf(t), j) && z < |t| && t[z].skill == t[j].skill
    ensures z >= j
  {
    assert forall m | 0 <= m < j :: SkillsOf(t)[..j][m] == t[m].skill;
  }

  /** A skill that occurs first in the sorted hits precedes one that first occurs later. */
  lemma SortedPrecedes(hits: seq<Hit>, t: seq<Hit>, i: nat, j: nat)
    requires t == Sorted(hits) && i < j < |t| && FirstAt(SkillsOf(t), j)
    ensures Precedes(hits, t[i].skill, t[j].skill)
  {
    SortedIsStableSort(hits);
    SortedMembers(hits);
    var h, b := t[i], t[j].skill;
    var g := Hit(b, h.priority);
    forall z | 0 <= z < |t| && t[z].skill == b ensures z > i { FirstPlace(t, j, z); }
    var x := AheadSurvives(hits, i, h, g);
    forall y | 0 <= y < |hits| && hits[y].skill == b ensures Beats(hits, x, y) {
      BeatsLater(hits, t, i, h, x, y);
    }
    assert hits[x].skill == h.skill && BeatsAll(hits, x, b);
  }

  lemma BeatsLater(hits: seq<Hit>, t: seq<Hit>, i: nat, h: Hit, x: nat, y: nat)
    requires Descending(t) && i < |t| && h == t[i] && x < |hits| && y < |hits| && hits[y] in t
    requires forall z | 0 <= z < |t| && t[z].skill == hits[y].skill :: z > i
    requires AheadAt(hits, x, h, Hit(hits[y].skill, h.priority))
    ensures Beats(hits, x, y)
  {
    var z :| 0 <= z < |t| && t[z] == hits[y];
    assert t[i].priority >= t[z].priority;
    assert hits[y].priority == h.priority ==> hits[y] == Hit(hits[y].skill, h.priority);
  }

  // ---- Candidates ---------------------------------------------------------

  /** The places of two candidates in the sequence they are taken from. */
  lemma {:induction false} DistinctPlaces(s: seq<nat>, i: nat, j: nat) returns (p: nat, q: nat)
    requires i < j < |Distinct(s)|
    ensures p < q < |s| && s[p] == Distinct(s)[i] && s[q] == Distinct(s)[j] && FirstAt(s, q)
  {
    var front, last := s[..|s| - 1], s[|s| - 1];
    assert s == front + [last];
    if j < |Distinct(front)| {
      p, q := DistinctPlaces(front, i, j);
      assert s[..q] == front[..q];
    } else {
      assert Distinct(s)[i] in front;
      p :| 0 <= p < |front| && front[p] == Distinct(s)[i];
      q := |front|;
    }
  }

  /** Each candidate precedes all later ones. */
  ghost predicate InOrder(hits: seq<Hit>, cands: seq<nat>) {
    forall i, j | 0 <= i < j < |cands| :: Precedes(hits, cands[i], cands[j])
  }

  lemma CandidatesInOrder(lib: Library, req: Request)
    requires ValidLibrary(lib)
    ensures InOrder(FirstHits(lib, req), Candidates(lib, req))
  {
    var hits := FirstHits(lib, req);
    var s := SkillsOf(Sorted(hits));
    forall i, j | 0 <= i < j < |Distinct(s)| ensures Precedes(hits, Distinct(s)[i], Distinct(s)[j]) {
      var p, q := DistinctPlaces(s, i, j);
      SortedPrecedes(hits, Sorted(hits), p, q);
    }
  }

  // ---- The reply ----------------------------------------------------------

  /** The dedup table after the given skills were sent to a session. */
  function Marked(skills: seq<Skill>, session: string, table: seq<Pair>, chosen: seq<nat>): seq<Pair>
    requires Below(chosen, |skills|)
  {
    if chosen == [] then table
    else
      Mark(Marked(skills, session, table, chosen[..|chosen| - 1]),
           Pair(session, skills[chosen[|chosen| - 1]].id))
  }

  /** A skill is wanted after others have been chosen: there are fewer than three, the session
      does not know it, and it fits the 24576 bytes together with them. */
  predicate Wanted(skills: seq<Skill>, session: string, table: seq<Pair>, before: seq<nat>, k: nat)
    requires Below(before, |skills|) && k < |skills|
  {
    && |before| < 3
    && Pair(session, skills[k].id) !in Marked(skills, session, table, before)
    && |Content(skills, before + [k])| <= 24576
  }

  /** The chosen skills that precede k are the first m. */
  ghost predicate TurnOf(hits: seq<Hit>, chosen: seq<nat>, k: nat, m: nat) {
    m <= |chosen| && forall i | 0 <= i < |chosen| :: i < m <==> Precedes(hits, chosen[i], k)
  }

  /** The chosen skills are hits, each precedes the next, and a hit skill is chosen exactly if
      it is wanted after those that precede it. */
  ghost predicate Explains(skills: seq<Skill>, session: string, table: seq<Pair>, hits: seq<Hit>, chosen: seq<nat>) {
    && Below(chosen, |skills|)
    && (forall k | k in chosen :: IsHit(hits, k))
    && InOrder(hits, chosen)
    && forall k: nat | IsHit(hits, k) ::
         k < |skills|
         && exists m: nat :: TurnOf(hits, chosen, k, m)
                        && (k in chosen <==> Wanted(skills, session, table, chosen[..m], k))
  }

  // ---- The greedy walk explains its choices -------------------------------

  lemma {:induction false} GreedyMarks(skills: seq<Skill>, session: string, table: seq<Pair>, cands: seq<nat>)
    requires Below(cands, |skills|)
    ensures var p := Greedy(skills, session, table, cands); p.table == Marked(skills, session, table, p.chosen)
  {
    if cands != [] {
      var front := cands[..|cands| - 1];
      GreedyMarks(skills, session, table, front);
      var p := Greedy(skills, session, table, front);
      assert (p.chosen + [cands[|cands| - 1]])[..|p.chosen|] == p.chosen;
    }
  }

  lemma TakesIsWanted(skills: seq<Skill>, session: string, table: seq<Pair>, cands: seq<nat>, k: nat)
    requires Below(cands, |skills|) && k < |skills|
    ensures var p := Greedy(skills, session, table, cands);
      Takes(skills, session, p, k) <==> Wanted(skills, session, table, p.chosen, k)
  {
    GreedyMarks(skills, session, table, cands);
  }

  /** What is chosen after the x-th candidate comes from the candidates after it. */
  lemma {:induction false} ChosenSplit(skills: seq<Skill>, session: string, table: seq<Pair>, cands: seq<nat>, x: nat)
    requires Below(cands, |skills|) && x <= |cands|
    ensures var p, q := Greedy(skills, session, table, cands[..x]).chosen, Greedy(skills, session, table, cands).chosen;
      p <= q && forall i | |p| <= i < |q| :: q[i] in cands[x..]
    decreases |cands|
  {
    if x < |cands| {
      var front := cands[..|cands| - 1];
      ChosenSplit(skills, session, table, front, x);
      assert front[..x] == cands[..x];
      SplitSnoc(cands, x, Greedy(skills, session, table, front[..x]).chosen,
          Greedy(skills, session, table, front).chosen);
    } else {
      assert cands[..x] == cands;
    }
  }

  lemma SplitSnoc(cands: seq<nat>, x: nat, p: seq<nat>, q: seq<nat>)
    requires x < |cands| && p <= q && forall i | |p| <= i < |q| :: q[i] in cands[..|cands| - 1][x..]
    ensures forall i | |p| <= i < |q| :: q[i] in cands[x..]
    ensures p <= q + [cands[|cands| - 1]]
    ensures cands[|cands| - 1] in cands[x..]
  {
    assert cands[x..] == cands[..|cands| - 1][x..] + [cands[|cands| - 1]];
  }

  lemma CandidateTurn(skills: seq<Skill>, session: string, table: seq<Pair>, hits: seq<Hit>, cands: seq<nat>, x: nat)
    requires Below(cands, |skills|) && InOrder(hits, cands) && x < |cands|
    ensures TurnOf(hits, Greedy(skills, session, table, cands).chosen, cands[x],
                   |Greedy(skills, session, table, cands[..x]).chosen|)
  {
    var p, chosen := Greedy(skills, session, table, cands[..x]).chosen, Greedy(skills, session, table, cands).chosen;
    ChosenSplit(skills, session, table, cands, x);
    ChosenFromCandidates(skills, session, table, cands[..x]);
    forall i | 0 <= i < |chosen| ensures i < |p| <==> Precedes(hits, chosen[i], cands[x]) {
      if i < |p| {
        assert p[i] in cands[..x];
        var y :| 0 <= y < x && cands[y] == chosen[i];
      } else {
        var y :| x <= y < |cands| && cands[y] == chosen[i];
        NotAfter(hits, cands, x, y);
      }
    }
  }

  lemma CandidateTaken(skills: seq<Skill>, session: string, table: seq<Pair>, cands: seq<nat>, x: nat)
    requires Below(cands, |skills|) && NoRepeats(cands) && x < |cands|
    ensures var p := Greedy(skills, session, table, cands[..x]).chosen;
      && p <= Greedy(skills, session, table, cands).chosen
      && (cands[x] in Greedy(skills, session, table, cands).chosen
          <==> Wanted(skills, session, table, p, cands[x]))
  {
    var p, q := Greedy(skills, session, table, cands[..x]).chosen,
        Greedy(skills, session, table, cands[..x + 1]).chosen;
    ChosenSplit(skills, session, table, cands, x);
    ChosenSplit(skills, session, table, cands, x + 1);
    ChosenFromCandidates(skills, session, table, cands[..x]);
    assert cands[..x + 1][..x] == cands[..x];
    TakesIsWanted(skills, session, table, cands[..x], cands[x]);
    KeptOut(cands, x, Greedy(skills, session, table, cands).chosen, p, q);
  }

  lemma NotAfter(hits: seq<Hit>, cands: seq<nat>, x: nat, y: nat)
    requires InOrder(hits, cands) && x <= y < |cands|
    ensures !Precedes(hits, cands[y], cands[x])
  {
    if x < y {
      Asymmetric(hits, cands[x], cands[y]);
    } else if Precedes(hits, cands[x], cands[x]) {
      Asymmetric(hits, cands[x], cands[x]);
    }
  }

  lemma KeptOut(cands: seq<nat>, x: nat, chosen: seq<nat>, p: seq<nat>, q: seq<nat>)
    requires NoRepeats(cands) && x < |cands| && p <= q <= chosen && (q == p || q == p + [cands[x]])
    requires (forall k | k in p :: k in cands[..x]) && forall i | |q| <= i < |chosen| :: chosen[i] in cands[x + 1..]
    ensures cands[x] in chosen <==> q != p
  {
    assert cands[x] !in cands[..x] && cands[x] !in cands[x + 1..];
    if q != p {
      assert chosen[|p|] == cands[x];
    } else {
      forall i | 0 <= i < |chosen| ensures chosen[i] != cands[x] {
        assert i < |p| ==> chosen[i] == p[i];
      }
    }
  }

  lemma GreedyExplains(skills: seq<Skill>, session: string, table: seq<Pair>, hits: seq<Hit>, cands: seq<nat>)
    requires Below(cands, |skills|) && NoRepeats(cands) && InOrder(hits, cands)
    requires forall k: nat :: k in cands <==> IsHit(hits, k)
    ensures Explains(skills, session, table, hits, Greedy(skills, session, table, cands).chosen)
  {
    var chosen := Greedy(skills, session, table, cands).chosen;
    ChosenFromCandidates(skills, session, table, cands);
    ChosenInOrder(skills, session, table, hits, cands);
    forall k: nat | IsHit(hits, k)
      ensures k < |skills|
              && exists m: nat :: TurnOf(hits, chosen, k, m)
                                  && (k in chosen <==> Wanted(skills, session, table, chosen[..m], k))
    {
      var x :| 0 <= x < |cands| && cands[x] == k;
      CandidateTurn(skills, session, table, hits, cands, x);
      CandidateTaken(skills, session, table, cands, x);
      var p := Greedy(skills, session, table, cands[..x]).chosen;
      assert chosen[..|p|] == p;
    }
  }

  lemma {:induction false} ChosenInOrder(skills: seq<Skill>, session: string, table: seq<Pair>, hits: seq<Hit>,
                                         cands: seq<nat>)
    requires Below(cands, |skills|) && InOrder(hits, cands)
    ensures InOrder(hits, Greedy(skills, session, table, cands).chosen)
  {
    if cands != [] {
      var front := cands[..|cands| - 1];
      assert InOrder(hits, front);
      ChosenInOrder(skills, session, table, hits, front);
      ChosenFromCandidates(skills, session, table, front);
      OrderSnoc(hits, front, Greedy(skills, session, table, front).chosen, cands);
    }
  }

  lemma OrderSnoc(hits: seq<Hit>, front: seq<nat>, chosen: seq<nat>, cands: seq<nat>)
    requires cands != [] && front == cands[..|cands| - 1] && InOrder(hits, cands) && InOrder(hits, chosen)
    requires forall k | k in chosen :: k in front
    ensures InOrder(hits, chosen + [cands[|cands| - 1]])
  {
    forall i | 0 <= i < |chosen| ensures Precedes(hits, chosen[i], cands[|cands| - 1]) {
      assert chosen[i] in front;
      var y :| 0 <= y < |front| && cands[y] == chosen[i];
    }
  }

  /** The reply: its content is that of the skills that explain it, in that order, and it leaves
      their pairs marked. The hits are the first 64 of those of the matching rules. */
  lemma ReplyMeans(lib: Library, table: seq<Pair>, req: Request) returns (chosen: seq<nat>)
    requires ValidLibrary(lib)
    ensures Explains(lib.skills, req.session, table, FirstHits(lib, req), chosen)
    ensures var r := Respond(lib, table, req);
      r.count == |chosen| && r.content == Content(lib.skills, chosen)
      && r.table == Marked(lib.skills, req.session, table, chosen)
  {
    var hits, cands := FirstHits(lib, req), Candidates(lib, req);
    chosen := Greedy(lib.skills, req.session, table, cands).chosen;
    CandidateSkills(lib, req);
    CandidatesInOrder(lib, req);
    CandidatesAreHits(lib, req);
    GreedyExplains(lib.skills, req.session, table, hits, cands);
    GreedyMarks(lib.skills, req.session, table, cands);
  }

  lemma CandidatesAreHits(lib: Library, req: Request)
    requires ValidLibrary(lib)
    ensures forall k: nat :: k in Candidates(lib, req) <==> IsHit(FirstHits(lib, req), k)
  {
    CandidateSkills(lib, req);
    var hits := FirstHits(lib, req);
    forall k: nat ensures (exists h | h in hits :: h.skill == k) <==> IsHit(hits, k) {
      if h :| h in hits && h.skill == k { var i :| 0 <= i < |hits| && hits[i] == h; }
      if i :| 0 <= i < |hits| && hits[i].skill == k { assert hits[i] in hits; }
    }
  }

  /** A hit skill that is left out although the session did not know it at its turn and it would
      have fitted then, lost to three skills, none of which has a lower best priority. */
  lemma LeftOutOfReply(skills: seq<Skill>, session: string, table: seq<Pair>, hits: seq<Hit>, chosen: seq<nat>,
                       k: nat, m: nat, p: int, j: nat, q: int)
    requires Explains(skills, session, table, hits, chosen) && IsHit(hits, k) && k !in chosen
    requires TurnOf(hits, chosen, k, m) && k < |skills|
    requires Pair(session, skills[k].id) !in Marked(skills, session, table, chosen[..m])
    requires |Content(skills, chosen[..m] + [k])| <= 24576
    requires Best(hits, k, p) && j in chosen && Best(hits, j, q)
    ensures |chosen| == 3 && p <= q
  {
    NotWanted(skills, session, table, hits, chosen, k, m);
    AtMostThree(skills, session, table, hits, chosen);
    var i :| 0 <= i < |chosen| && chosen[i] == j;
    PrecedesIsBetter(hits, j, k, q, p);
  }

  lemma NotWanted(skills: seq<Skill>, session: string, table: seq<Pair>, hits: seq<Hit>, chosen: seq<nat>, k: nat,
      m: nat)
    requires Explains(skills, session, table, hits, chosen) && IsHit(hits, k) && TurnOf(hits, chosen, k, m)
        && k < |skills|
    ensures k in chosen <==> Wanted(skills, session, table, chosen[..m], k)
  {
    var n: nat :| TurnOf(hits, chosen, k, n) && (k in chosen <==> Wanted(skills, session, table, chosen[..n], k));
    SameTurn(hits, chosen, k, m, n);
  }

  lemma SameTurn(hits: seq<Hit>, chosen: seq<nat>, k: nat, m: nat, n: nat)
    requires TurnOf(hits, chosen, k, m) && TurnOf(hits, chosen, k, n)
    ensures m == n
  {
    assert m < |chosen| ==> !Precedes(hits, chosen[m], k);
    assert n < |chosen| ==> !Precedes(hits, chosen[n], k);
  }

  lemma AtMostThree(skills: seq<Skill>, session: string, table: seq<Pair>, hits: seq<Hit>, chosen: seq<nat>)
    requires Explains(skills, session, table, hits, chosen)
    ensures |chosen| <= 3
  {
    if chosen != [] {
      var n := |chosen| - 1;
      var k := chosen[n];
      assert k in chosen;
      var m: nat :| TurnOf(hits, chosen, k, m) && (k in chosen <==> Wanted(skills, session, table, chosen[..m], k));
      LastTurn(hits, chosen, m);
    }
  }

  lemma LastTurn(hits: seq<Hit>, chosen: seq<nat>, m: nat)
    requires chosen != [] && InOrder(hits, chosen) && TurnOf(hits, chosen, chosen[|chosen| - 1], m)
    ensures m == |chosen| - 1
  {
    var n := |chosen| - 1;
    NotAfter(hits, chosen, n, n);
    assert m < |chosen| ==> !Precedes(hits, chosen[m], chosen[n]);
  }

  lemma PrecedesIsBetter(hits: seq<Hit>, a: nat, b: nat, p: int, q: int)
    requires Precedes(hits, a, b) && Best(hits, a, p) && Best(hits, b, q)
    ensures p >= q
  {
    var i :| 0 <= i < |hits| && hits[i].skill == a && BeatsAll(hits, i, b);
    var y :| 0 <= y < |hits| && hits[y] == Hit(b, q);
    assert hits[i] in hits && Beats(hits, i, y);
  }

  // ---- There is only one explanation --------------------------------------

  /** The hit of k that comes first in the order of hits. */
  lemma {:induction false} BestPlace(hits: seq<Hit>, k: nat, n: nat) returns (i: nat)
    requires n <= |hits| && exists j | 0 <= j < n :: hits[j].skill == k
    ensures i < n && hits[i].skill == k
    ensures forall j | 0 <= j < n && hits[j].skill == k :: j == i || Beats(hits, i, j)
  {
    if exists j | 0 <= j < n - 1 :: hits[j].skill == k {
      i := BestPlace(hits, k, n - 1);
      if hits[n - 1].skill == k && !Beats(hits, i, n - 1) { i := n - 1; }
    } else {
      i := n - 1;
    }
  }

  lemma Total(hits: seq<Hit>, a: nat, b: nat)
    requires IsHit(hits, a) && IsHit(hits, b) && a != b
    ensures Precedes(hits, a, b) || Precedes(hits, b, a)
  {
    var i := BestPlace(hits, a, |hits|);
    var j := BestPlace(hits, b, |hits|);
    if Beats(hits, i, j) { BeatsBest(hits, i, j, b); } else { BeatsBest(hits, j, i, a); }
  }

  lemma BeatsBest(hits: seq<Hit>, i: nat, j: nat, b: nat)
    requires i < |hits| && j < |hits| && Beats(hits, i, j)
    requires forall y | 0 <= y < |hits| && hits[y].skill == b :: y == j || Beats(hits, j, y)
    ensures BeatsAll(hits, i, b)
  {}

  /** Two explanations that agree on the first d skills cannot differ after them. */
  lemma SameNext(skills: seq<Skill>, session: string, table: seq<Pair>, hits: seq<Hit>,
                 a: seq<nat>, b: seq<nat>, d: nat)
    requires Explains(skills, session, table, hits, a) && Explains(skills, session, table, hits, b)
    requires d < |a| && d <= |b| && a[..d] == b[..d]
    requires d < |b| ==> a[d] == b[d] || Precedes(hits, a[d], b[d])
    ensures d < |b| && a[d] == b[d]
  {
    var k := a[d];
    assert k in a;
    TurnInside(hits, a, d);
    NotWanted(skills, session, table, hits, a, k, d);
    if d == |b| || a[d] != b[d] {
      TurnBefore(hits, a, b, d);
      NotWanted(skills, session, table, hits, b, k, d);
      FoundAtTurn(hits, b, k, d);
    }
  }

  lemma TurnInside(hits: seq<Hit>, a: seq<nat>, d: nat)
    requires InOrder(hits, a) && d < |a|
    ensures TurnOf(hits, a, a[d], d)
  {
    forall i | 0 <= i < |a| ensures i < d <==> Precedes(hits, a[i], a[d]) {
      if i >= d { NotAfter(hits, a, d, i); }
    }
  }

  lemma TurnBefore(hits: seq<Hit>, a: seq<nat>, b: seq<nat>, d: nat)
    requires InOrder(hits, a) && InOrder(hits, b) && d < |a| && d <= |b| && a[..d] == b[..d]
    requires d < |b| ==> Precedes(hits, a[d], b[d])
    ensures TurnOf(hits, b, a[d], d)
  {
    forall i | 0 <= i < |b| ensures i < d <==> Precedes(hits, b[i], a[d]) {
      if i < d {
        assert b[i] == b[..d][i] == a[..d][i] == a[i];
      } else {
        if i > d { Transitive(hits, a[d], b[d], b[i]); }
        Asymmetric(hits, a[d], b[i]);
      }
    }
  }

  lemma FoundAtTurn(hits: seq<Hit>, b: seq<nat>, k: nat, d: nat)
    requires InOrder(hits, b) && k in b && TurnOf(hits, b, k, d)
    ensures d < |b| && b[d] == k
  {
    var i :| 0 <= i < |b| && b[i] == k;
    TurnInside(hits, b, i);
    SameTurn(hits, b, k, i, d);
  }

  lemma {:induction false} SamePrefix(skills: seq<Skill>, session: string, table: seq<Pair>, hits: seq<Hit>,
                                      a: seq<nat>, b: seq<nat>, d: nat)
    requires Explains(skills, session, table, hits, a) && Explains(skills, session, table, hits, b)
    requires d <= |a|
    ensures d <= |b| && a[..d] == b[..d]
    decreases d
  {
    if d > 0 {
      SamePrefix(skills, session, table, hits, a, b, d - 1);
      if d - 1 < |b| && a[d - 1] != b[d - 1] {
        assert a[d - 1] in a && b[d - 1] in b;
        Total(hits, a[d - 1], b[d - 1]);
        if Precedes(hits, b[d - 1], a[d - 1]) { SameNext(skills, session, table, hits, b, a, d - 1); }
      }
      SameNext(skills, session, table, hits, a, b, d - 1);
    }
  }

  /** So the reply is the only one that the hits, the session and the table explain. */
  lemma OneExplanation(skills: seq<Skill>, session: string, table: seq<Pair>, hits: seq<Hit>, a: seq<nat>, b: seq<nat>)
    requires Explains(skills, session, table, hits, a) && Explains(skills, session, table, hits, b)
    ensures a == b
  {
    SamePrefix(skills, session, table, hits, a, b, |a|);
    SamePrefix(skills, session, table, hits, b, a, |b|);
  }

  // ---- The bytes of the content -------------------------------------------

  function Offset(parts: seq<bytes>, i: nat): nat
    requires i <= |parts|
  {
    if i == 0 then 0 else Offset(parts, i - 1) + |parts[i - 1]| + 7
  }

  /** Where the i-th of the chosen skills begins. */
  function Place(skills: seq<Skill>, chosen: seq<nat>, i: nat): nat
    requires Below(chosen, |skills|) && i <= |chosen|
  {
    if i == 0 then 0 else Place(skills, chosen, i - 1) + |skills[chosen[i - 1]].data| + 7
  }

  lemma {:induction false} PlaceIsOffset(skills: seq<Skill>, chosen: seq<nat>, i: nat)
    requires Below(chosen, |skills|) && i <= |chosen|
    ensures Place(skills, chosen, i) == Offset(Contents(skills, chosen), i)
  {
    if i > 0 { PlaceIsOffset(skills, chosen, i - 1); }
  }

  /** From at on, all holds data, and then it ends or a rule between blank lines follows. */
  predicate Lies(all: bytes, data: bytes, at: nat, isLast: bool) {
    var end := at + |data|;
    && end <= |all| && all[at..end] == data
    && if isLast then end == |all| else end + 7 <= |all| && all[end..end + 7] == [10, 10, 45, 45, 45, 10, 10]
  }

  /** The content is the data of the chosen skills, one after the other, with a rule between
      blank lines between two of them and nothing after the last. */
  lemma ContentLayout(skills: seq<Skill>, chosen: seq<nat>, i: nat)
    requires Below(chosen, |skills|) && i < |chosen|
    ensures Lies(Content(skills, chosen), skills[chosen[i]].data, Place(skills, chosen, i), i + 1 == |chosen|)
  {
    PlaceIsOffset(skills, chosen, i);
    JoinedLayout(Contents(skills, chosen), i);
  }

  lemma {:induction false} JoinedLayout(parts: seq<bytes>, i: nat)
    requires i < |parts|
    ensures Lies(Joined(parts), parts[i], Offset(parts, i), i + 1 == |parts|)
    decreases |parts|
  {
    var front := parts[..|parts| - 1];
    var last := parts[|parts| - 1];
    assert parts == front + [last];
    if |parts| > 1 {
      JoinedLayout(front, |front| - 1);
      OffsetPrefix(front, last, |front| - 1);
      if i < |front| {
        OffsetPrefix(front, last, i);
        JoinedLayout(front, i);
        PartMoves(front, last, i, Offset(parts, i));
      }
    }
  }

  lemma PartMoves(front: seq<bytes>, last: bytes, i: nat, at: nat)
    requires i < |front| && Lies(Joined(front), front[i], at, i + 1 == |front|)
    ensures Lies(Joined(front + [last]), front[i], at, false)
  {
    assert (front + [last])[..|front|] == front;
    LiesOn(Joined(front), front[i], at, i + 1 == |front|, last);
  }

  lemma LiesOn(all: bytes, data: bytes, at: nat, isLast: bool, more: bytes)
    requires Lies(all, data, at, isLast)
    ensures Lies(all + SEPARATOR + more, data, at, false)
  {
    var all', end := all + SEPARATOR + more, at + |data|;
    assert all'[..|all|] == all && all'[|all|..|all| + 7] == SEPARATOR;
    assert all'[at..end] == all[at..end];
    if !isLast { assert all'[end..end + 7] == all[end..end + 7]; }
  }

  lemma {:induction false} OffsetPrefix(front: seq<bytes>, last: bytes, i: nat)
    requires i <= |front|
    ensures Offset(front + [last], i) == Offset(front, i)
  {
    if i > 0 { OffsetPrefix(front, last, i - 1); }
  }
}
