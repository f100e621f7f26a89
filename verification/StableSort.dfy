/** The descending, stable insertion sort of the router's hits: a function that follows
    the in-place loop, and the independent description that determines it. */
module StableSort {

  /** One (skill, priority) match. */
  datatype Hit = Hit(skill: nat, priority: int)

  /** The order the router wants: highest priority first. */
  predicate Descending(s: seq<Hit>) {
    forall i, j | 0 <= i < j < |s| :: s[i].priority >= s[j].priority
  }

  /** The hits of one priority, in order. Two sequences that agree on this for every
      priority are permutations of each other and keep ties in the same order. */
  function OfPriority(s: seq<Hit>, p: int): (r: seq<Hit>)
    ensures |r| <= |s|
  {
    if s == [] then []
    else OfPriority(s[..|s| - 1], p) + (if s[|s| - 1].priority == p then [s[|s| - 1]] else [])
  }

  ghost predicate SameTies(s: seq<Hit>, t: seq<Hit>) {
    forall p :: OfPriority(s, p) == OfPriority(t, p)
  }

  function Insert(s: seq<Hit>, x: Hit): (r: seq<Hit>)
    ensures |r| == |s| + 1
  {
    if s == [] || s[|s| - 1].priority >= x.priority then s + [x]
    else Insert(s[..|s| - 1], x) + [s[|s| - 1]]
  }

  function Sorted(s: seq<Hit>): (r: seq<Hit>)
    ensures |r| == |s|
  {
    if s == [] then [] else Insert(Sorted(s[..|s| - 1]), s[|s| - 1])
  }

  lemma {:induction false} InsertMultiset(s: seq<Hit>, x: Hit)
    ensures multiset(Insert(s, x)) == multiset(s) + multiset{x}
  {
    if s != [] && s[|s| - 1].priority < x.priority {
      InsertMultiset(s[..|s| - 1], x);
      assert s == s[..|s| - 1] + [s[|s| - 1]];
    }
  }

  lemma {:induction false} InsertDescending(s: seq<Hit>, x: Hit)
    requires Descending(s)
    ensures Descending(Insert(s, x))
    ensures forall i | 0 <= i <= |s| :: Insert(s, x)[i] == x || Insert(s, x)[i] in s
  {
    if s != [] && s[|s| - 1].priority < x.priority {
      InsertDescending(s[..|s| - 1], x);
      assert forall y | y in s :: y.priority >= s[|s| - 1].priority;
    }
  }

  lemma OfPrioritySnoc(s: seq<Hit>, x: Hit, p: int)
    ensures OfPriority(s + [x], p) == OfPriority(s, p) + (if x.priority == p then [x] else [])
  {
    assert (s + [x])[..|s|] == s;
  }

  lemma {:induction false} InsertKeepsTies(s: seq<Hit>, x: Hit, p: int)
    ensures OfPriority(Insert(s, x), p) == OfPriority(s, p) + (if x.priority == p then [x] else [])
  {
    if s == [] || s[|s| - 1].priority >= x.priority {
      OfPrioritySnoc(s, x, p);
    } else {
      var front, last := s[..|s| - 1], s[|s| - 1];
      InsertKeepsTies(front, x, p);
      OfPrioritySnoc(Insert(front, x), last, p);
      if last.priority == p {
        assert OfPriority(front, p) + [] + [last] == OfPriority(front, p) + [last] + [];
      } else {
        assert OfPriority(s, p) == OfPriority(front, p) + [] == OfPriority(front, p);
      }
    }
  }

  /** The sort yields a descending, tie-keeping permutation. */
  lemma {:induction false} SortedIsStableSort(s: seq<Hit>)
    ensures Descending(Sorted(s)) && SameTies(s, Sorted(s))
    ensures multiset(Sorted(s)) == multiset(s)
  {
    if s != [] {
      var front, last := s[..|s| - 1], s[|s| - 1];
      assert s == front + [last];
      SortedIsStableSort(front);
      InsertDescending(Sorted(front), last);
      InsertMultiset(Sorted(front), last);
      forall p ensures OfPriority(s, p) == OfPriority(Sorted(s), p) {
        InsertKeepsTies(Sorted(front), last, p);
      }
    }
  }

  lemma SortedMembers(s: seq<Hit>)
    ensures forall h :: h in Sorted(s) <==> h in s
  {
    SortedIsStableSort(s);
    assert forall h :: h in Sorted(s) <==> h in multiset(Sorted(s));
  }

  lemma {:induction false} OfPriorityMember(s: seq<Hit>, h: Hit)
    ensures h in OfPriority(s, h.priority) <==> h in s
    ensures forall g, p | g in OfPriority(s, p) :: g.priority == p && g in s
  {
    if s != [] {
      OfPriorityMember(s[..|s| - 1], h);
      assert s == s[..|s| - 1] + [s[|s| - 1]];
    }
  }

  /** In a descending sequence nothing is below the last element. */
  lemma LastIsLeast(s: seq<Hit>, h: Hit)
    requires s != [] && Descending(s) && h in s
    ensures s[|s| - 1].priority <= h.priority
  {}

  lemma SameLast(s: seq<Hit>, t: seq<Hit>)
    requires s != [] && Descending(s) && Descending(t) && SameTies(s, t)
    ensures t != [] && s[|s| - 1] == t[|t| - 1]
  {
    var x := s[|s| - 1];
    OfPriorityMember(s, x);
    OfPriorityMember(t, x);
    assert x in OfPriority(t, x.priority);
    var y := t[|t| - 1];
    OfPriorityMember(s, y);
    OfPriorityMember(t, y);
    assert y in OfPriority(s, y.priority);
    LastIsLeast(s, y);
    LastIsLeast(t, x);
    assert OfPriority(s, x.priority)[|OfPriority(s, x.priority)| - 1] == x;
  }

  /** Descending order and ties determine the result: any stable descending sort of s
      returns Sorted(s). */
  lemma {:induction false} StableSortUnique(s: seq<Hit>, t: seq<Hit>)
    requires Descending(s) && Descending(t) && SameTies(s, t)
    ensures s == t
  {
    if s == [] {
      if t != [] { SameLast(t, s); }
    } else {
      SameLast(s, t);
      var s', t' := s[..|s| - 1], t[..|t| - 1];
      forall p ensures OfPriority(s', p) == OfPriority(t', p) {
        assert OfPriority(s, p) == OfPriority(t, p);
        assert OfPriority(s', p) == OfPriority(s, p)[..|OfPriority(s', p)|];
        assert OfPriority(t', p) == OfPriority(t, p)[..|OfPriority(t', p)|];
      }
      StableSortUnique(s', t');
      assert s == s' + [s[|s| - 1]] && t == t' + [t[|t| - 1]];
    }
  }

  /** Where Insert puts its argument. */
  lemma {:induction false} InsertShape(s: seq<Hit>, x: Hit, k: nat)
    requires k <= |s| && (k == 0 || s[k - 1].priority >= x.priority)
    requires forall i | k <= i < |s| :: s[i].priority < x.priority
    ensures Insert(s, x) == s[..k] + [x] + s[k..]
  {
    if k < |s| {
      var front, last := s[..|s| - 1], s[|s| - 1];
      InsertShape(front, x, k);
      assert s[..k] == front[..k] && s[k..] == front[k..] + [last];
    } else {
      assert s[..k] == s;
    }
  }

  /** Sorts hits[..n] in place; the rest is untouched. */
  method InsertionSort(hits: array<Hit>, n: nat)
    requires n <= hits.Length
    modifies hits
    ensures hits[..] == Sorted(old(hits[..n])) + old(hits[n..])
  {
    ghost var was := hits[..];
    var i := if n == 0 then 0 else 1;
    SortedOfOne(was[..i]);
    assert was == was[..i] + was[i..];
    while i < n
      invariant i <= n
      invariant hits[..] == Sorted(was[..i]) + was[i..]
    {
      SplitAt(hits[..], Sorted(was[..i]), was, i);
      InsertOne(hits, i);
      assert was[..i + 1][..i] == was[..i];
      i := i + 1;
    }
  }

  lemma SplitAt(now: seq<Hit>, front: seq<Hit>, was: seq<Hit>, i: nat)
    requires i < |was| && |front| == i && now == front + was[i..]
    ensures now[..i] == front && now[i] == was[i] && now[i + 1..] == was[i + 1..]
  {}

  /** One round of the outer loop. */
  method InsertOne(hits: array<Hit>, i: nat)
    requires i < hits.Length
    modifies hits
    ensures hits[..] == Insert(old(hits[..i]), old(hits[i])) + old(hits[i + 1..])
  {
    ghost var before := hits[..];
    var tmp := hits[i];
    var free := Shift(hits, i, tmp);
    InsertShape(before[..i], tmp, free);
    PlaceFree(before, i, free, tmp);
    ghost var shifted := hits[..];
    hits[free] := tmp;
    assert hits[..] == shifted[free := tmp];
  }

  lemma SortedOfOne(s: seq<Hit>)
    requires |s| <= 1
    ensures Sorted(s) == s
  {
    if |s| == 1 { assert s[..0] == []; }
  }

  /** The array after the inner loop: was[free..i] has moved one place up. */
  function Shifted(was: seq<Hit>, i: nat, free: nat): (r: seq<Hit>)
    requires free <= i < |was|
    ensures |r| == |was|
  {
    was[..free + 1] + was[free..i] + was[i + 1..]
  }

  lemma ShiftedByPlace(now: seq<Hit>, was: seq<Hit>, i: nat, free: nat)
    requires free <= i < |was| == |now|
    requires forall k {:trigger now[k]} | 0 <= k < |now| && (k <= free || k > i) :: now[k] == was[k]
    requires forall k {:trigger now[k]} | free < k <= i :: now[k] == was[k - 1]
    ensures now == Shifted(was, i, free)
  {
    assert forall k {:trigger now[k]} | 0 <= k < |now| :: now[k] == Shifted(was, i, free)[k];
  }

  lemma PlaceFree(was: seq<Hit>, i: nat, free: nat, x: Hit)
    requires free <= i < |was|
    ensures Shifted(was, i, free)[free := x] == was[..i][..free] + [x] + was[..i][free..] + was[i + 1..]
  {}

  /** The inner loop: moves every smaller element of hits[..i] one place up and returns
      the place that is left free. */
  method Shift(hits: array<Hit>, i: nat, tmp: Hit) returns (free: nat)
    requires i < hits.Length
    modifies hits
    ensures free <= i && hits[..] == Shifted(old(hits[..]), i, free)
    ensures free == 0 || old(hits[..])[free - 1].priority >= tmp.priority
    ensures forall k | free <= k < i :: old(hits[..])[k].priority < tmp.priority
  {
    ghost var was := hits[..];
    var j: int := i - 1;
    while j >= 0 && hits[j].priority < tmp.priority
      invariant -1 <= j < i
      invariant forall k {:trigger hits[k]} | 0 <= k < hits.Length && (k <= j + 1 || k > i) :: hits[k] == was[k]
      invariant forall k {:trigger hits[k]} | j + 1 < k <= i :: hits[k] == was[k - 1]
      invariant forall k | j < k < i :: was[k].priority < tmp.priority
    {
      hits[j + 1] := hits[j];
      j := j - 1;
    }
    free := j + 1;
    ShiftedByPlace(hits[..], was, i, free);
  }
}
