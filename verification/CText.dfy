/** The C string functions the skill router is written with. A C string is modelled
    by the characters before its terminator. */
module CText {

  /** What `strncpy(dst, s, n)` leaves in a zeroed buffer. */
  function Truncate<T>(s: seq<T>, n: nat): (t: seq<T>)
    ensures |t| <= n && t <= s
    ensures |s| <= n ==> t == s
  {
    if |s| <= n then s else s[..n]
  }

  predicate IsSuffix(p: string, s: string) {
    |p| <= |s| && s[|s| - |p|..] == p
  }

  predicate OccursAt<T(==)>(p: seq<T>, s: seq<T>, i: nat) {
    i + |p| <= |s| && s[i..i + |p|] == p
  }

  /** `strstr(s, p) != NULL` */
  predicate Contains(s: string, p: string) {
    exists i | 0 <= i <= |s| :: OccursAt(p, s, i)
  }

  lemma SuffixMeans(p: string, s: string)
    ensures IsSuffix(p, s) <==> exists u :: s == u + p
  {
    if IsSuffix(p, s) { assert s == s[..|s| - |p|] + p; }
  }

  lemma ContainsMeans(s: string, p: string)
    ensures Contains(s, p) <==> exists u, v :: s == u + p + v
  {
    if i :| 0 <= i <= |s| && OccursAt(p, s, i) {
      assert s == s[..i] + p + s[i + |p|..];
    }
    if u, v :| s == u + p + v {
      assert OccursAt(p, s, |u|);
    }
  }

  // ---- get_basename -------------------------------------------------------

  /** Index just after the last slash, or 0. */
  function BasenameStart(path: string): (i: nat)
    ensures i <= |path|
    ensures i > 0 ==> path[i - 1] == '/'
    ensures '/' !in path[i..]
  {
    if path == [] then 0
    else if path[|path| - 1] == '/' then |path|
    else
      var i := BasenameStart(path[..|path| - 1]);
      assert path[i..] == path[..|path| - 1][i..] + [path[|path| - 1]];
      i
  }

  function Basename(path: string): string {
    path[BasenameStart(path)..]
  }

  /** The suffix test on the basename never adds a match to the suffix test on the path. */
  lemma BasenameRedundant(p: string, path: string)
    ensures IsSuffix(p, Basename(path)) ==> IsSuffix(p, path)
  {
    var b := Basename(path);
    if IsSuffix(p, b) {
      assert path[|path| - |p|..] == b[|b| - |p|..];
    }
  }

  // ---- strtok(buf, "|") ---------------------------------------------------

  /** Length of the leading run of characters other than '|'. */
  function RunLength(s: string): (n: nat)
    ensures n <= |s|
    ensures forall k | 0 <= k < n :: s[k] != '|'
    ensures n < |s| ==> s[n] == '|'
  {
    if s == [] || s[0] == '|' then 0 else 1 + RunLength(s[1..])
  }

  /** The tokens that repeated calls of strtok produce. */
  function Tokens(s: string): (ts: seq<string>) {
    if s == [] then []
    else if s[0] == '|' then Tokens(s[1..])
    else [s[..RunLength(s)]] + Tokens(s[RunLength(s)..])
  }

  /** t is a non-empty field of s starting at i: delimited by pipes or by the ends of s. */
  predicate FieldAt(s: string, t: string, i: nat) {
    && t != [] && (forall k | 0 <= k < |t| :: t[k] != '|')
    && i + |t| <= |s|
    && (forall k | 0 <= k < |t| :: s[i + k] == t[k])
    && (i == 0 || s[i - 1] == '|')
    && (i + |t| == |s| || s[i + |t|] == '|')
  }

  ghost predicate IsField(s: string, t: string) {
    exists i: nat :: FieldAt(s, t, i)
  }

  lemma FieldShift(s: string, t: string, n: nat, i: nat)
    requires 0 < n <= |s| && (i == 0 ==> s[n - 1] == '|')
    ensures FieldAt(s[n..], t, i) <==> FieldAt(s, t, n + i)
  {
    if FieldAt(s, t, n + i) {
      forall k | 0 <= k < |t| ensures s[n..][i + k] == t[k] {
        assert s[n..][i + k] == s[n + i + k];
      }
    }
  }

  /** A field starts at the front, where it is the leading run, or beyond that run. */
  lemma FieldPosition(s: string, t: string, i: nat)
    requires FieldAt(s, t, i)
    ensures i == 0 ==> t == s[..RunLength(s)]
    ensures i == 0 || i > RunLength(s)
  {
    var n := RunLength(s);
    if i == 0 {
      forall k | 0 <= k < |t| ensures s[k] == t[k] != '|' {
        assert s[0 + k] == t[k];
      }
      assert |t| == n;
      assert t == s[..n];
    }
  }

  /** A field of s is its leading run or a field of what comes after the run. */
  lemma FieldFirst(s: string, t: string)
    requires s != []
    ensures var n := RunLength(s); var cut := if n == 0 then 1 else n;
      IsField(s, t) ==> (n > 0 && t == s[..n]) || IsField(s[cut..], t)
  {
    var n := RunLength(s);
    var cut := if n == 0 then 1 else n;
    if i: nat :| FieldAt(s, t, i) {
      FieldPosition(s, t, i);
      if i > 0 {
        FieldShift(s, t, cut, i - cut);
      } else {
        assert t[0] == s[0 + 0];
      }
    }
  }

  lemma FieldNext(s: string, t: string)
    requires s != []
    ensures var n := RunLength(s); var cut := if n == 0 then 1 else n;
      (n > 0 && t == s[..n]) || IsField(s[cut..], t) ==> IsField(s, t)
  {
    var n := RunLength(s);
    var cut := if n == 0 then 1 else n;
    if n > 0 && t == s[..n] {
      assert FieldAt(s, t, 0);
    } else if i: nat :| FieldAt(s[cut..], t, i) {
      assert t[0] == s[cut..][i + 0];
      FieldShift(s, t, cut, i);
    }
  }

  /** strtok yields exactly the non-empty pipe-separated fields. */
  lemma {:induction false} TokensAreFields(s: string, t: string)
    ensures t in Tokens(s) <==> IsField(s, t)
    decreases |s|
  {
    if s != [] {
      TokensAreFields(s[if RunLength(s) == 0 then 1 else RunLength(s)..], t);
      FieldFirst(s, t);
      FieldNext(s, t);
    }
  }
}
