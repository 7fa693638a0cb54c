/** Shared vocabulary: optional values, results, and the induction principle for runs of a machine. */
module Prelude {

  datatype Option<+T> = None | Some(value: T)

  datatype Result<+T, +E> = Ok(value: T) | Err(error: E)

  function Min(a: int, b: int): int { if a <= b then a else b }

  function Max(a: int, b: int): int { if a >= b then a else b }
}

/** Finite runs of a transition system, and what follows for all of their states. */
module Runs {

  ghost predicate IsRun<S(!new)>(init: S -> bool, next: (S, S) -> bool, run: seq<S>) {
    && 0 < |run|
    && init(run[0])
    && forall i :: 0 <= i < |run| - 1 ==> next(run[i], run[i + 1])
  }

  /** A property that holds initially and is kept by every step holds in every state of every run. */
  lemma {:induction false} InvariantHolds<S(!new)>(
      init: S -> bool, next: (S, S) -> bool, inv: S -> bool, run: seq<S>, i: nat)
    requires forall s :: init(s) ==> inv(s)
    requires forall s, s' :: inv(s) && next(s, s') ==> inv(s')
    requires IsRun(init, next, run) && i < |run|
    ensures inv(run[i])
  {
    if i == 0 {
      assert init(run[0]);
    } else {
      InvariantHolds(init, next, inv, run, i - 1);
      assert next(run[i - 1], run[i - 1 + 1]);
    }
  }

  /** A reflexive, transitive relation kept by every step from a good state relates earlier states to later ones. */
  lemma {:induction false} StepsCompose<S(!new)>(
      init: S -> bool, next: (S, S) -> bool, inv: S -> bool, rel: (S, S) -> bool, run: seq<S>, i: nat, j: nat)
    requires forall s :: init(s) ==> inv(s)
    requires forall s, s' :: inv(s) && next(s, s') ==> inv(s') && rel(s, s')
    requires forall s :: rel(s, s)
    requires forall s, t, u :: rel(s, t) && rel(t, u) ==> rel(s, u)
    requires IsRun(init, next, run) && i <= j < |run|
    ensures rel(run[i], run[j])
    decreases j - i
  {
    if i < j {
      StepsCompose(init, next, inv, rel, run, i, j - 1);
      InvariantHolds(init, next, inv, run, j - 1);
      assert next(run[j - 1], run[j - 1 + 1]);
    } else {
      assert rel(run[i], run[i]);
    }
  }
}

/** Sequences seen as multisets: where an element that occurs, or occurs twice, can be found. */
module Seqs {

  lemma InMultiset<T>(p: seq<T>, q: seq<T>, i: nat)
    requires multiset(p) == multiset(q) && i < |p|
    ensures p[i] in q
  {
    assert p[i] in multiset(p);
  }

  lemma {:induction false} TwiceMeansTwoPlaces<T>(q: seq<T>, x: T)
    requires multiset(q)[x] >= 2
    ensures exists i, j :: 0 <= i < j < |q| && q[i] == x && q[j] == x
  {
    var p, last := q[..|q| - 1], q[|q| - 1];
    assert q == p + [last];
    if last == x {
      assert x in multiset(p);
      var i :| 0 <= i < |p| && p[i] == x;
      assert q[i] == x && q[|q| - 1] == x;
    } else {
      TwiceMeansTwoPlaces(p, x);
      var i, j :| 0 <= i < j < |p| && p[i] == x && p[j] == x;
      assert q[i] == x && q[j] == x;
    }
  }

  lemma AtTwoPlaces<T>(q: seq<T>, i: nat, j: nat)
    requires i < j < |q| && q[i] == q[j]
    ensures multiset(q)[q[i]] >= 2
  {
    assert q == q[..j] + [q[j]] + q[j + 1..];
    assert q[i] in multiset(q[..j]);
  }

  /** Two places of a part are two places of the whole, holding the same two elements. */
  lemma TwoPlacesInWhole<T>(part: seq<T>, all: seq<T>, i: nat, j: nat)
    requires multiset(part) <= multiset(all) && i < j < |part|
    ensures exists a, b :: 0 <= a < |all| && 0 <= b < |all| && a != b && all[a] == part[i] && all[b] == part[j]
  {
    assert part[i] in multiset(part) && part[j] in multiset(part);
    var a :| 0 <= a < |all| && all[a] == part[i];
    var b :| 0 <= b < |all| && all[b] == part[j];
    if part[i] == part[j] {
      AtTwoPlaces(part, i, j);
      TwiceMeansTwoPlaces(all, part[i]);
    }
  }

  lemma WithoutOne<T>(q: seq<T>, i: nat)
    requires i < |q|
    ensures multiset(q) == multiset(q[..i] + q[i + 1..]) + multiset{q[i]}
  {
    assert q == q[..i] + [q[i]] + q[i + 1..];
  }

  lemma {:induction false} DistinctCounts<T>(q: seq<T>, x: T)
    requires forall i, j :: 0 <= i < j < |q| ==> q[i] != q[j]
    ensures multiset(q)[x] == if x in q then 1 else 0
  {
    if x in q {
      var i :| 0 <= i < |q| && q[i] == x;
      assert x in multiset(q);
    }
    if multiset(q)[x] >= 2 { TwiceMeansTwoPlaces(q, x); }
  }

  /** Two lists without repetition that have the same members are permutations of each other. */
  lemma SameMembersPermute<T>(p: seq<T>, q: seq<T>)
    requires forall i, j :: 0 <= i < j < |p| ==> p[i] != p[j]
    requires forall i, j :: 0 <= i < j < |q| ==> q[i] != q[j]
    requires forall x :: x in p <==> x in q
    ensures multiset(p) == multiset(q)
  {
    forall x ensures multiset(p)[x] == multiset(q)[x] {
      DistinctCounts(p, x);
      DistinctCounts(q, x);
    }
  }

  lemma {:induction false} SubsetSize<T>(a: set<T>, b: set<T>)
    requires a <= b
    ensures |a| <= |b|
  {
    if a != {} {
      var x :| x in a;
      SubsetSize(a - {x}, b - {x});
    }
  }

  lemma ProperSubsetSize<T>(a: set<T>, b: set<T>)
    requires a < b
    ensures |a| < |b|
  {
    var x :| x in b && x !in a;
    SubsetSize(a, b - {x});
  }
}

/** There is always a string that is not in use yet. */
module FreshStrings {

  function Repeated(n: nat): (s: string)
    ensures |s| == n
  {
    if n == 0 then "" else "x" + Repeated(n - 1)
  }

  lemma {:induction false} LongerThanAll(used: set<string>) returns (n: nat)
    ensures forall s :: s in used ==> |s| < n
  {
    n := 0;
    if used != {} {
      var x :| x in used;
      var rest := LongerThanAll(used - {x});
      n := if rest > |x| then rest else |x| + 1;
    }
  }

  lemma FreshString(used: set<string>) returns (s: string)
    ensures s !in used
  {
    var n := LongerThanAll(used);
    s := Repeated(n);
  }
}

/** Multiplication and order. */
module Products {

  lemma TimesKeepsOrder(a: real, b: real, k: real)
    requires a <= b && k >= 0.0
    ensures k * a <= k * b
  {
  }

  lemma NatTimesKeepsOrder(a: nat, b: nat, k: nat)
    requires a <= b
    ensures a * k <= b * k
  {
  }
}

/** Blank text, and text without the blanks around it. */
module Texts {

  predicate IsBlank(c: char) { c == ' ' || c == '\t' || c == '\n' || c == '\r' }

  predicate Blank(s: string) { forall i :: 0 <= i < |s| ==> IsBlank(s[i]) }

  /** t is s without some blanks before it and some after it. */
  predicate Within(t: string, s: string) {
    exists i, j :: 0 <= i <= j <= |s| && t == s[i..j] && Blank(s[..i]) && Blank(s[j..])
  }

  /** Without the blanks at either end. */
  function Trim(s: string): (t: string)
    ensures t == "" <==> Blank(s)
    ensures t != "" ==> !IsBlank(t[0]) && !IsBlank(t[|t| - 1]) && Within(t, s)
    decreases |s|
  {
    if s == "" then ""
    else if IsBlank(s[0]) then
      var t := Trim(s[1..]);
      assert t != "" ==> Within(t, s) by { if t != "" { WithinLonger(t, s[1..], [s[0]], ""); } }
      t
    else if IsBlank(s[|s| - 1]) then
      var t := Trim(s[..|s| - 1]);
      assert t != "" ==> Within(t, s) by { if t != "" { WithinLonger(t, s[..|s| - 1], "", [s[|s| - 1]]); } }
      t
    else
      assert s == s[0..|s|] && Blank(s[..0]) && Blank(s[|s|..]);
      s
  }

  lemma WithinLonger(t: string, s: string, before: string, after: string)
    requires Within(t, s) && Blank(before) && Blank(after)
    ensures forall whole :: whole == before + s + after ==> Within(t, whole)
  {
    var i, j :| 0 <= i <= j <= |s| && t == s[i..j] && Blank(s[..i]) && Blank(s[j..]);
    var whole := before + s + after;
    var n := |before|;
    assert t == whole[n + i..n + j];
    assert whole[..n + i] == before + s[..i] && whole[n + j..] == s[j..] + after;
  }
}
