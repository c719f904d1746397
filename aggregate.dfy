/**
 * The overall letter: the grades that are letters are turned into their
 * positions in "ABCDE", averaged, and the mean is rounded with Python's
 * `round` (to the nearest integer, a tie going to the even one).
 */
module Aggregate {
  import opened Wrappers
  import opened Grades

  function Sum(s: seq<nat>): nat {
    if s == [] then 0 else s[0] + Sum(s[1..])
  }

  function Abs(x: int): nat {
    if x < 0 then -x else x
  }

  /**
   * Python's `round(p / q)` for an exact quotient: the integer nearest to
   * p/q, and of two equally near ones the even one.
   */
  function RoundHalfEven(p: int, q: int): (k: int)
    requires q > 0
    ensures 2 * Abs(k * q - p) <= q
    ensures 2 * Abs(k * q - p) == q ==> k % 2 == 0
  {
    var f, r := p / q, p % q;
    assert f * q - p == -r;
    assert (f + 1) * q - p == q - r;
    if 2 * r < q then f
    else if 2 * r > q then f + 1
    else if f % 2 == 0 then f
    else f + 1
  }

  /** The two properties of RoundHalfEven determine its result. */
  lemma RoundHalfEvenUnique(p: int, q: int, k: int)
    requires q > 0
    requires 2 * Abs(k * q - p) <= q
    requires 2 * Abs(k * q - p) == q ==> k % 2 == 0
    ensures k == RoundHalfEven(p, q)
  {
    var m := RoundHalfEven(p, q);
    var a, b := k * q - p, m * q - p;
    assert (k - m) * q == a - b;
    assert Abs(a - b) <= q;
    if k - m >= 1 {
      MulAtLeast(k - m, q);
    } else if m - k >= 1 {
      assert (m - k) * q == b - a;
      MulAtLeast(m - k, q);
    }
  }

  lemma MulAtLeast(d: int, q: int)
    requires d >= 1 && q > 0
    ensures d * q >= q
    ensures d >= 2 ==> d * q >= 2 * q
  {
  }

  /** `(a - b) * q` distributes. */
  lemma MulSub(a: int, b: int, q: int)
    ensures (a - b) * q == a * q - b * q
  {
  }

  /** The mean p/q lying in [lo, hi] rounds into [lo, hi]. */
  lemma RoundWithin(p: int, q: int, lo: int, hi: int)
    requires q > 0
    requires lo * q <= p <= hi * q
    ensures lo <= RoundHalfEven(p, q) <= hi
  {
    var k := RoundHalfEven(p, q);
    if k < lo {
      MulSub(lo, k, q);
      MulAtLeast(lo - k, q);
    }
    if k > hi {
      MulSub(k, hi, q);
      MulAtLeast(k - hi, q);
    }
  }

  /** Scores between lo and hi sum to between lo and hi times their number. */
  lemma {:induction false} SumWithin(s: seq<nat>, lo: nat, hi: nat)
    requires forall i :: 0 <= i < |s| ==> lo <= s[i] <= hi
    ensures lo * |s| <= Sum(s) <= hi * |s|
  {
    if s != [] {
      SumWithin(s[1..], lo, hi);
      assert lo * |s| == lo + lo * |s[1..]|;
      assert hi * |s| == hi + hi * |s[1..]|;
    }
  }

  /**
   * The grades that are letters as their positions in "ABCDE", "N/A"
   * dropped, order kept: `["ABCDE".index(g) for g in grades if g in
   * "ABCDE"]`, and equally the list of `get_grade_score` values that are
   * not None.
   */
  function Scores(grades: seq<Grade>): (s: seq<nat>)
    ensures |s| <= |grades|
    ensures forall i :: 0 <= i < |s| ==> s[i] < 5
    ensures s == [] <==> forall i :: 0 <= i < |grades| ==> grades[i] == NA
  {
    if grades == [] then []
    else
      var head := match GradeScore(grades[0]) case Some(k) => [k] case None => [];
      head + Scores(grades[1..])
  }

  /** Each position appears in the scores as often as its letter appears among the grades. */
  lemma {:induction false} ScoresCount(grades: seq<Grade>, k: nat)
    requires k < 5
    ensures multiset(Scores(grades))[k] == multiset(grades)[Letter(k)]
  {
    if grades != [] {
      var g, rest := grades[0], grades[1..];
      var head := match GradeScore(g) case Some(n) => [n] case None => [];
      ScoresCount(rest, k);
      assert grades == [g] + rest;
      assert Scores(grades) == head + Scores(rest);
      assert multiset(Scores(grades))[k] == multiset(head)[k] + multiset(Scores(rest))[k];
      assert multiset(grades)[Letter(k)] == multiset([g])[Letter(k)] + multiset(rest)[Letter(k)];
      LetterRoundTrip(k, A);
      if g != NA {
        LetterRoundTrip(k, g);
        assert head == [Rank(g)];
      }
      assert multiset(head)[k] == multiset([g])[Letter(k)];
    }
  }

  /**
   * `"ABCDE"[round(sum(scores) / len(scores))]`, or no overall letter when
   * there is no score: the letter whose position is nearest to the mean, a
   * tie going to the even position.
   */
  function OverallGrade(scores: seq<nat>): (r: Option<Grade>)
    requires forall i :: 0 <= i < |scores| ==> scores[i] < 5
    ensures r.None? <==> scores == []
    ensures r.Some? ==> r.value != NA
    ensures r.Some? ==> 2 * Abs(Rank(r.value) * |scores| - Sum(scores)) <= |scores|
    ensures r.Some? && 2 * Abs(Rank(r.value) * |scores| - Sum(scores)) == |scores| ==> Rank(r.value) % 2 == 0
  {
    if scores == [] then None
    else
      SumWithin(scores, 0, 4);
      RoundWithin(Sum(scores), |scores|, 0, 4);
      var k := RoundHalfEven(Sum(scores), |scores|);
      LetterRoundTrip(k, A);
      Some(Letter(k))
  }

  /** The overall letter lies between the best and the worst letter averaged. */
  lemma OverallBetween(scores: seq<nat>, best: nat, worst: nat)
    requires scores != []
    requires forall i :: 0 <= i < |scores| ==> best <= scores[i] <= worst < 5
    ensures best <= Rank(OverallGrade(scores).value) <= worst
  {
    SumWithin(scores, best, worst);
    RoundWithin(Sum(scores), |scores|, best, worst);
    var k := RoundHalfEven(Sum(scores), |scores|);
    LetterRoundTrip(k, A);
  }

  /** Grades that are all the same letter average to that letter. */
  lemma OverallUniform(scores: seq<nat>, k: nat)
    requires scores != [] && k < 5
    requires forall i :: 0 <= i < |scores| ==> scores[i] == k
    ensures OverallGrade(scores) == Some(Letter(k))
  {
    OverallBetween(scores, k, k);
    LetterRoundTrip(k, OverallGrade(scores).value);
  }

  /**
   * Ties go to the even position: A+B gives A, B+C gives C, C+D gives C,
   * D+E gives E; A+C gives B and A+B+D gives B.
   */
  lemma OverallExamples()
    ensures OverallGrade([0, 1]) == Some(A)
    ensures OverallGrade([1, 2]) == Some(C)
    ensures OverallGrade([2, 3]) == Some(C)
    ensures OverallGrade([3, 4]) == Some(E)
    ensures OverallGrade([0, 2]) == Some(B)
    ensures OverallGrade([0, 1, 3]) == Some(B)
  {
  }
}
