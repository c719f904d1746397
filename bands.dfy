/**
 * The classification loop of `score_indicator`: an indicator's bands are
 * tried in list order and the first one whose test passes gives the grade.
 */
module Bands {
  import opened Grades

  /** A `(threshold, grade)` pair of a band list. */
  type Band = (real, Grade)

  /** The comparison every band of one indicator applies to the value. */
  datatype Test = AtMost | AtLeast

  predicate Passes(test: Test, value: real, band: Band) {
    match test
    case AtMost => value <= band.0
    case AtLeast => value >= band.0
  }

  /** Band `i` passes and no band before it does. */
  ghost predicate FirstPassAt(bands: seq<Band>, test: Test, value: real, i: int) {
    && 0 <= i < |bands|
    && Passes(test, value, bands[i])
    && forall j :: 0 <= j < i ==> !Passes(test, value, bands[j])
  }

  ghost predicate NonePass(bands: seq<Band>, test: Test, value: real) {
    forall i :: 0 <= i < |bands| ==> !Passes(test, value, bands[i])
  }

  /** The grade of the first passing band, or "N/A" when no band passes. */
  function FirstMatch(bands: seq<Band>, test: Test, value: real): (g: Grade)
    ensures NonePass(bands, test, value) ==> g == NA
    ensures forall i :: FirstPassAt(bands, test, value, i) ==> g == bands[i].1
  {
    if |bands| == 0 then NA
    else if Passes(test, value, bands[0]) then bands[0].1
    else
      assert forall i :: FirstPassAt(bands, test, value, i) ==> FirstPassAt(bands[1..], test, value, i - 1);
      FirstMatch(bands[1..], test, value)
  }

  /** Either no band passes, or some band is the first to pass. */
  lemma {:induction false} FirstPassCases(bands: seq<Band>, test: Test, value: real)
    ensures NonePass(bands, test, value) || exists i :: FirstPassAt(bands, test, value, i)
  {
    if |bands| > 0 && !Passes(test, value, bands[0]) {
      FirstPassCases(bands[1..], test, value);
      if !NonePass(bands[1..], test, value) {
        var k :| FirstPassAt(bands[1..], test, value, k);
        assert FirstPassAt(bands, test, value, k + 1);
      }
    } else if |bands| > 0 {
      assert FirstPassAt(bands, test, value, 0);
    }
  }

  /** Every band carries a letter. */
  ghost predicate AllLetters(bands: seq<Band>) {
    forall i :: 0 <= i < |bands| ==> bands[i].1 != NA
  }

  /** Grades get worse (or stay) along the list. */
  ghost predicate GradesWorsen(bands: seq<Band>) {
    AllLetters(bands) && forall i, j :: 0 <= i < j < |bands| ==> Rank(bands[i].1) <= Rank(bands[j].1)
  }

  /** Grades get better (or stay) along the list. */
  ghost predicate GradesImprove(bands: seq<Band>) {
    AllLetters(bands) && forall i, j :: 0 <= i < j < |bands| ==> Rank(bands[i].1) >= Rank(bands[j].1)
  }

  /** Grades that worsen from each band to the next worsen along the whole list. */
  lemma StepwiseWorsen(bands: seq<Band>)
    requires AllLetters(bands)
    requires forall i :: 0 <= i < |bands| - 1 ==> Rank(bands[i].1) <= Rank(bands[i + 1].1)
    ensures GradesWorsen(bands)
  {
    forall i, j | 0 <= i < j < |bands|
      ensures Rank(bands[i].1) <= Rank(bands[j].1)
    {
      var k := i;
      while k < j
        invariant i <= k <= j
        invariant Rank(bands[i].1) <= Rank(bands[k].1)
      {
        k := k + 1;
      }
    }
  }

  /** Grades that improve from each band to the next improve along the whole list. */
  lemma StepwiseImprove(bands: seq<Band>)
    requires AllLetters(bands)
    requires forall i :: 0 <= i < |bands| - 1 ==> Rank(bands[i].1) >= Rank(bands[i + 1].1)
    ensures GradesImprove(bands)
  {
    forall i, j | 0 <= i < j < |bands|
      ensures Rank(bands[i].1) >= Rank(bands[j].1)
    {
      var k := i;
      while k < j
        invariant i <= k <= j
        invariant Rank(bands[i].1) >= Rank(bands[k].1)
      {
        k := k + 1;
      }
    }
  }

  /**
   * A larger value never gets a worse letter: under `>=` when grades worsen
   * along the list, under `<=` when they improve. No order of the thresholds
   * is needed, only the order of the grades.
   */
  lemma FirstMatchMonotone(bands: seq<Band>, test: Test, v1: real, v2: real)
    requires v1 <= v2
    requires test == AtLeast ==> GradesWorsen(bands)
    requires test == AtMost ==> GradesImprove(bands)
    requires FirstMatch(bands, test, v1) != NA && FirstMatch(bands, test, v2) != NA
    ensures Rank(FirstMatch(bands, test, v2)) <= Rank(FirstMatch(bands, test, v1))
  {
    FirstPassCases(bands, test, v1);
    FirstPassCases(bands, test, v2);
    var i1 :| FirstPassAt(bands, test, v1, i1);
    var i2 :| FirstPassAt(bands, test, v2, i2);
    if test == AtLeast {
      assert Passes(test, v2, bands[i1]);
      assert i2 <= i1;
    } else {
      assert Passes(test, v1, bands[i2]);
      assert i1 <= i2;
    }
  }

  /**
   * When the first threshold is the smallest, a `>=` test is decided by the
   * first band alone: its grade, or "N/A" below it.
   */
  lemma FirstBandDecides(bands: seq<Band>, value: real)
    requires |bands| > 0
    requires forall i :: 0 <= i < |bands| ==> bands[0].0 <= bands[i].0
    ensures FirstMatch(bands, AtLeast, value) == if value >= bands[0].0 then bands[0].1 else NA
  {
    if value >= bands[0].0 {
      assert FirstPassAt(bands, AtLeast, value, 0);
    } else {
      assert NonePass(bands, AtLeast, value);
    }
  }
}
