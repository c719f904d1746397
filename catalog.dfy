/**
 * The static catalog of the scorer: the countries, the four score
 * indicators with their World Bank codes, their band lists, and
 * `score_indicator`, which grades one value of one indicator.
 */
module Catalog {
  import opened Wrappers
  import opened Grades
  import opened Bands

  const GdpGrowth: string := "GDP Growth (%)"
  const Inflation: string := "Inflation (%)"
  const Unemployment: string := "Unemployment (%)"
  const GovDebt: string := "Gov Debt (% of GDP)"

  /** `countries`: display name to World Bank country code. */
  const Countries: map<string, string> := map[
    "Vietnam" := "VN",
    "Indonesia" := "ID",
    "Philippines" := "PH",
    "Thailand" := "TH",
    "Malaysia" := "MY"
  ]

  /** `score_indicators` in insertion order: (name, World Bank indicator code). */
  const ScoreIndicators: seq<(string, string)> := [
    (GdpGrowth, "NY.GDP.MKTP.KD.ZG"),
    (Inflation, "FP.CPI.TOTL.ZG"),
    (Unemployment, "SL.UEM.TOTL.ZS"),
    (GovDebt, "GC.DOD.TOTL.GD.ZS")
  ]

  const GdpGrowthBands: seq<Band> := [(6.0, A), (4.0, B), (2.0, C), (0.0, D), (-100.0, E)]
  const InflationBands: seq<Band> := [(0.0, E), (2.0, D), (4.0, C), (6.0, B), (100.0, A)]
  const UnemploymentBands: seq<Band> := [(0.0, A), (3.0, B), (5.0, C), (7.0, D), (100.0, E)]
  const GovDebtBands: seq<Band> := [(30.0, A), (50.0, B), (70.0, C), (90.0, D), (1000.0, E)]

  /** `score_bands`. */
  const ScoreBands: map<string, seq<Band>> := map[
    GdpGrowth := GdpGrowthBands,
    Inflation := InflationBands,
    Unemployment := UnemploymentBands,
    GovDebt := GovDebtBands
  ]

  /** The indicator names of `score_indicators`, in order. */
  function IndicatorNames(): seq<string> {
    [GdpGrowth, Inflation, Unemployment, GovDebt]
  }

  predicate Distinct(names: seq<string>) {
    forall i, j :: 0 <= i < j < |names| ==> names[i] != names[j]
  }

  /**
   * `score_indicators` and `score_bands` have the same four keys, so the
   * lookup `score_bands[ind_name]` made for every score indicator never fails.
   */
  lemma CatalogConsistent()
    ensures |ScoreIndicators| == |IndicatorNames()| == 4
    ensures forall i :: 0 <= i < |ScoreIndicators| ==> ScoreIndicators[i].0 == IndicatorNames()[i]
    ensures Distinct(IndicatorNames())
    ensures ScoreBands.Keys == set i | 0 <= i < |ScoreIndicators| :: ScoreIndicators[i].0
  {
    var names := set i | 0 <= i < |ScoreIndicators| :: ScoreIndicators[i].0;
    assert ScoreIndicators[0].0 in names && ScoreIndicators[1].0 in names;
    assert ScoreIndicators[2].0 in names && ScoreIndicators[3].0 in names;
  }

  /** The comparison `score_indicator` applies: `<=` for exactly "Inflation (%)", `>=` otherwise. */
  function TestFor(indicator: string): (t: Test)
    ensures t == AtMost <==> indicator == Inflation
  {
    if indicator == Inflation then AtMost else AtLeast
  }

  /** `score_bands[indicator]` raising KeyError. */
  datatype Error = UnknownIndicator(name: string)

  /**
   * `score_indicator`: the grade of the first band, in list order, whose
   * test passes; "N/A" when none passes; a KeyError for a name without bands.
   */
  function ScoreIndicator(indicator: string, value: real): (r: Result<Grade, Error>)
    ensures r.Err? <==> indicator !in ScoreBands
    ensures r.Err? ==> r.error == UnknownIndicator(indicator)
    ensures r.Ok? ==>
      var bands := ScoreBands[indicator];
      || (r.value == NA && forall i :: 0 <= i < |bands| ==>
            !((indicator == Inflation && value <= bands[i].0) || (indicator != Inflation && value >= bands[i].0)))
      || exists i :: FirstPassAt(bands, TestFor(indicator), value, i) && r.value == bands[i].1
  {
    if indicator !in ScoreBands then Err(UnknownIndicator(indicator))
    else
      var bands := ScoreBands[indicator];
      FirstPassCases(bands, TestFor(indicator), value);
      Ok(FirstMatch(bands, TestFor(indicator), value))
  }

  /** GDP Growth: >=6 A, [4,6) B, [2,4) C, [0,2) D, [-100,0) E; below -100 no band passes. */
  lemma GdpGrowthGrades(v: real)
    ensures ScoreIndicator(GdpGrowth, v) == Ok(
      if v >= 6.0 then A
      else if v >= 4.0 then B
      else if v >= 2.0 then C
      else if v >= 0.0 then D
      else if v >= -100.0 then E
      else NA)
  {
    var bands := GdpGrowthBands;
    assert ScoreBands[GdpGrowth] == bands && TestFor(GdpGrowth) == AtLeast;
    if v >= 6.0 {
      assert FirstPassAt(bands, AtLeast, v, 0);
    } else if v >= 4.0 {
      assert FirstPassAt(bands, AtLeast, v, 1);
    } else if v >= 2.0 {
      assert FirstPassAt(bands, AtLeast, v, 2);
    } else if v >= 0.0 {
      assert FirstPassAt(bands, AtLeast, v, 3);
    } else if v >= -100.0 {
      assert FirstPassAt(bands, AtLeast, v, 4);
    } else {
      assert NonePass(bands, AtLeast, v);
    }
  }

  /** Inflation: <=0 E, (0,2] D, (2,4] C, (4,6] B, (6,100] A; above 100 no band passes. */
  lemma InflationGrades(v: real)
    ensures ScoreIndicator(Inflation, v) == Ok(
      if v <= 0.0 then E
      else if v <= 2.0 then D
      else if v <= 4.0 then C
      else if v <= 6.0 then B
      else if v <= 100.0 then A
      else NA)
  {
    var bands := InflationBands;
    assert ScoreBands[Inflation] == bands && TestFor(Inflation) == AtMost;
    if v <= 0.0 {
      assert FirstPassAt(bands, AtMost, v, 0);
    } else if v <= 2.0 {
      assert FirstPassAt(bands, AtMost, v, 1);
    } else if v <= 4.0 {
      assert FirstPassAt(bands, AtMost, v, 2);
    } else if v <= 6.0 {
      assert FirstPassAt(bands, AtMost, v, 3);
    } else if v <= 100.0 {
      assert FirstPassAt(bands, AtMost, v, 4);
    } else {
      assert NonePass(bands, AtMost, v);
    }
  }

  /**
   * Unemployment: the thresholds ascend under a `>=` test, so the first band
   * wins whenever any band passes: A from 0 up, "N/A" below 0, never B to E.
   */
  lemma UnemploymentGrades(v: real)
    ensures ScoreIndicator(Unemployment, v) == Ok(if v >= 0.0 then A else NA)
  {
    assert ScoreBands[Unemployment] == UnemploymentBands && TestFor(Unemployment) == AtLeast;
    FirstBandDecides(UnemploymentBands, v);
  }

  /** Gov Debt: as for Unemployment, A from 30 up, "N/A" below 30, never B to E. */
  lemma GovDebtGrades(v: real)
    ensures ScoreIndicator(GovDebt, v) == Ok(if v >= 30.0 then A else NA)
  {
    assert ScoreBands[GovDebt] == GovDebtBands && TestFor(GovDebt) == AtLeast;
    FirstBandDecides(GovDebtBands, v);
  }

  /** Along every band list the letters run from A to E, except Inflation's, which run from E to A. */
  lemma BandGradeOrders()
    ensures GradesWorsen(GdpGrowthBands) && GradesImprove(InflationBands)
    ensures GradesWorsen(UnemploymentBands) && GradesWorsen(GovDebtBands)
  {
    StepwiseWorsen(GdpGrowthBands);
    StepwiseImprove(InflationBands);
    StepwiseWorsen(UnemploymentBands);
    StepwiseWorsen(GovDebtBands);
  }

  /**
   * For every score indicator, where both values get a letter, the larger
   * value gets a letter at least as good.
   */
  lemma GradeMonotone(indicator: string, v1: real, v2: real)
    requires indicator in ScoreBands
    requires v1 <= v2
    requires ScoreIndicator(indicator, v1) != Ok(NA) && ScoreIndicator(indicator, v2) != Ok(NA)
    ensures Rank(ScoreIndicator(indicator, v2).value) <= Rank(ScoreIndicator(indicator, v1).value)
  {
    BandGradeOrders();
    FirstMatchMonotone(ScoreBands[indicator], TestFor(indicator), v1, v2);
  }
}
