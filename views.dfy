/**
 * What the Scorecard and Comparison views compute before rendering: the
 * results dicts, the summary insight and the overall letters.
 */
module Views {
  import opened Wrappers
  import opened Grades
  import opened Catalog
  import opened Aggregate
  import opened Results

  /** The grades of a results dict, in dict order: `[v["grade"] for v in results.values()]`. */
  function GradesOf(results: Results): (grades: seq<Grade>)
    ensures |grades| == |results|
    ensures forall i :: 0 <= i < |results| ==> grades[i] == results[i].1.grade
  {
    seq(|results|, i requires 0 <= i < |results| => results[i].1.grade)
  }

  /** The overall letter of one results dict, None when no grade is a letter. */
  function OverallOf(results: Results): (r: Option<Grade>)
    ensures r.None? <==> forall i :: 0 <= i < |results| ==> results[i].1.grade == NA
    ensures r.Some? ==> r.value != NA
  {
    OverallGrade(Scores(GradesOf(results)))
  }

  datatype Scorecard = Scorecard(results: Results, summary: Option<(seq<string>, seq<string>)>, overall: Option<Grade>)

  /**
   * The Scorecard view for one country: its results dict, the summary
   * (only when no grade is "N/A") and the overall letter (only when some
   * grade is a letter).
   */
  method ScorecardView(country: string, fetch: (string, string) -> seq<real>) returns (card: Scorecard)
    requires country in Countries
    ensures ResultsOf(card.results, Countries[country], fetch)
    ensures card.summary == Summary(card.results)
    ensures card.overall == OverallOf(card.results)
  {
    var results := BuildResults(Countries[country], fetch);
    card := Scorecard(results, Summary(results), OverallOf(results));
  }

  datatype Comparison = Comparison(resultsA: Results, resultsB: Results, overall: Option<(Grade, Grade)>)

  /**
   * The Comparison view: nothing when the same country is chosen twice
   * (`st.stop()`); otherwise both results dicts, and both overall letters
   * only when each side has at least one letter grade.
   */
  method ComparisonView(countryA: string, countryB: string, fetch: (string, string) -> seq<real>)
    returns (view: Option<Comparison>)
    requires countryA in Countries && countryB in Countries
    ensures view.None? <==> countryA == countryB
    ensures view.Some? ==> ResultsOf(view.value.resultsA, Countries[countryA], fetch)
    ensures view.Some? ==> ResultsOf(view.value.resultsB, Countries[countryB], fetch)
    ensures view.Some? ==> (view.value.overall.Some? <==>
      (exists i :: 0 <= i < |view.value.resultsA| && view.value.resultsA[i].1.grade != NA) &&
      (exists j :: 0 <= j < |view.value.resultsB| && view.value.resultsB[j].1.grade != NA))
    ensures view.Some? && view.value.overall.Some? ==>
      view.value.overall.value == (OverallOf(view.value.resultsA).value, OverallOf(view.value.resultsB).value)
  {
    if countryA == countryB {
      return None;
    }
    var resultsA := BuildResults(Countries[countryA], fetch);
    var resultsB := BuildResults(Countries[countryB], fetch);
    var overallA, overallB := OverallOf(resultsA), OverallOf(resultsB);
    var overall := if overallA.Some? && overallB.Some? then Some((overallA.value, overallB.value)) else None;
    view := Some(Comparison(resultsA, resultsB, overall));
  }
}
