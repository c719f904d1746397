/**
 * The per-country results dict built by the Scorecard view and by
 * `display_country_results`, and the strengths/risks summary drawn from it.
 */
module Results {
  import opened Wrappers
  import opened Grades
  import opened Catalog

  /** The "value" field of an entry: the graded number, or "N/A" when the fetch came back empty. */
  datatype Value = Num(x: real) | NoValue

  /** One dict entry, `{"value": ..., "grade": ...}`. */
  datatype Entry = Entry(value: Value, grade: Grade)

  /** A results dict: its (key, entry) pairs in insertion order. */
  type Results = seq<(string, Entry)>

  function Keys(results: Results): (keys: seq<string>)
    ensures |keys| == |results|
    ensures forall i :: 0 <= i < |results| ==> keys[i] == results[i].0
  {
    seq(|results|, i requires 0 <= i < |results| => results[i].0)
  }

  /** The most recent observation of a date-ordered series: `df.dropna().iloc[-1]`. */
  function Latest(series: seq<real>): real
    requires series != []
  {
    series[|series| - 1]
  }

  /**
   * The entry stored for one indicator: "N/A" for both fields when the
   * series is empty, else the latest value and its grade.
   */
  function EntryFor(indicator: string, series: seq<real>): (e: Entry)
    requires indicator in ScoreBands
    ensures series == [] <==> e.value == NoValue
    ensures series == [] ==> e.grade == NA
    ensures series != [] ==> e == Entry(Num(Latest(series)), ScoreIndicator(indicator, Latest(series)).value)
  {
    if series == [] then Entry(NoValue, NA)
    else Entry(Num(Latest(series)), ScoreIndicator(indicator, Latest(series)).value)
  }

  /**
   * `results` holds exactly one entry per score indicator, in catalog
   * order: "N/A" for both fields when its series is empty, else the latest
   * value and the grade `score_indicator` gives it.
   */
  ghost predicate ResultsOf(results: Results, countryCode: string, fetch: (string, string) -> seq<real>) {
    && Keys(results) == IndicatorNames()
    && forall i :: 0 <= i < |results| ==>
      IndicatorNames()[i] in ScoreBands &&
      results[i].1 == EntryFor(IndicatorNames()[i], fetch(countryCode, ScoreIndicators[i].1))
  }

  /**
   * The loop over `score_indicators` that fills `results` for one country.
   * `fetch` stands for `fetch_data`: given a country code and an indicator
   * code it yields the observed values in date order, empty when the response
   * status is not 200 or the response has no data.
   * Indicator names are distinct, so each `results[ind_name] = ...` adds a
   * new key at the end.
   */
  method BuildResults(countryCode: string, fetch: (string, string) -> seq<real>) returns (results: Results)
    ensures ResultsOf(results, countryCode, fetch)
  {
    CatalogConsistent();
    results := [];
    for i := 0 to |ScoreIndicators|
      invariant |results| == i
      invariant forall j :: 0 <= j < i ==> results[j].0 == IndicatorNames()[j]
      invariant forall j :: 0 <= j < i ==> results[j].1 == EntryFor(IndicatorNames()[j], fetch(countryCode, ScoreIndicators[j].1))
    {
      var (name, code) := ScoreIndicators[i];
      var series := fetch(countryCode, code);
      var entry;
      if series != [] {
        var value := Latest(series);
        var grade := ScoreIndicator(name, value);
        entry := Entry(Num(value), grade.value);
      } else {
        entry := Entry(NoValue, NA);
      }
      results := results + [(name, entry)];
    }
  }

  /** A built results dict has distinct keys, as a dict must. */
  lemma ResultsKeysDistinct(results: Results, countryCode: string, fetch: (string, string) -> seq<real>)
    requires ResultsOf(results, countryCode, fetch)
    ensures Distinct(Keys(results)) && |results| == 4
  {
    CatalogConsistent();
  }

  /** The keys whose grade is in `wanted`, in dict order. */
  function Select(results: Results, wanted: set<Grade>): (keys: seq<string>)
    ensures |keys| <= |results|
    ensures forall k :: k in keys <==> exists i :: 0 <= i < |results| && results[i].0 == k && results[i].1.grade in wanted
  {
    if results == [] then []
    else
      var rest := Select(results[1..], wanted);
      assert forall i :: 1 <= i < |results| ==> results[i] == results[1..][i - 1];
      if results[0].1.grade in wanted then [results[0].0] + rest else rest
  }

  /** Selecting from two dicts in turn gives the two selections in turn: dict order is kept. */
  lemma {:induction false} SelectAppend(r1: Results, r2: Results, wanted: set<Grade>)
    ensures Select(r1 + r2, wanted) == Select(r1, wanted) + Select(r2, wanted)
  {
    if r1 != [] {
      SelectAppend(r1[1..], r2, wanted);
      assert (r1 + r2)[0] == r1[0];
      assert (r1 + r2)[1..] == r1[1..] + r2;
    } else {
      assert r1 + r2 == r2;
    }
  }

  /**
   * The summary insight: when no grade is "N/A", the strengths (A or B) and
   * the risks (D or E); otherwise nothing.
   */
  function Summary(results: Results): (r: Option<(seq<string>, seq<string>)>)
    ensures r.None? <==> exists i :: 0 <= i < |results| && results[i].1.grade == NA
    ensures r.Some? ==> r.value.0 == Select(results, {A, B}) && r.value.1 == Select(results, {D, E})
  {
    if exists i :: 0 <= i < |results| && results[i].1.grade == NA then None
    else Some((Select(results, {A, B}), Select(results, {D, E})))
  }

  /**
   * With distinct keys, no indicator is both a strength and a risk, a C is
   * neither, and every indicator is a strength, a risk, or graded C.
   */
  lemma SummaryPartition(results: Results)
    requires Distinct(Keys(results))
    requires Summary(results).Some?
    ensures forall k :: !(k in Summary(results).value.0 && k in Summary(results).value.1)
    ensures forall i :: 0 <= i < |results| && results[i].1.grade == C ==>
      results[i].0 !in Summary(results).value.0 && results[i].0 !in Summary(results).value.1
    ensures forall i :: 0 <= i < |results| ==>
      results[i].0 in Summary(results).value.0 || results[i].0 in Summary(results).value.1 || results[i].1.grade == C
  {
    var strengths, risks := Summary(results).value.0, Summary(results).value.1;
    forall i, j | 0 <= i < |results| && 0 <= j < |results| && results[i].0 == results[j].0
      ensures i == j
    {
      assert Keys(results)[i] == Keys(results)[j];
    }
  }
}
