# Macro Compass grading engine in Dafny

This project models the grading engine of Macro Compass, a dashboard that
grades five Southeast Asian economies on four World Bank indicators (GDP
growth, inflation, unemployment, government debt). The engine has four parts:

- the catalog (`score_indicators`, `score_bands`, `countries`);
- `score_indicator`, which tries an indicator's bands in list order and
  returns the grade of the first band whose test passes. The test is
  `value <= threshold` for exactly "Inflation (%)" and `value >= threshold`
  for every other indicator. When no band passes the result is "N/A";
- the per-country results dict. Both the Scorecard view and
  `display_country_results` build it with the same loop. An empty fetch
  gives value and grade "N/A"; otherwise the entry is the latest value and
  its grade;
- the summaries. Strengths are the A/B indicators and risks the D/E ones,
  and they are shown only when no grade is "N/A". The overall letter is
  "ABCDE" indexed by the rounded mean of the letters' positions.

Modules, one per component:

| file | module | contents |
|---|---|---|
| wrappers.dfy | Wrappers | `Option`, `Result` |
| grades.dfy | Grades | `Grade` (A to E and NA), positions in "ABCDE" |
| bands.dfy | Bands | first-match classification over a band list, its characterisation, monotonicity |
| catalog.dfy | Catalog | the catalog constants, `ScoreIndicator`, the grade table of each indicator |
| aggregate.dfy | Aggregate | half-to-even rounding, scores, the overall letter |
| results.dfy | Results | the results dict, `BuildResults`, strengths/risks |
| views.dfy | Views | what the Scorecard and Comparison views compute |

What the code does, as proved here. The bands in the code differ from the
explanatory table the app shows, and the model follows the code:

- GDP Growth: >= 6 A, [4,6) B, [2,4) C, [0,2) D, [-100,0) E. Below -100
  no band passes and the grade is "N/A", not E.
- Inflation: <= 0 E, (0,2] D, (2,4] C, (4,6] B, (6,100] A. Above 100 the
  grade is "N/A".
- Unemployment and Gov Debt have ascending thresholds under a `>=` test,
  so the first band wins whenever any band passes. Unemployment is A from 0
  up and "N/A" below 0; Gov Debt is A from 30 up and "N/A" below 30.
  Neither can produce B to E.
- Where a letter is produced, every indicator is monotone: a larger value
  never gets a worse letter.
- The overall letter is Python's `round` of the mean, ties to even: A+B
  gives A, B+C gives C, C+D gives C, D+E gives E.

The overall mean is modelled as the exact rational `sum / n`. Rounding it
gives the same integer as Python's `round` applied to the float mean. At
most four grades are averaged, so a true half `(2k+1)/2` is exactly representable and the float division returns it
exactly. Any other mean is at least `1/(2n)` away from a half, far beyond
float error, so Python's `round` picks the same integer.

`fetch_data` is a parameter `fetch: (string, string) -> seq<real>`. Given a
country code and an indicator code, it returns the observed values in date
order with missing values dropped. The sequence is empty when the response
status is not 200 or the response has no data.
The latest observation is the last element.

## Model

| member | source | states |
|---|---|---|
| Grades.GradeScore | macro_compass_clean_full_fixed.py:191-192 | None exactly for "N/A"; a letter's score is below 5 |
| Grades.LetterRoundTrip | macro_compass_clean_full_fixed.py:134-135 | `"ABCDE"[i]` and `"ABCDE".index(g)` are inverse on 0..4 and the letters |
| Bands.FirstMatch | macro_compass_clean_full_fixed.py:56-60 | the result is the grade of the first band in list order whose test passes, and "N/A" when none passes |
| Bands.FirstPassCases | macro_compass_clean_full_fixed.py:56-60 | either no band passes or some band is the first to pass, so the loop's result is always determined |
| Bands.FirstMatchMonotone | macro_compass_clean_full_fixed.py:56-59 | a larger value never gets a worse letter, under `>=` when letters worsen along the list and under `<=` when they improve |
| Bands.FirstBandDecides | macro_compass_clean_full_fixed.py:57-59 | under `>=` with the smallest threshold first, the first band's grade is returned at or above it and "N/A" below it |
| Catalog.CatalogConsistent | macro_compass_clean_full_fixed.py:19-41 | `score_indicators` has four distinct names and they are exactly the keys of `score_bands`, so the lookup never fails from the call sites |
| Catalog.ScoreIndicator | macro_compass_clean_full_fixed.py:56-60 | KeyError exactly for a name without bands; otherwise the grade of the first passing band under the name's test, or "N/A" when no band passes |
| Catalog.GdpGrowthGrades | macro_compass_clean_full_fixed.py:37 | >=6 A, [4,6) B, [2,4) C, [0,2) D, [-100,0) E, below -100 "N/A" |
| Catalog.InflationGrades | macro_compass_clean_full_fixed.py:38 | <=0 E, (0,2] D, (2,4] C, (4,6] B, (6,100] A, above 100 "N/A" |
| Catalog.UnemploymentGrades | macro_compass_clean_full_fixed.py:39 | A for every value >= 0 and "N/A" below 0; never B to E |
| Catalog.GovDebtGrades | macro_compass_clean_full_fixed.py:40 | A for every value >= 30 and "N/A" below 30; never B to E |
| Catalog.BandGradeOrders | macro_compass_clean_full_fixed.py:36-41 | letters run from A to E along every band list except Inflation's, which runs from E to A |
| Catalog.GradeMonotone | macro_compass_clean_full_fixed.py:56-59 | for each score indicator, where both values get a letter, the larger value's letter is at least as good |
| Aggregate.RoundHalfEven | macro_compass_clean_full_fixed.py:135 | the result is within half a unit of p/q, and on an exact tie it is even |
| Aggregate.RoundHalfEvenUnique | macro_compass_clean_full_fixed.py:135 | those two properties determine the rounded value uniquely |
| Aggregate.RoundWithin | macro_compass_clean_full_fixed.py:135 | a mean in [lo, hi] rounds into [lo, hi], so `"ABCDE"[...]` is always in range |
| Aggregate.SumWithin | macro_compass_clean_full_fixed.py:134 | scores in [lo, hi] sum to between lo·n and hi·n |
| Aggregate.Scores | macro_compass_clean_full_fixed.py:132 | each score is a position below 5; no longer than the grades; empty exactly when every grade is "N/A" |
| Aggregate.ScoresCount | macro_compass_clean_full_fixed.py:194-195 | each position occurs in the scores as often as its letter occurs among the grades |
| Aggregate.OverallGrade | macro_compass_clean_full_fixed.py:133-135 | no overall without scores; otherwise a letter whose position is nearest the mean, an exact tie going to the even position |
| Aggregate.OverallBetween | macro_compass_clean_full_fixed.py:198-201 | the overall letter lies between the best and the worst letter averaged |
| Aggregate.OverallUniform | macro_compass_clean_full_fixed.py:198-201 | letters that are all the same give that letter |
| Aggregate.OverallExamples | macro_compass_clean_full_fixed.py:134-135 | A+B is A, B+C is C, C+D is C, D+E is E, A+C is B, A+B+D is B |
| Results.EntryFor | macro_compass_clean_full_fixed.py:112-119 | value and grade "N/A" for an empty series, and only then value "N/A"; otherwise the latest value and its `score_indicator` grade |
| Results.BuildResults | macro_compass_clean_full_fixed.py:164-175 | one entry per score indicator in catalog order; "N/A"/"N/A" for an empty fetch; otherwise the latest value and its `score_indicator` grade |
| Results.ResultsKeysDistinct | macro_compass_clean_full_fixed.py:110-119 | a built results dict has four distinct keys |
| Results.Select | macro_compass_clean_full_fixed.py:124-125 | a key is selected if and only if its entry's grade is among the wanted ones |
| Results.SelectAppend | macro_compass_clean_full_fixed.py:124-125 | selection keeps dict order: selecting from a concatenation concatenates the selections |
| Results.Summary | macro_compass_clean_full_fixed.py:123-127 | no summary exactly when some grade is "N/A"; otherwise strengths are the A/B keys and risks the D/E keys |
| Results.SummaryPartition | macro_compass_clean_full_fixed.py:123-127 | strengths and risks are disjoint; C is in neither; every other key is in one of them |
| Views.OverallOf | macro_compass_clean_full_fixed.py:132-135 | no overall letter exactly when every grade is "N/A"; otherwise a letter |
| Views.ScorecardView | macro_compass_clean_full_fixed.py:103-135 | the Scorecard's results dict for the chosen country, its summary and its overall letter |
| Views.ComparisonView | macro_compass_clean_full_fixed.py:157-201 | nothing for the same country twice; otherwise both dicts, and both overall letters exactly when each side has a letter grade |

## Left out

- The Streamlit interface is not modelled: page setup, sidebar, widgets, tabs, metrics, markdown/HTML text and the summary sentence itself. This is presentation only.
- The Explorer view (lines 69-98) is not modelled. It only fetches, filters by year, joins and plots series with pandas/plotly.
- `fetch_data` (lines 43-54) is a parameter. Its HTTP request, JSON parsing, date sorting, `dropna` and `st.cache_data` are I/O and library code.
- Results.BuildResults: grades the latest value as given. The float rounding `round(latest['value'], 2)` at lines 114 and 170 is not modelled, so the model treats the graded value as an arbitrary real.
- Views.ComparisonView: both country names are required to be keys of `countries`. In the app the select boxes only offer those keys.
- Views.ScorecardView: the country name is required to be a key of `countries`. In the app the select box only offers those keys.
- The scoring table text at lines 139-146 is documentation and disagrees with the code for GDP Growth (below -100), Inflation, Unemployment and Gov Debt. The model follows the code.
- Results.BuildResults: a network error in `requests.get` or a body that is not JSON raises out of `fetch_data` (lines 46 and 48); nothing catches it, so the view stops with no results, summary or overall letter. A request without a timeout may also never return. The model's `fetch` always returns a sequence and does not capture these.
