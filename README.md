# BloodBeaconPH risk pages — a verified model

BloodBeaconPH is a pair of Streamlit pages that screen a patient for diabetes
risk. Under the widgets sits a small layer of deterministic logic, and this
project models that layer in Dafny:

- **`app.py`** (random-forest model; modules `Risk` and `App`):
  - the threshold-additive heuristic `risk_likelihood`: eight strict
    thresholds, with two stacked tiers per biomarker and a divisor of 12
    clamped at 1;
  - the four-bar breakdown, each bar `value / max * 100`;
  - the gender encoding and the seven-slot classifier vector.
- **`app2.py`** (gradient-boosting model; module `App2`):
  - text fields parsed with fixed fallbacks;
  - eight unclamped percentage bars with their labels;
  - the five-band `bar_color` classifier;
  - the mean-based threat index `r_live`;
  - the eight-slot classifier vector.
- **Both pages** (module `SessionState`): the session slot `bmi_calc_value`.
  It starts unset and "Compute BMI" fills it with `weight / (height/100)^2`.
  The scan button is enabled exactly when the slot is set. It is modelled as
  the class `Session`. One run of a page, with at most one button pressed,
  is the method `Rerun`.

Shared pieces:

- `Normalize`: the percentage of a declared maximum, the sum and the mean.
- `Wrappers`: `Option`. A `None` stands for an unset slot or for text that
  does not parse.

All arithmetic is on Dafny `real`. The classifier, that is the scaler plus
the trained model, is the function parameter `classify: seq<real> -> int`.
A result of 1 means "high risk".

The heuristic is specified by a point table, `Risk.Tiers`. `Risk.Earned`
sums the points of the tiers a level strictly exceeds. The page's own
eight-step `+=` computation, `Risk.RiskLikelihood`, is proved equal to that
table-driven definition. The properties are proved about the table:

- bounds;
- strictness at every threshold;
- stacking of the upper tiers;
- monotonicity;
- saturation.

The bars and the classifier vectors are tied to per-feature tables: the
value, the declared maximum, the label and the position of each feature.

The bars are never clamped: a value above its declared maximum gives a bar
above 100, and the threat index of the second page can exceed 1.

## Model

| member | source | states |
|---|---|---|
| `Normalize.Percent` | app2.py:211-220 | a bar is `value / max * 100`: `p * max == value * 100`; exactly 100 iff the value equals its maximum; in [0, 100] iff the value is in [0, max]; above 100 iff above the maximum (no clamping) |
| `Normalize.Mean` | app2.py:260 | the mean times the list's length is the list's sum |
| `Normalize.MeanBounds` | app2.py:260 | if every element lies in [lo, hi], so does the mean |
| `SessionState.Bmi` | app.py:103 | the BMI times the height in metres squared is the weight; a positive weight gives a positive BMI |
| `SessionState.DefaultBmi` | app.py:99-100 | the widget defaults, 70 kg and 170 cm, give the BMI 7000/289 |
| `SessionState.Session.constructor` | app.py:96-97 | a new session has the slot unset, so the scan is locked |
| `SessionState.Session.ComputeBmi` | app2.py:180-182 | with a non-zero height the slot becomes `weight / (height/100)^2` and the scan unlocks; a zero height fails and leaves the slot as it was; once unlocked, the scan stays unlocked |
| `SessionState.Session.ScanReady` | app2.py:198 | the `scan_ready` interlock: the scan is enabled iff the BMI slot is not `None` |
| `Risk.Tiers` | app.py:60-67 | the point table: each marker has two tiers, the lower threshold strictly below the upper, both with positive points (45/1.5 and 60/2 for age, 140/2.5 and 200/3 for glucose, 5.7/2 and 6.5/3 for HbA1c, 27/1.5 and 30/2.5 for BMI) |
| `Risk.RawScore` | app.py:59-67 | the raw score lies in [0, 18] |
| `Risk.RiskOf` | app.py:68 | the risk lies in [0, 1]; it is 1 iff the raw score reaches 12; below 1 it is the raw score divided by 12; it is 0 iff the raw score is 0 |
| `Risk.RiskLikelihood` | app.py:58-68 | the eight successive `+=` updates followed by `min(score / 12, 1.0)` compute exactly the table-driven risk |
| `Risk.EarnedMonotone` | app.py:60-67 | on any tier list with non-negative points, a higher level never earns fewer points |
| `Risk.EarnedAllAbove` | app.py:60-67 | a level strictly above every threshold earns every tier's points, so the tiers stack |
| `Risk.PointsPerMarker` | app.py:60-67 | each marker's points are its lower tier (strict `>`) plus its upper tier (strict `>`), with the page's thresholds and points |
| `Risk.TableBounds` | app.py:60-67 | age earns 0 to 3.5 points, glucose 0 to 5.5, HbA1c 0 to 5 and BMI 0 to 4 |
| `Risk.TableTotals` | app.py:60-68 | the four markers' totals are 3.5, 5.5, 5 and 4, and they add up to 18, above the divisor 12 |
| `Risk.ThresholdsAreStrict` | app.py:60-67 | a marker earns points iff it is strictly above 45 (age), 140 (glucose), 5.7 (HbA1c) or 27 (BMI); the boundary value itself earns nothing |
| `Risk.UpperTiersStack` | app.py:60-67 | above 60, 200, 6.5 or 30 a marker earns both tiers: 3.5, 5.5, 5 or 4 points |
| `Risk.NoCrossingIsZero` | app.py:59-68 | the risk is 0 iff every marker is at or below its lower threshold |
| `Risk.SingleAgeCrossing` | app.py:59-68 | age in (45, 60] with every other marker low gives exactly 1.5/12 |
| `Risk.BoundaryExactness` | app.py:60-68 | (45, 140, 5.7, 27) gives 0; ages 45.0001 and 46 alone give 1.5/12 |
| `Risk.RiskMonotone` | app.py:60-68 | raising any marker, with the others held fixed or raised too, never lowers the raw score or the risk |
| `Risk.AllTopsSaturate` | app.py:60-68 | with all four upper tiers crossed the raw score is 18 and the risk is exactly 1 |
| `Risk.SaturatesBeforeMaximum` | app.py:68 | three upper tiers alone (raw 14) already give risk 1: the risk saturates before the table maximum |
| `App.WithinWidgets` | app.py:99-117 | the ranges the number inputs and select boxes enforce; within them weight and height are positive (so the BMI is defined) and the age bar lies in [12.5, 100] |
| `App.GenderCode` | app.py:139 | the code is 0 or 1, and it is 1 iff the gender is "Male" |
| `App.FeatureOrderIsAPermutation` | app.py:140 | each of the seven slots has exactly one position in the vector |
| `App.Features` | app.py:140 | the vector has seven entries; position i holds the value of slot i of the order gender code, age, hypertension, heart disease, BMI, HbA1c, glucose |
| `App.BarValues` | app.py:147 | four bars, bar i being `Percent` of marker i of the order age, BMI, glucose, HbA1c, against the maxima 80, 40, 300 and 9 |
| `App.BarLabels` | app.py:148 | four labels aligned with the bars |
| `App.BarExamples` | app.py:147 | age 40 gives 50, age 90 gives 112.5 (unclamped), BMI 40 gives 100 |
| `App.ScanReport` | app.py:145-173 | the bars are `BarValues` of the form and the BMI and the labels are `BarLabels`, four of each; the threat index is the heuristic risk of the form and the BMI, in [0, 1]; the classifier sees the seven-slot vector; "high risk" iff it answers 1 |
| `App.Rerun` | app.py:96-173 | only "Compute BMI" changes the slot, setting it to the form's BMI; a scan report is produced iff the scan was pressed and a BMI is held, and it is the `ScanReport` of that BMI |
| `App2.Truncate` | app2.py:125 | `int()` of a float truncates toward zero: for x >= 0, n <= x < n + 1; for x < 0, n - 1 < x <= n |
| `App2.IntOr` | app2.py:124-127 | a failed parse gives the default; a parsed value gives its integer part, truncated toward zero |
| `App2.ParseForm` | app2.py:123-178 | every field is its parsed value (age and pregnancies truncated) or, when parsing failed, its fixed default: age 30, pregnancies 0, glucose 100, BP 70, skin 20, insulin 79, DPF 0.50, weight 70, height 170 |
| `App2.NothingParsesGivesDefaults` | app2.py:124-178 | with no field parsing the form is exactly the defaults |
| `App2.AgeTruncatesTowardZero` | app2.py:124-125 | the age texts 30.9 and -2.5 become 30 and -2 |
| `App2.OrdersArePermutations` | app2.py:211-270 | the bar order and the classifier order each hold all eight features exactly once |
| `App2.Features` | app2.py:270 | the vector has eight entries, in the order pregnancies, glucose, BP, skin, insulin, BMI, DPF, age |
| `App2.BarValues` | app2.py:211-220 | eight bars, bar i being `Percent` of feature i against the maxima 80, 17, 200, 122, 99, 845, 2.42 and 60, unclamped |
| `App2.BarLabels` | app2.py:222-231 | eight labels, one per bar and in the same order |
| `App2.BarAtMaximum` | app2.py:211-220 | a feature equal to its maximum gives a bar of exactly 100; a feature above it gives more than 100 |
| `App2.ColorName` | app2.py:234-238 | the chart's colour strings: "red", "orangered", "darkorange", "orange" and "gray", each naming exactly one band |
| `App2.BarColor` | app2.py:233-238 | red iff v >= 90; orangered iff 80 <= v < 90; darkorange iff 70 <= v < 80; orange iff 60 <= v < 70; gray iff v < 60 |
| `App2.BarColorMonotone` | app2.py:233-238 | if v <= w, the band of v ranks no higher than the band of w |
| `App2.Colors` | app2.py:240 | one colour name per bar, each the name of the band of that bar's height |
| `App2.ThreatIndex` | app2.py:260 | the threat index times 100 times the number of bars is the sum of the bars |
| `App2.ThreatIndexInUnitInterval` | app2.py:260 | with every feature between 0 and its maximum, the threat index lies in [0, 1] |
| `App2.ThreatIndexNotClamped` | app2.py:211-260 | every feature at twice its maximum gives a threat index of 2: nothing clamps it |
| `App2.ScanReport` | app2.py:208-273 | the bars are `BarValues` of the form and the BMI and the labels are `BarLabels`; eight bars, labels and colours aligned; colour i is the name of the band of bar i; the threat index is the sum of the bars over 800, and it lies in [0, 1] when the features are within their maxima; a verdict is reached iff the threat index lies in [0, 1] (which holds when the features are within their maxima); the classifier sees the eight-slot vector; the verdict is "high risk" iff it answers 1 |
| `App2.OutOfRangeStopsBeforeClassifier` | app2.py:260-273 | every feature at twice its maximum gives a threat index of 2, which the progress bar rejects, so the scan reaches no verdict |
| `App2.Rerun` | app2.py:168-273 | "Compute BMI" fails exactly on a zero parsed height; only a successful "Compute BMI" changes the slot, setting it to the parsed form's BMI; a scan report is produced iff the scan was pressed and a BMI is held, and it is the `ScanReport` of the parsed form and that BMI |

## Left out

- Streamlit presentation is not modelled: widgets, layout, metrics, console messages, balloons, `st.progress` and the charts. It is display only.
- The background image loader, the CSS and the inline script are not modelled (app.py:22-55, app2.py:17-90). They are file I/O and presentation. The script's digit filter runs in the browser, so the model lets any text reach the Python parsing.
- The trained model and the scaler are `joblib` artifacts. Together they are the opaque parameter `classify`.
- Python's `float()` text parsing is an abstract `Option<real>` input. So are IEEE special values: `int(float("inf"))` raising and falling back to the default is not modelled.
- `round(x, 2)` is not modelled; the model uses exact reals. This holds on app.py:104, app.py:120-122 and app2.py:146-159.
- SessionState.Session.ComputeBmi: stores the exact `weight / (height/100)^2` rather than its value rounded to two decimals, because rounding is left out everywhere.
- SessionState.Session.ComputeBmi: on app2.py a height whose square underflows to zero also divides by zero in floating point. The model fails only on a height of exactly 0, because IEEE behaviour is left out.
- App.Rerun: does not build the classifier vector when the BMI is unset. The page builds it before the scan button (app.py:140), but the vector is only used inside the scan.
- The FINDRISC point-bucket variant lives in other pages of the repository. It is not part of these two pages, so it is not part of this model.
- `st.progress` is modelled only by the range it accepts, [0, 1]. On app2.py:262 a threat index outside that range raises, so the page stops before the classifier: no classifier call and no verdict (`App2.Report.verdict` is `None`). This happens above 1, when an input exceeds its maximum, and below 0, when an input is negative. What Streamlit displays for the error is not modelled. On app.py the index is the clamped heuristic, always in [0, 1].
