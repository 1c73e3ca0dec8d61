/**
 * The second page (gradient-boosting model): text fields parsed with fixed
 * fallbacks, the BMI interlock, eight colour-coded bars, the mean-based
 * threat index and the eight-slot vector handed to the classifier.
 */
module App2 {
  import opened Wrappers
  import opened Normalize
  import opened SessionState

  // ---------------------------------------------------------------------
  // Parsing with defaults

  /** What `float(...)` made of each text field: `None` where it raised. */
  datatype RawForm = RawForm(
    age: Option<real>, pregnancies: Option<real>, glucose: Option<real>, bp: Option<real>,
    skin: Option<real>, insulin: Option<real>, dpf: Option<real>,
    weight: Option<real>, height: Option<real>)

  /** The page's values after parsing; age and pregnancies are whole numbers. */
  datatype Form = Form(
    age: int, pregnancies: int, glucose: real, bp: real, skin: real, insulin: real, dpf: real,
    weight: real, height: real)

  /** The value each field takes when its text does not parse. */
  const Defaults: Form := Form(30, 0, 100.0, 70.0, 20.0, 79.0, 0.50, 70.0, 170.0)

  /** Python's `int(x)` on a float: the integer part, truncated toward zero. */
  function Truncate(x: real): (n: int)
    ensures 0.0 <= x ==> n as real <= x < n as real + 1.0
    ensures x < 0.0 ==> n as real - 1.0 < x <= n as real
  {
    if x >= 0.0 then x.Floor else -((-x).Floor)
  }

  /** `int(float(text))`, falling back to `default` when the text does not parse. */
  function IntOr(parsed: Option<real>, default: int): (n: int)
    ensures parsed.None? ==> n == default
    ensures parsed.Some? && 0.0 <= parsed.value ==> n as real <= parsed.value < n as real + 1.0
    ensures parsed.Some? && parsed.value < 0.0 ==> n as real - 1.0 < parsed.value <= n as real
  {
    match parsed
    case Some(x) => Truncate(x)
    case None => default
  }

  /** Every field is what it parsed to, or its fixed default when parsing failed. */
  function ParseForm(raw: RawForm): (f: Form)
    ensures f.age == IntOr(raw.age, Defaults.age)
    ensures f.pregnancies == IntOr(raw.pregnancies, Defaults.pregnancies)
    ensures raw.glucose.Some? ==> f.glucose == raw.glucose.value
    ensures raw.glucose.None? ==> f.glucose == Defaults.glucose
    ensures raw.bp.Some? ==> f.bp == raw.bp.value
    ensures raw.bp.None? ==> f.bp == Defaults.bp
    ensures raw.skin.Some? ==> f.skin == raw.skin.value
    ensures raw.skin.None? ==> f.skin == Defaults.skin
    ensures raw.insulin.Some? ==> f.insulin == raw.insulin.value
    ensures raw.insulin.None? ==> f.insulin == Defaults.insulin
    ensures raw.dpf.Some? ==> f.dpf == raw.dpf.value
    ensures raw.dpf.None? ==> f.dpf == Defaults.dpf
    ensures raw.weight.Some? ==> f.weight == raw.weight.value
    ensures raw.weight.None? ==> f.weight == Defaults.weight
    ensures raw.height.Some? ==> f.height == raw.height.value
    ensures raw.height.None? ==> f.height == Defaults.height
  {
    Form(
      IntOr(raw.age, 30), IntOr(raw.pregnancies, 0),
      raw.glucose.GetOr(100.0), raw.bp.GetOr(70.0), raw.skin.GetOr(20.0),
      raw.insulin.GetOr(79.0), raw.dpf.GetOr(0.50),
      raw.weight.GetOr(70.0), raw.height.GetOr(170.0))
  }

  /** Nothing parses: the page runs on its defaults (age 30, glucose 100, BMI inputs 70 kg and 170 cm, ...). */
  lemma NothingParsesGivesDefaults()
    ensures ParseForm(RawForm(None, None, None, None, None, None, None, None, None)) == Defaults
  {
  }

  /** "30.9" and "-2.5" as ages: the integer part survives, rounded toward zero. */
  lemma AgeTruncatesTowardZero()
    ensures ParseForm(RawForm(Some(30.9), None, None, None, None, None, None, None, None)).age == 30
    ensures ParseForm(RawForm(Some(-2.5), None, None, None, None, None, None, None, None)).age == -2
  {
  }

  // ---------------------------------------------------------------------
  // Features

  /** The eight features of the page. */
  datatype Feature = Age | Pregnancies | Glucose | BP | Skin | Insulin | DPF | BMI

  /** A feature's value, given the parsed form and the session's BMI. */
  function Value(f: Form, bmi: real, x: Feature): real
  {
    match x
    case Age => f.age as real
    case Pregnancies => f.pregnancies as real
    case Glucose => f.glucose
    case BP => f.bp
    case Skin => f.skin
    case Insulin => f.insulin
    case DPF => f.dpf
    case BMI => bmi
  }

  /** Each feature's declared maximum, the one the page shows in its field label. */
  function MaxOf(x: Feature): (max: real)
    ensures max > 0.0
  {
    match x
    case Age => 80.0
    case Pregnancies => 17.0
    case Glucose => 200.0
    case BP => 122.0
    case Skin => 99.0
    case Insulin => 845.0
    case DPF => 2.42
    case BMI => 60.0
  }

  function Label(x: Feature): string
  {
    match x
    case Age => "Age"
    case Pregnancies => "Pregnancies"
    case Glucose => "Glucose"
    case BP => "BP"
    case Skin => "Skin"
    case Insulin => "Insulin"
    case DPF => "DPF"
    case BMI => "BMI"
  }

  /** The bars, left to right. */
  const BarOrder: seq<Feature> := [Age, Pregnancies, Glucose, BP, Skin, Insulin, DPF, BMI]

  /** The classifier's input order. */
  const FeatureOrder: seq<Feature> := [Pregnancies, Glucose, BP, Skin, Insulin, BMI, DPF, Age]

  /** Both orders hold each of the eight features exactly once. */
  lemma OrdersArePermutations()
    ensures forall x: Feature :: x in BarOrder && x in FeatureOrder
    ensures forall i, j :: 0 <= i < j < |BarOrder| ==> BarOrder[i] != BarOrder[j]
    ensures forall i, j :: 0 <= i < j < |FeatureOrder| ==> FeatureOrder[i] != FeatureOrder[j]
  {
    forall x: Feature ensures x in BarOrder && x in FeatureOrder {
      match x
      case Age => assert BarOrder[0] == x && FeatureOrder[7] == x;
      case Pregnancies => assert BarOrder[1] == x && FeatureOrder[0] == x;
      case Glucose => assert BarOrder[2] == x && FeatureOrder[1] == x;
      case BP => assert BarOrder[3] == x && FeatureOrder[2] == x;
      case Skin => assert BarOrder[4] == x && FeatureOrder[3] == x;
      case Insulin => assert BarOrder[5] == x && FeatureOrder[4] == x;
      case DPF => assert BarOrder[6] == x && FeatureOrder[6] == x;
      case BMI => assert BarOrder[7] == x && FeatureOrder[5] == x;
    }
  }

  /** The classifier's input vector. */
  function Features(f: Form, bmi: real): (v: seq<real>)
    ensures |v| == |FeatureOrder|
    ensures forall i :: 0 <= i < |v| ==> v[i] == Value(f, bmi, FeatureOrder[i])
  {
    [f.pregnancies as real, f.glucose, f.bp, f.skin, f.insulin, bmi, f.dpf, f.age as real]
  }

  // ---------------------------------------------------------------------
  // Biomarker breakdown

  /** The bar heights: each feature as an unclamped percentage of its maximum, in bar order. */
  function BarValues(f: Form, bmi: real): (p: seq<real>)
    ensures |p| == |BarOrder|
    ensures forall i :: 0 <= i < |p| ==> p[i] == Percent(Value(f, bmi, BarOrder[i]), MaxOf(BarOrder[i]))
  {
    [ (f.age as real / 80.0) * 100.0,
      (f.pregnancies as real / 17.0) * 100.0,
      (f.glucose / 200.0) * 100.0,
      (f.bp / 122.0) * 100.0,
      (f.skin / 99.0) * 100.0,
      (f.insulin / 845.0) * 100.0,
      (f.dpf / 2.42) * 100.0,
      (bmi / 60.0) * 100.0 ]
  }

  /** The bar labels, one per bar and in the same order. */
  function BarLabels(): (l: seq<string>)
    ensures |l| == |BarOrder|
    ensures forall i :: 0 <= i < |l| ==> l[i] == Label(BarOrder[i])
  {
    ["Age", "Pregnancies", "Glucose", "BP", "Skin", "Insulin", "DPF", "BMI"]
  }

  /** Every feature lies between 0 and its declared maximum. */
  predicate WithinMaxima(f: Form, bmi: real)
  {
    forall x: Feature :: 0.0 <= Value(f, bmi, x) <= MaxOf(x)
  }

  /** A feature at its maximum makes a bar of exactly 100; above it, more than 100. */
  lemma BarAtMaximum(f: Form, bmi: real, i: nat)
    requires i < |BarOrder|
    ensures Value(f, bmi, BarOrder[i]) == MaxOf(BarOrder[i]) ==> BarValues(f, bmi)[i] == 100.0
    ensures Value(f, bmi, BarOrder[i]) > MaxOf(BarOrder[i]) ==> BarValues(f, bmi)[i] > 100.0
  {
  }

  // ---------------------------------------------------------------------
  // Bar colours

  /** The five severity bands of a bar, lowest first. */
  datatype Color = Gray | Orange | DarkOrange | OrangeRed | Red

  /** The colour names the chart is given, one distinct name per band. */
  function ColorName(c: Color): (n: string)
    ensures n == "red" <==> c == Red
    ensures n == "orangered" <==> c == OrangeRed
    ensures n == "darkorange" <==> c == DarkOrange
    ensures n == "orange" <==> c == Orange
    ensures n == "gray" <==> c == Gray
  {
    match c
    case Gray => "gray"
    case Orange => "orange"
    case DarkOrange => "darkorange"
    case OrangeRed => "orangered"
    case Red => "red"
  }

  /** The rank of a band: gray 0 up to red 4. */
  function Severity(c: Color): nat
  {
    match c
    case Gray => 0
    case Orange => 1
    case DarkOrange => 2
    case OrangeRed => 3
    case Red => 4
  }

  /** `bar_color`: each band starts at an inclusive lower bound of 60, 70, 80 or 90. */
  function BarColor(v: real): (c: Color)
    ensures c == Red <==> v >= 90.0
    ensures c == OrangeRed <==> 80.0 <= v < 90.0
    ensures c == DarkOrange <==> 70.0 <= v < 80.0
    ensures c == Orange <==> 60.0 <= v < 70.0
    ensures c == Gray <==> v < 60.0
  {
    if v >= 90.0 then Red
    else if v >= 80.0 then OrangeRed
    else if v >= 70.0 then DarkOrange
    else if v >= 60.0 then Orange
    else Gray
  }

  /** A higher bar is never coloured less severely. */
  lemma BarColorMonotone(v: real, w: real)
    requires v <= w
    ensures Severity(BarColor(v)) <= Severity(BarColor(w))
  {
  }

  /** One colour name per bar, each the name of its bar's band. */
  function Colors(values: seq<real>): (cs: seq<string>)
    ensures |cs| == |values|
    ensures forall i :: 0 <= i < |cs| ==> cs[i] == ColorName(BarColor(values[i]))
  {
    seq(|values|, i requires 0 <= i < |values| => ColorName(BarColor(values[i])))
  }

  // ---------------------------------------------------------------------
  // Threat index

  /** `np.mean(values) / 100`: the mean bar height as a fraction. */
  function ThreatIndex(values: seq<real>): (r: real)
    requires |values| > 0
    ensures r * 100.0 * (|values| as real) == Sum(values)
  {
    Mean(values) / 100.0
  }

  /** With every feature between 0 and its maximum, the threat index lies in [0, 1]. */
  lemma ThreatIndexInUnitInterval(f: Form, bmi: real)
    requires WithinMaxima(f, bmi)
    ensures 0.0 <= ThreatIndex(BarValues(f, bmi)) <= 1.0
  {
    var p := BarValues(f, bmi);
    forall i | 0 <= i < |p| ensures 0.0 <= p[i] <= 100.0 {
      assert 0.0 <= Value(f, bmi, BarOrder[i]) <= MaxOf(BarOrder[i]);
    }
    MeanBounds(p, 0.0, 100.0);
  }

  /** Nothing clamps the threat index: every feature at twice its maximum gives 2. */
  lemma ThreatIndexNotClamped()
    ensures ThreatIndex(BarValues(Form(160, 34, 400.0, 244.0, 198.0, 1690.0, 4.84, 0.0, 0.0), 120.0)) == 2.0
  {
  }

  // ---------------------------------------------------------------------
  // The scan

  /**
   * The progress bar takes a fraction in [0, 1] and raises on anything else;
   * the run then stops before the classifier is consulted.
   */
  predicate ProgressAccepts(fraction: real)
  {
    0.0 <= fraction <= 1.0
  }

  /**
   * What one scan shows: coloured bars with labels, the threat index, the
   * classifier's input, and its verdict (`None` when the run stopped at the
   * progress bar; `Some(true)` for "high risk").
   */
  datatype Report = Report(
    bars: seq<real>, labels: seq<string>, colors: seq<string>,
    threat: real, features: seq<real>, verdict: Option<bool>)

  /** The scan's result for a parsed form and a computed BMI; `classify` stands for the scaler and the model. */
  function ScanReport(f: Form, bmi: real, classify: seq<real> -> int): (r: Report)
    ensures r.bars == BarValues(f, bmi) && r.labels == BarLabels()
    ensures |r.bars| == |r.labels| == |r.colors| == 8
    ensures forall i :: 0 <= i < 8 ==> r.labels[i] == Label(BarOrder[i]) && r.colors[i] == ColorName(BarColor(r.bars[i]))
    ensures r.threat * 800.0 == Sum(r.bars)
    ensures WithinMaxima(f, bmi) ==> 0.0 <= r.threat <= 1.0
    ensures r.features == Features(f, bmi)
    ensures r.verdict.Some? <==> 0.0 <= r.threat <= 1.0
    ensures WithinMaxima(f, bmi) ==> r.verdict.Some?
    ensures r.verdict.Some? ==> (r.verdict.value <==> classify(r.features) == 1)
  {
    var values := BarValues(f, bmi);
    var x := Features(f, bmi);
    assert WithinMaxima(f, bmi) ==> 0.0 <= ThreatIndex(values) <= 1.0 by {
      if WithinMaxima(f, bmi) {
        ThreatIndexInUnitInterval(f, bmi);
      }
    }
    var rLive := ThreatIndex(values);
    Report(values, BarLabels(), Colors(values), rLive, x,
           if ProgressAccepts(rLive) then Some(classify(x) == 1) else None)
  }

  /** Twice every maximum: the progress bar rejects the index of 2 and no verdict is reached. */
  lemma OutOfRangeStopsBeforeClassifier(classify: seq<real> -> int)
    ensures ScanReport(Form(160, 34, 400.0, 244.0, 198.0, 1690.0, 4.84, 0.0, 0.0), 120.0, classify).verdict == None
  {
    ThreatIndexNotClamped();
  }

  /**
   * One run of the page: the text fields are parsed, the pressed button (at
   * most one) takes effect, then the interlock decides whether a scan can
   * happen. A zero height makes "Compute BMI" fail (`ok` is false) and leaves
   * the slot as it was; otherwise the slot only changes on "Compute BMI", and
   * a scan is shown exactly when it was pressed and a BMI is held. A threat
   * index outside [0, 1] stops the scan at the progress bar, with no verdict.
   */
  method Rerun(session: Session, action: Action, raw: RawForm, classify: seq<real> -> int)
    returns (ok: bool, report: Option<Report>)
    modifies session
    ensures ok <==> !(action == PressComputeBmi && ParseForm(raw).height == 0.0)
    ensures action == PressComputeBmi && ok ==>
      session.bmiCalcValue == Some(Bmi(ParseForm(raw).weight, ParseForm(raw).height))
    ensures !(action == PressComputeBmi && ok) ==> session.bmiCalcValue == old(session.bmiCalcValue)
    ensures report.Some? <==> action == PressScan && session.ScanReady()
    ensures report.Some? ==> report.value == ScanReport(ParseForm(raw), session.bmiCalcValue.value, classify)
  {
    var f := ParseForm(raw);
    ok := true;
    if action == PressComputeBmi {
      ok := session.ComputeBmi(f.weight, f.height);
    }
    var bmi := session.bmiCalcValue;
    var scanReady := bmi.Some?;
    if ok && action == PressScan && scanReady {
      var values := BarValues(f, bmi.value);
      var colors := Colors(values);
      var rLive := ThreatIndex(values);
      var verdict := None;
      var x := Features(f, bmi.value);
      if ProgressAccepts(rLive) {
        verdict := Some(classify(x) == 1);
      }
      report := Some(Report(values, BarLabels(), colors, rLive, x, verdict));
    } else {
      report := None;
    }
  }
}
