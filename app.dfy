/**
 * The first page (random-forest model): its BMI interlock, the four-bar
 * biomarker breakdown, the risk heuristic as threat index, and the
 * seven-slot vector handed to the classifier.
 */
module App {
  import opened Wrappers
  import opened Normalize
  import opened SessionState
  import Risk

  /** The page's inputs, as its number inputs and select boxes hand them over. */
  datatype Form = Form(
    weight: real, height: real,
    gender: string, age: real, hypertension: int, heartDisease: int,
    hba1c: real, glucose: real)

  /** The ranges the page's widgets enforce on every field. */
  predicate WithinWidgets(f: Form)
    ensures WithinWidgets(f) ==> f.weight > 0.0 && f.height > 0.0
    ensures WithinWidgets(f) ==> 12.5 <= Percent(f.age, 80.0) <= 100.0
  {
    && 1.0 <= f.weight <= 300.0 && 30.0 <= f.height <= 250.0
    && 10.0 <= f.age <= 80.0 && 4.0 <= f.hba1c <= 9.0 && 70.0 <= f.glucose <= 300.0
    && (f.hypertension == 0 || f.hypertension == 1)
    && (f.heartDisease == 0 || f.heartDisease == 1)
  }

  /** The heuristic's reading: the form's biomarkers and the session's BMI. */
  function ReadingOf(f: Form, bmi: real): Risk.Reading
  {
    Risk.Reading(f.age, f.glucose, f.hba1c, bmi)
  }

  // ---------------------------------------------------------------------
  // Classifier input

  /** Gender is encoded 1 for "Male" and 0 for anything else. */
  function GenderCode(gender: string): (c: int)
    ensures c == 0 || c == 1
    ensures c == 1 <==> gender == "Male"
  {
    if gender == "Male" then 1 else 0
  }

  /** The positions of the classifier's input vector. */
  datatype Slot = GenderSlot | AgeSlot | HypertensionSlot | HeartDiseaseSlot | BmiSlot | HbA1cSlot | GlucoseSlot

  /** The vector's slots, in the order the model was trained on. */
  const FeatureOrder: seq<Slot> :=
    [GenderSlot, AgeSlot, HypertensionSlot, HeartDiseaseSlot, BmiSlot, HbA1cSlot, GlucoseSlot]

  /** What each slot holds. */
  function SlotValue(f: Form, bmi: real, s: Slot): real
  {
    match s
    case GenderSlot => GenderCode(f.gender) as real
    case AgeSlot => f.age
    case HypertensionSlot => f.hypertension as real
    case HeartDiseaseSlot => f.heartDisease as real
    case BmiSlot => bmi
    case HbA1cSlot => f.hba1c
    case GlucoseSlot => f.glucose
  }

  /** Every slot has exactly one position in the vector. */
  lemma FeatureOrderIsAPermutation()
    ensures forall s: Slot :: s in FeatureOrder
    ensures forall i, j :: 0 <= i < j < |FeatureOrder| ==> FeatureOrder[i] != FeatureOrder[j]
  {
    forall s: Slot ensures s in FeatureOrder {
      match s
      case GenderSlot => assert FeatureOrder[0] == s;
      case AgeSlot => assert FeatureOrder[1] == s;
      case HypertensionSlot => assert FeatureOrder[2] == s;
      case HeartDiseaseSlot => assert FeatureOrder[3] == s;
      case BmiSlot => assert FeatureOrder[4] == s;
      case HbA1cSlot => assert FeatureOrder[5] == s;
      case GlucoseSlot => assert FeatureOrder[6] == s;
    }
  }

  /** The classifier's input, in the order the model was trained on. */
  function Features(f: Form, bmi: real): (v: seq<real>)
    ensures |v| == |FeatureOrder|
    ensures forall i :: 0 <= i < |v| ==> v[i] == SlotValue(f, bmi, FeatureOrder[i])
  {
    [GenderCode(f.gender) as real, f.age, f.hypertension as real, f.heartDisease as real, bmi, f.hba1c, f.glucose]
  }

  // ---------------------------------------------------------------------
  // Biomarker breakdown

  /** The bars, left to right. */
  const BarOrder: seq<Risk.Marker> := [Risk.Age, Risk.Bmi, Risk.Glucose, Risk.HbA1c]

  /** Each bar's declared maximum. */
  function BarMax(m: Risk.Marker): (max: real)
    ensures max > 0.0
  {
    match m
    case Age => 80.0
    case Bmi => 40.0
    case Glucose => 300.0
    case HbA1c => 9.0
  }

  function MarkerLabel(m: Risk.Marker): string
  {
    match m
    case Age => "Age"
    case Bmi => "BMI"
    case Glucose => "Glucose"
    case HbA1c => "HbA1c"
  }

  /** The bar heights: each marker as a percentage of its maximum, in bar order. */
  function BarValues(x: Risk.Reading): (p: seq<real>)
    ensures |p| == |BarOrder|
    ensures forall i :: 0 <= i < |p| ==> p[i] == Percent(Risk.Level(x, BarOrder[i]), BarMax(BarOrder[i]))
  {
    [x.age / 80.0 * 100.0, x.bmi / 40.0 * 100.0, x.glucose / 300.0 * 100.0, x.hba1c / 9.0 * 100.0]
  }

  /** The bar labels, aligned with the bar heights. */
  function BarLabels(): (l: seq<string>)
    ensures |l| == |BarOrder|
    ensures forall i :: 0 <= i < |l| ==> l[i] == MarkerLabel(BarOrder[i])
  {
    ["Age", "BMI", "Glucose", "HbA1c"]
  }

  /** Age 40 is half of its maximum of 80; age 90 would be 112.5, since nothing is clamped. */
  lemma BarExamples(x: Risk.Reading)
    ensures x.age == 40.0 ==> BarValues(x)[0] == 50.0
    ensures x.age == 90.0 ==> BarValues(x)[0] == 112.5
    ensures x.bmi == 40.0 ==> BarValues(x)[1] == 100.0
  {
  }

  // ---------------------------------------------------------------------
  // The scan

  /** What one scan shows: bars and labels, the threat index, the classifier's input and verdict. */
  datatype Report = Report(bars: seq<real>, labels: seq<string>, threat: real, features: seq<real>, highRisk: bool)

  /** The scan's result for a form and a computed BMI; `classify` stands for the scaler and the model. */
  function ScanReport(f: Form, bmi: real, classify: seq<real> -> int): (r: Report)
    ensures r.bars == BarValues(ReadingOf(f, bmi)) && r.labels == BarLabels()
    ensures |r.bars| == |r.labels| == 4
    ensures 0.0 <= r.threat <= 1.0
    ensures r.threat == Risk.RiskOf(ReadingOf(f, bmi))
    ensures r.features == Features(f, bmi)
    ensures r.highRisk <==> classify(r.features) == 1
  {
    var x := Features(f, bmi);
    Report(BarValues(ReadingOf(f, bmi)), BarLabels(), Risk.RiskOf(ReadingOf(f, bmi)), x, classify(x) == 1)
  }

  /**
   * One run of the page: the pressed button (at most one) takes effect, then
   * the interlock decides whether a scan can happen. The session slot only
   * changes on "Compute BMI"; a scan is shown exactly when it was pressed
   * and a BMI is held.
   */
  method Rerun(session: Session, action: Action, f: Form, classify: seq<real> -> int)
    returns (report: Option<Report>)
    requires WithinWidgets(f)
    modifies session
    ensures action == PressComputeBmi ==> session.bmiCalcValue == Some(Bmi(f.weight, f.height))
    ensures action != PressComputeBmi ==> session.bmiCalcValue == old(session.bmiCalcValue)
    ensures report.Some? <==> action == PressScan && session.ScanReady()
    ensures report.Some? ==> report.value == ScanReport(f, session.bmiCalcValue.value, classify)
  {
    if action == PressComputeBmi {
      var ok := session.ComputeBmi(f.weight, f.height);
    }
    var bmi := session.bmiCalcValue;
    var scanReady := false;
    if bmi.Some? {
      scanReady := true;
    }
    if action == PressScan && scanReady {
      var values := BarValues(ReadingOf(f, bmi.value));
      var labels := BarLabels();
      var rLive := Risk.RiskLikelihood(f.age, f.glucose, f.hba1c, bmi.value);
      var x := Features(f, bmi.value);
      report := Some(Report(values, labels, rLive, x, classify(x) == 1));
    } else {
      report := None;
    }
  }
}
