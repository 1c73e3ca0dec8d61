/**
 * The threshold-additive risk heuristic of the first page (`risk_likelihood`).
 * Each biomarker has two tiers; a reading earns a tier's points when it is
 * strictly above the tier's threshold, and the upper tier stacks on the lower
 * one. The raw score is divided by a fixed ceiling of 12 and clamped to 1,
 * although the table's points add up to 18.
 */
module Risk {

  /** The four biomarkers the heuristic reads. */
  datatype Marker = Age | Glucose | HbA1c | Bmi

  /** One evaluation's inputs: age in years, glucose in mg/dL, HbA1c in %, BMI. */
  datatype Reading = Reading(age: real, glucose: real, hba1c: real, bmi: real)

  function Level(x: Reading, m: Marker): real
  {
    match m
    case Age => x.age
    case Glucose => x.glucose
    case HbA1c => x.hba1c
    case Bmi => x.bmi
  }

  /** A reading strictly above `threshold` earns `points`. */
  datatype Tier = Tier(threshold: real, points: real)

  /** The point table, lower tier first. */
  function Tiers(m: Marker): (ts: seq<Tier>)
    ensures |ts| == 2
    ensures 0.0 < ts[0].threshold < ts[1].threshold
    ensures ts[0].points > 0.0 && ts[1].points > 0.0
  {
    match m
    case Age => [Tier(45.0, 1.5), Tier(60.0, 2.0)]
    case Glucose => [Tier(140.0, 2.5), Tier(200.0, 3.0)]
    case HbA1c => [Tier(5.7, 2.0), Tier(6.5, 3.0)]
    case Bmi => [Tier(27.0, 1.5), Tier(30.0, 2.5)]
  }

  /** The divisor of the raw score. */
  const Ceiling: real := 12.0

  /** Points a level earns on a list of tiers: the sum over the tiers it strictly exceeds. */
  function Earned(tiers: seq<Tier>, v: real): real
  {
    if tiers == [] then 0.0
    else (if v > tiers[0].threshold then tiers[0].points else 0.0) + Earned(tiers[1..], v)
  }

  /** All the points a list of tiers can award. */
  function Total(tiers: seq<Tier>): real
  {
    if tiers == [] then 0.0 else tiers[0].points + Total(tiers[1..])
  }

  predicate NonNegativePoints(tiers: seq<Tier>)
  {
    forall i :: 0 <= i < |tiers| ==> tiers[i].points >= 0.0
  }

  /** What one marker of a reading contributes to the raw score. */
  function MarkerPoints(x: Reading, m: Marker): real
  {
    Earned(Tiers(m), Level(x, m))
  }

  /** The raw score: the sum of the four markers' points. */
  function RawScore(x: Reading): (s: real)
    ensures 0.0 <= s <= 18.0
  {
    TableBounds(x);
    MarkerPoints(x, Age) + MarkerPoints(x, Glucose) + MarkerPoints(x, HbA1c) + MarkerPoints(x, Bmi)
  }

  /** The composite risk fraction `min(raw / 12, 1.0)`. */
  function RiskOf(x: Reading): (r: real)
    ensures 0.0 <= r <= 1.0
    ensures r == 1.0 <==> RawScore(x) >= Ceiling
    ensures r < 1.0 ==> r * Ceiling == RawScore(x)
    ensures r == 0.0 <==> RawScore(x) == 0.0
  {
    var s := RawScore(x);
    if s / Ceiling <= 1.0 then s / Ceiling else 1.0
  }

  /**
   * `risk_likelihood` as the page writes it: a running score updated by eight
   * conditional additions, then divided by 12 and clamped.
   */
  method RiskLikelihood(a: real, g: real, h: real, b: real) returns (r: real)
    ensures r == RiskOf(Reading(a, g, h, b))
  {
    var score := 0.0;
    score := score + (if a > 45.0 then 1.5 else 0.0);
    score := score + (if a > 60.0 then 2.0 else 0.0);
    score := score + (if g > 140.0 then 2.5 else 0.0);
    score := score + (if g > 200.0 then 3.0 else 0.0);
    score := score + (if h > 5.7 then 2.0 else 0.0);
    score := score + (if h > 6.5 then 3.0 else 0.0);
    score := score + (if b > 27.0 then 1.5 else 0.0);
    score := score + (if b > 30.0 then 2.5 else 0.0);
    PointsPerMarker(Reading(a, g, h, b));
    r := if score / 12.0 <= 1.0 then score / 12.0 else 1.0;
  }

  // ---------------------------------------------------------------------
  // Properties of tier lists in general

  /** A level earns between nothing and everything the tiers can award. */
  lemma {:induction false} EarnedBounds(tiers: seq<Tier>, v: real)
    requires NonNegativePoints(tiers)
    ensures 0.0 <= Earned(tiers, v) <= Total(tiers)
  {
    if tiers != [] {
      assert tiers[0].points >= 0.0;
      assert NonNegativePoints(tiers[1..]) by {
        forall i | 0 <= i < |tiers[1..]| ensures tiers[1..][i].points >= 0.0 {
          assert tiers[1..][i] == tiers[i + 1];
        }
      }
      EarnedBounds(tiers[1..], v);
    }
  }

  /** A higher level never earns fewer points. */
  lemma {:induction false} EarnedMonotone(tiers: seq<Tier>, v: real, w: real)
    requires NonNegativePoints(tiers)
    requires v <= w
    ensures Earned(tiers, v) <= Earned(tiers, w)
  {
    if tiers != [] {
      assert tiers[0].points >= 0.0;
      assert NonNegativePoints(tiers[1..]) by {
        forall i | 0 <= i < |tiers[1..]| ensures tiers[1..][i].points >= 0.0 {
          assert tiers[1..][i] == tiers[i + 1];
        }
      }
      EarnedMonotone(tiers[1..], v, w);
    }
  }

  /** A level at or below every threshold earns nothing. */
  lemma {:induction false} EarnedNothingAtOrBelow(tiers: seq<Tier>, v: real)
    requires forall i :: 0 <= i < |tiers| ==> v <= tiers[i].threshold
    ensures Earned(tiers, v) == 0.0
  {
    if tiers != [] {
      assert v <= tiers[0].threshold;
      EarnedNothingAtOrBelow(tiers[1..], v);
    }
  }

  /** A level strictly above every threshold earns every tier's points: the tiers stack. */
  lemma {:induction false} EarnedAllAbove(tiers: seq<Tier>, v: real)
    requires forall i :: 0 <= i < |tiers| ==> v > tiers[i].threshold
    ensures Earned(tiers, v) == Total(tiers)
  {
    if tiers != [] {
      assert v > tiers[0].threshold;
      EarnedAllAbove(tiers[1..], v);
    }
  }

  /** On two tiers, each tier is checked on its own and the points add up. */
  lemma EarnedTwoTiers(lower: Tier, upper: Tier, v: real)
    ensures Earned([lower, upper], v)
         == (if v > lower.threshold then lower.points else 0.0) + (if v > upper.threshold then upper.points else 0.0)
  {
    assert [lower, upper][1..] == [upper];
    assert [upper][1..] == [];
    assert Earned([upper], v) == (if v > upper.threshold then upper.points else 0.0) + Earned([], v);
  }

  // ---------------------------------------------------------------------
  // Properties of the point table

  /** Each marker's two tiers, written out: the upper tier's points come on top of the lower's. */
  lemma PointsPerMarker(x: Reading)
    ensures MarkerPoints(x, Age) == (if x.age > 45.0 then 1.5 else 0.0) + (if x.age > 60.0 then 2.0 else 0.0)
    ensures MarkerPoints(x, Glucose) == (if x.glucose > 140.0 then 2.5 else 0.0) + (if x.glucose > 200.0 then 3.0 else 0.0)
    ensures MarkerPoints(x, HbA1c) == (if x.hba1c > 5.7 then 2.0 else 0.0) + (if x.hba1c > 6.5 then 3.0 else 0.0)
    ensures MarkerPoints(x, Bmi) == (if x.bmi > 27.0 then 1.5 else 0.0) + (if x.bmi > 30.0 then 2.5 else 0.0)
  {
    EarnedTwoTiers(Tier(45.0, 1.5), Tier(60.0, 2.0), x.age);
    EarnedTwoTiers(Tier(140.0, 2.5), Tier(200.0, 3.0), x.glucose);
    EarnedTwoTiers(Tier(5.7, 2.0), Tier(6.5, 3.0), x.hba1c);
    EarnedTwoTiers(Tier(27.0, 1.5), Tier(30.0, 2.5), x.bmi);
  }

  /** Every marker earns between 0 and its table total. */
  lemma TableBounds(x: Reading)
    ensures 0.0 <= MarkerPoints(x, Age) <= 3.5
    ensures 0.0 <= MarkerPoints(x, Glucose) <= 5.5
    ensures 0.0 <= MarkerPoints(x, HbA1c) <= 5.0
    ensures 0.0 <= MarkerPoints(x, Bmi) <= 4.0
  {
    TableTotals();
    forall m: Marker ensures 0.0 <= MarkerPoints(x, m) <= Total(Tiers(m)) {
      TablePointsPositive(m);
      EarnedBounds(Tiers(m), Level(x, m));
    }
  }

  /** Every tier of the table awards a positive number of points. */
  lemma TablePointsPositive(m: Marker)
    ensures NonNegativePoints(Tiers(m))
    ensures forall i :: 0 <= i < |Tiers(m)| ==> Tiers(m)[i].points > 0.0
  {
  }

  /** The four markers' table totals, and their sum 18, which exceeds the ceiling of 12. */
  lemma TableTotals()
    ensures Total(Tiers(Age)) == 3.5 && Total(Tiers(Glucose)) == 5.5
    ensures Total(Tiers(HbA1c)) == 5.0 && Total(Tiers(Bmi)) == 4.0
    ensures Total(Tiers(Age)) + Total(Tiers(Glucose)) + Total(Tiers(HbA1c)) + Total(Tiers(Bmi)) == 18.0
  {
  }

  /**
   * All comparisons are strict: a marker earns points exactly when it is
   * strictly above its lower threshold (age 45, glucose 140, HbA1c 5.7, BMI 27).
   */
  lemma ThresholdsAreStrict(x: Reading)
    ensures MarkerPoints(x, Age) > 0.0 <==> x.age > 45.0
    ensures MarkerPoints(x, Glucose) > 0.0 <==> x.glucose > 140.0
    ensures MarkerPoints(x, HbA1c) > 0.0 <==> x.hba1c > 5.7
    ensures MarkerPoints(x, Bmi) > 0.0 <==> x.bmi > 27.0
  {
    PointsPerMarker(x);
  }

  /** Above the upper threshold a marker earns both tiers: 3.5, 5.5, 5 and 4 points. */
  lemma UpperTiersStack(x: Reading)
    ensures x.age > 60.0 ==> MarkerPoints(x, Age) == 3.5
    ensures x.glucose > 200.0 ==> MarkerPoints(x, Glucose) == 5.5
    ensures x.hba1c > 6.5 ==> MarkerPoints(x, HbA1c) == 5.0
    ensures x.bmi > 30.0 ==> MarkerPoints(x, Bmi) == 4.0
  {
    TableTotals();
    forall m: Marker | Level(x, m) > Tiers(m)[1].threshold
      ensures MarkerPoints(x, m) == Total(Tiers(m))
    {
      EarnedAllAbove(Tiers(m), Level(x, m));
    }
  }

  /** The risk is 0 exactly when no marker is above its lower threshold. */
  lemma NoCrossingIsZero(x: Reading)
    ensures RiskOf(x) == 0.0 <==> x.age <= 45.0 && x.glucose <= 140.0 && x.hba1c <= 5.7 && x.bmi <= 27.0
  {
    if x.age <= 45.0 && x.glucose <= 140.0 && x.hba1c <= 5.7 && x.bmi <= 27.0 {
      forall m: Marker ensures MarkerPoints(x, m) == 0.0 {
        EarnedNothingAtOrBelow(Tiers(m), Level(x, m));
      }
    }
    ThresholdsAreStrict(x);
    TableBounds(x);
  }

  /** Age strictly between 45 and 60 with every other marker low gives 1.5 / 12. */
  lemma SingleAgeCrossing(x: Reading)
    requires 45.0 < x.age <= 60.0
    requires x.glucose <= 140.0 && x.hba1c <= 5.7 && x.bmi <= 27.0
    ensures RiskOf(x) == 1.5 / 12.0
  {
    PointsPerMarker(x);
  }

  /** The boundary values themselves award nothing; a value just above does. */
  lemma BoundaryExactness()
    ensures RiskOf(Reading(45.0, 140.0, 5.7, 27.0)) == 0.0
    ensures RiskOf(Reading(45.0001, 0.0, 0.0, 0.0)) == 1.5 / 12.0
    ensures RiskOf(Reading(46.0, 0.0, 0.0, 0.0)) == 1.5 / 12.0
  {
  }

  /** Raising any marker, with the others fixed or raised too, never lowers the risk. */
  lemma RiskMonotone(x: Reading, y: Reading)
    requires x.age <= y.age && x.glucose <= y.glucose && x.hba1c <= y.hba1c && x.bmi <= y.bmi
    ensures RawScore(x) <= RawScore(y)
    ensures RiskOf(x) <= RiskOf(y)
  {
    forall m: Marker ensures MarkerPoints(x, m) <= MarkerPoints(y, m) {
      TablePointsPositive(m);
      EarnedMonotone(Tiers(m), Level(x, m), Level(y, m));
    }
  }

  /** With every upper tier crossed the raw score is its maximum 18 and the risk is 1. */
  lemma AllTopsSaturate(x: Reading)
    requires x.age > 60.0 && x.glucose > 200.0 && x.hba1c > 6.5 && x.bmi > 30.0
    ensures RawScore(x) == 18.0
    ensures RiskOf(x) == 1.0
  {
    UpperTiersStack(x);
  }

  /** The risk saturates well before the maximum: three upper tiers alone give raw 14 and risk 1. */
  lemma SaturatesBeforeMaximum()
    ensures RawScore(Reading(61.0, 201.0, 6.6, 0.0)) == 14.0
    ensures RiskOf(Reading(61.0, 201.0, 6.6, 0.0)) == 1.0
  {
  }
}
