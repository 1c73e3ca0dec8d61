/**
 * The one piece of state that survives between runs of either page: the
 * session slot `bmi_calc_value`, unset on a new session and filled by the
 * "Compute BMI" button. The scan button is enabled exactly when it is set.
 */
module SessionState {
  import opened Wrappers

  /** The button pressed in one run of a page (Streamlit reruns the page once per press). */
  datatype Action = NoPress | PressComputeBmi | PressScan

  /** Body mass index from kilograms and centimetres: `weight / (height / 100) ** 2`. */
  function Bmi(weight: real, height: real): (b: real)
    requires height != 0.0
    ensures b * ((height / 100.0) * (height / 100.0)) == weight
    ensures weight > 0.0 ==> b > 0.0
  {
    var m := height / 100.0;
    assert m * m > 0.0;
    weight / (m * m)
  }

  class Session {
    /** `st.session_state.bmi_calc_value`: `None` until a BMI has been computed. */
    var bmiCalcValue: Option<real>

    /** A new session: the slot is created unset, so the scan is locked. */
    constructor ()
      ensures bmiCalcValue == None
      ensures !ScanReady()
    {
      bmiCalcValue := None;
    }

    /** The validation interlock: scanning is allowed exactly when a BMI is held. */
    predicate ScanReady()
      reads this
      ensures ScanReady() <==> bmiCalcValue != None
    {
      bmiCalcValue.Some?
    }

    /**
     * The "Compute BMI" button. A zero height makes the division fail, the
     * run stops there (`ok` is false) and the slot keeps what it held.
     */
    method ComputeBmi(weight: real, height: real) returns (ok: bool)
      modifies this
      ensures ok <==> height != 0.0
      ensures ok ==> bmiCalcValue == Some(Bmi(weight, height))
      ensures !ok ==> bmiCalcValue == old(bmiCalcValue)
      ensures ok ==> ScanReady()
      ensures old(ScanReady()) ==> ScanReady()
    {
      if height == 0.0 {
        ok := false;
      } else {
        var bmiTemp := weight / ((height / 100.0) * (height / 100.0));
        bmiCalcValue := Some(bmiTemp);
        ok := true;
      }
    }
  }

  /** The defaults of the two BMI widgets, 70 kg and 170 cm, give 7000/289, about 24.22. */
  lemma DefaultBmi()
    ensures Bmi(70.0, 170.0) == 7000.0 / 289.0
  {
  }
}
