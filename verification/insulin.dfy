/**
 * Insulin dose arithmetic and the settings check (src/utils/insulinCalculations.ts). Numbers
 * are reals; `None` stands for NaN, for which every comparison is false. Infinities are not
 * modelled.
 */
module Insulin {
  import opened Wrappers

  /** A JavaScript number: a real, or NaN (`None`). */
  type Number = Option<real>

  predicate IsNaN(n: Number) { n.None? }

  /** `n <= k` and `n < k`, `n > k` as JavaScript evaluates them: false for NaN. */
  predicate AtMost(n: Number, k: real) { n.Some? && n.value <= k }
  predicate Below(n: Number, k: real) { n.Some? && n.value < k }
  predicate Above(n: Number, k: real) { n.Some? && n.value > k }

  /** Carb coverage: carbs divided by the insulin-to-carb ratio, 0 for a NaN input or a zero ratio. */
  function CarbDose(carbs: Number, icRatio: Number): (d: real)
    ensures IsNaN(carbs) || IsNaN(icRatio) || icRatio.value == 0.0 ==> d == 0.0
    ensures !IsNaN(carbs) && !IsNaN(icRatio) && icRatio.value != 0.0 ==> d * icRatio.value == carbs.value
    ensures !IsNaN(carbs) && carbs.value >= 0.0 && Above(icRatio, 0.0) ==> d >= 0.0
  {
    if IsNaN(carbs) || IsNaN(icRatio) || icRatio.value == 0.0 then 0.0 else carbs.value / icRatio.value
  }

  /**
   * Correction: the excess of current over target glucose divided by the correction factor;
   * 0 for a NaN input, a zero factor, or a glucose at or below target.
   */
  function CorrectionDose(currentGlucose: Number, targetGlucose: Number, correctionFactor: Number): (d: real)
    ensures IsNaN(currentGlucose) || IsNaN(targetGlucose) || IsNaN(correctionFactor) || correctionFactor.value == 0.0
      ==> d == 0.0
    ensures !IsNaN(currentGlucose) && !IsNaN(targetGlucose) && currentGlucose.value <= targetGlucose.value ==> d == 0.0
    ensures !IsNaN(currentGlucose) && !IsNaN(targetGlucose) && Above(correctionFactor, 0.0)
            && currentGlucose.value > targetGlucose.value
      ==> d > 0.0 && d * correctionFactor.value == currentGlucose.value - targetGlucose.value
    ensures !IsNaN(currentGlucose) && !IsNaN(targetGlucose) && !IsNaN(correctionFactor) && correctionFactor.value != 0.0
            && currentGlucose.value > targetGlucose.value
      ==> d * correctionFactor.value == currentGlucose.value - targetGlucose.value
  {
    if IsNaN(currentGlucose) || IsNaN(targetGlucose) || IsNaN(correctionFactor) || correctionFactor.value == 0.0 then 0.0
    else
      var difference := currentGlucose.value - targetGlucose.value;
      if difference <= 0.0 then 0.0 else difference / correctionFactor.value
  }

  datatype Settings = Settings(icRatio: Number, correctionFactor: Number, targetGlucose: Number)

  datatype DoseResult = DoseResult(carbDose: real, correctionDose: real, totalDose: real)

  /**
   * The total dose, or null when carbs or the ratio is NaN or the ratio is 0. `currentGlucose`
   * is `None` for null, in which case there is no correction.
   */
  function TotalInsulinDose(carbs: Number, currentGlucose: Option<Number>, settings: Settings): (r: Option<DoseResult>)
    ensures r.None? <==> IsNaN(carbs) || IsNaN(settings.icRatio) || settings.icRatio.value == 0.0
    ensures r.Some? ==> r.value.carbDose * settings.icRatio.value == carbs.value
    ensures r.Some? && currentGlucose.None? ==> r.value.correctionDose == 0.0
    ensures r.Some? && currentGlucose.Some? ==>
      r.value.correctionDose == CorrectionDose(currentGlucose.value, settings.targetGlucose, settings.correctionFactor)
    ensures r.Some? ==> r.value.totalDose == r.value.carbDose + r.value.correctionDose
  {
    if IsNaN(carbs) || IsNaN(settings.icRatio) || settings.icRatio.value == 0.0 then None
    else
      var carbDose := CarbDose(carbs, settings.icRatio);
      var correctionDose := if currentGlucose.Some?
        then CorrectionDose(currentGlucose.value, settings.targetGlucose, settings.correctionFactor)
        else 0.0;
      Some(DoseResult(carbDose, correctionDose, carbDose + correctionDose))
  }

  /**
   * The settings check: the first failing message among a ratio at most 0, a factor at most 0,
   * and a target outside [70, 180]; null when none fails. NaN fails no comparison.
   */
  function ValidateInsulinSettings(settings: Settings): (r: Option<string>)
    ensures AtMost(settings.icRatio, 0.0) ==> r == Some("I:C ratio must be greater than 0")
    ensures !AtMost(settings.icRatio, 0.0) && AtMost(settings.correctionFactor, 0.0)
      ==> r == Some("Correction factor must be greater than 0")
    ensures !AtMost(settings.icRatio, 0.0) && !AtMost(settings.correctionFactor, 0.0)
            && (Below(settings.targetGlucose, 70.0) || Above(settings.targetGlucose, 180.0))
      ==> r == Some("Target glucose should be between 70-180 mg/dL")
    ensures r.None? <==> !AtMost(settings.icRatio, 0.0) && !AtMost(settings.correctionFactor, 0.0)
                         && !Below(settings.targetGlucose, 70.0) && !Above(settings.targetGlucose, 180.0)
  {
    if AtMost(settings.icRatio, 0.0) then Some("I:C ratio must be greater than 0")
    else if AtMost(settings.correctionFactor, 0.0) then Some("Correction factor must be greater than 0")
    else if Below(settings.targetGlucose, 70.0) || Above(settings.targetGlucose, 180.0) then Some("Target glucose should be between 70-180 mg/dL")
    else None
  }

  /** Settings made only of NaN pass the check, and then no dose can be computed. */
  lemma NaNSettingsPass(carbs: Number, currentGlucose: Option<Number>)
    ensures ValidateInsulinSettings(Settings(None, None, None)).None?
    ensures TotalInsulinDose(carbs, currentGlucose, Settings(None, None, None)).None?
  {
  }

  /**
   * With settings that pass the check and contain no NaN, every non-NaN carb amount gets a dose;
   * for non-negative carbs each part is non-negative and the total is at least the carb dose.
   */
  lemma ValidSettingsGiveDose(carbs: real, currentGlucose: Option<Number>, settings: Settings)
    requires ValidateInsulinSettings(settings).None?
    requires !IsNaN(settings.icRatio) && !IsNaN(settings.correctionFactor) && !IsNaN(settings.targetGlucose)
    ensures TotalInsulinDose(Some(carbs), currentGlucose, settings).Some?
    ensures carbs >= 0.0 ==>
      var r := TotalInsulinDose(Some(carbs), currentGlucose, settings).value;
      r.carbDose >= 0.0 && r.correctionDose >= 0.0 && r.totalDose >= r.carbDose
    ensures 70.0 <= settings.targetGlucose.value <= 180.0
  {
    var r := TotalInsulinDose(Some(carbs), currentGlucose, settings).value;
    if currentGlucose.Some? {
      var c := currentGlucose.value;
      if !IsNaN(c) && c.value > settings.targetGlucose.value {
        assert r.correctionDose > 0.0;
      }
    }
  }

  /** More carbs never lower the carb dose under a positive ratio. */
  lemma CarbDoseMonotone(c1: real, c2: real, icRatio: real)
    requires c1 <= c2 && icRatio > 0.0
    ensures CarbDose(Some(c1), Some(icRatio)) <= CarbDose(Some(c2), Some(icRatio))
  {
    var d1 := CarbDose(Some(c1), Some(icRatio));
    var d2 := CarbDose(Some(c2), Some(icRatio));
    assert d2 - d1 == (c2 - c1) / icRatio;
    assert (c2 - c1) / icRatio >= 0.0;
  }
}
