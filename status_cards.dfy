/** The decisions the dashboard's status cards make, without their HTML
    rendering: the risk level of a prediction, the card colours, the label
    lookups and the texts chosen from booleans. */
module StatusCards {
  import opened Wrappers
  import opened Constants
  import opened Formatters

  // ---------------------------------------------------------------------
  // Prediction card

  const RiskThresholds: seq<real> := [0.4, 0.7]
  const RiskLevels: seq<string> := [RiskLow, RiskMedium, RiskHigh]

  /** A peak forecast with confidence above 0.7 is HIGH risk, above 0.4 is
      MEDIUM; everything else, and every non-peak forecast, is LOW. */
  function RiskLevel(willPeak: bool, confidence: real): (risk: string)
    ensures risk == RiskHigh <==> willPeak && confidence > 0.7
    ensures risk == RiskMedium <==> willPeak && 0.4 < confidence <= 0.7
    ensures risk == RiskLow <==> !willPeak || confidence <= 0.4
  {
    if willPeak && confidence > 0.7 then RiskHigh
    else if willPeak && confidence > 0.4 then RiskMedium
    else RiskLow
  }

  /** For a peak forecast the risk is the step function over the two strict
      thresholds, so more confidence never lowers it. */
  lemma RiskLevelMonotone(a: real, b: real)
    requires a <= b
    ensures RiskLevel(true, a) == RiskLevels[StepsPassed(RiskThresholds, a, false)]
    ensures RiskLevel(true, b) == RiskLevels[StepsPassed(RiskThresholds, b, false)]
    ensures StepsPassed(RiskThresholds, a, false) <= StepsPassed(RiskThresholds, b, false)
  {
    StepsPassedMonotone(RiskThresholds, a, b, false);
  }

  /** The thresholds are strict. */
  lemma RiskThresholdsStrict()
    ensures RiskLevel(true, 0.7) == RiskMedium
    ensures RiskLevel(true, 0.4) == RiskLow
  {
  }

  /** What the prediction card shows, apart from formatting. */
  datatype PredictionView = PredictionView(
    risk: string,
    color: string,
    statusText: string,
    willPeakText: string,
    estimatedPeak: Option<real>,  // the estimated-peak line, when shown
    reasoning: string)

  /** The estimated peak is shown only when it is truthy: absent and 0.0 both omit it. */
  function PeakLine(estimatedPeak: Option<real>): (line: Option<real>)
    ensures line.Some? <==> estimatedPeak.Some? && estimatedPeak.value != 0.0
    ensures line.Some? ==> line == estimatedPeak
  {
    if estimatedPeak.Some? && estimatedPeak.value != 0.0 then estimatedPeak else None
  }

  /** The prediction card as shipped: it takes its colour from the risk-colour
      lookup as written, which raises before anything is shown. */
  function PredictionCardAsWritten(willPeak: bool, confidence: real, reasoning: string, estimatedPeak: Option<real> := None): (r: Result<PredictionView, NameError>)
    ensures r.Err? && r.error.name == "COLOR_INFO"
  {
    var risk := RiskLevel(willPeak, confidence);
    match GetRiskColorAsWritten(risk)
    case Err(e) => Err(e)
    case Ok(color) =>
      Ok(PredictionView(risk, color, ConfidenceEmoji(confidence), if willPeak then "Yes" else "No",
        PeakLine(estimatedPeak), reasoning))
  }

  /** The prediction card with the intended risk colours: danger exactly for
      HIGH risk, warning exactly for MEDIUM, success exactly for LOW (so a
      non-peak forecast is always the success colour). It shows the risk
      level, the confidence bucket, "Yes" exactly for a peak forecast, the
      truthy estimated peak and the reasoning as given. */
  function PredictionCard(willPeak: bool, confidence: real, reasoning: string, estimatedPeak: Option<real> := None): (v: PredictionView)
    ensures v.risk == RiskLevel(willPeak, confidence)
    ensures v.color == ColorDanger <==> willPeak && confidence > 0.7
    ensures v.color == ColorWarning <==> willPeak && 0.4 < confidence <= 0.7
    ensures v.color == ColorSuccess <==> !willPeak || confidence <= 0.4
    ensures v.statusText == ConfidenceEmoji(confidence)
    ensures v.willPeakText == (if willPeak then "Yes" else "No")
    ensures v.estimatedPeak == PeakLine(estimatedPeak)
    ensures v.reasoning == reasoning
  {
    var risk := RiskLevel(willPeak, confidence);
    PredictionView(risk, RiskColor(risk), ConfidenceEmoji(confidence), if willPeak then "Yes" else "No",
      PeakLine(estimatedPeak), reasoning)
  }

  // ---------------------------------------------------------------------
  // Label lookups

  /** `table.get(key, key)`: the table's label, or the raw key when the table has none. */
  function LookupLabel(table: map<string, string>, key: string): (shown: string)
    ensures key in table ==> shown == table[key]
    ensures key !in table ==> shown == key
  {
    if key in table then table[key] else key
  }

  /** Every air and fault type the backend reports gets its display label. */
  lemma KnownLabels()
    ensures LookupLabel(AirTypes, "cigarette") == "Cigarette Smoke"
    ensures LookupLabel(AirTypes, "vehicle") == "Vehicle Exhaust"
    ensures LookupLabel(AirTypes, "cooking") == "Cooking Fumes"
    ensures LookupLabel(AirTypes, "chemical") == "Chemical Fumes"
    ensures LookupLabel(AirTypes, "clean") == "Clean Air"
    ensures LookupLabel(AirTypes, "unknown") == "Unknown"
    ensures LookupLabel(FaultTypes, "sensor_stuck") == "Sensor Stuck"
    ensures LookupLabel(FaultTypes, "inconsistent_reading") == "Inconsistent Reading"
    ensures LookupLabel(FaultTypes, "fan_not_working") == "Fan Not Working"
    ensures LookupLabel(FaultTypes, "out_of_range") == "Out of Range"
    ensures LookupLabel(FaultTypes, "no_fault") == "No Fault"
    ensures AirTypes.Keys == {"cigarette", "vehicle", "cooking", "chemical", "clean", "unknown"}
    ensures FaultTypes.Keys == {"sensor_stuck", "inconsistent_reading", "fan_not_working", "out_of_range", "no_fault"}
    ensures LookupLabel(AirTypes, "smog") == "smog"
  {
  }

  // ---------------------------------------------------------------------
  // Classification card

  datatype ClassificationView = ClassificationView(airLabel: string, statusText: string, color: string, reasoning: string)

  function ClassificationCard(airType: string, confidence: real, reasoning: string): (v: ClassificationView)
    ensures v.color == ColorSuccess <==> airType == "clean"
    ensures v.color == ColorInfo <==> airType != "clean"
    ensures v.airLabel == LookupLabel(AirTypes, airType)
    ensures v.statusText == ConfidenceEmoji(confidence)
    ensures v.reasoning == reasoning
  {
    ClassificationView(LookupLabel(AirTypes, airType), ConfidenceEmoji(confidence),
      if airType == "clean" then ColorSuccess else ColorInfo, reasoning)
  }

  // ---------------------------------------------------------------------
  // Fault card

  datatype FaultView =
    | HealthyCard(color: string)
    | FaultCardView(faultLabel: string, severityText: string, affectedSensor: Option<string>, details: string, color: string)

  /** Only "high" is the danger colour; "low", "medium" and unknown severities are the warning colour. */
  function SeverityColor(severity: string): (color: string)
    ensures color == ColorDanger <==> severity == "high"
    ensures color == ColorWarning <==> severity != "high"
  {
    var colors := map["low" := ColorWarning, "medium" := ColorWarning, "high" := ColorDanger];
    if severity in colors then colors[severity] else ColorWarning
  }

  function FaultCard(hasFault: bool, faultType: string, severity: string, details: string, affectedSensor: Option<string> := None): (v: FaultView)
    ensures !hasFault <==> v == HealthyCard(ColorSuccess)
    ensures hasFault ==>
      && v.FaultCardView?
      && v.color == SeverityColor(severity)
      && v.faultLabel == LookupLabel(FaultTypes, faultType)
      && v.severityText == Upper(severity)
      && (v.affectedSensor.Some? <==> affectedSensor.Some? && affectedSensor.value != "")
      && (v.affectedSensor.Some? ==> v.affectedSensor.value == Upper(affectedSensor.value))
      && v.details == details
  {
    if !hasFault then HealthyCard(ColorSuccess)
    else
      var sensorLine := if affectedSensor.Some? && affectedSensor.value != "" then Some(Upper(affectedSensor.value)) else None;
      FaultCardView(LookupLabel(FaultTypes, faultType), Upper(severity), sensorLine, details, SeverityColor(severity))
  }

  /** Without the optional arguments, no estimated-peak or affected-sensor
      line is shown and the fan mode is automatic. */
  lemma CardDefaults(willPeak: bool, confidence: real, reasoning: string, faultType: string, severity: string, details: string, fanOn: bool, fanIntensity: int)
    ensures PredictionCard(willPeak, confidence, reasoning).estimatedPeak == None
    ensures FaultCard(true, faultType, severity, details).affectedSensor == None
    ensures ControlCard(fanOn, fanIntensity).mode == "Automatic"
  {
  }

  /** Without a fault the card is the healthy one, whatever else is passed. */
  lemma HealthyCardIgnoresArguments(t1: string, s1: string, d1: string, a1: Option<string>, t2: string, s2: string, d2: string, a2: Option<string>)
    ensures FaultCard(false, t1, s1, d1, a1) == FaultCard(false, t2, s2, d2, a2)
  {
  }

  // ---------------------------------------------------------------------
  // Control card

  datatype ControlView = ControlView(color: string, statusText: string, intensity: int, mode: string)

  function ControlCard(fanOn: bool, fanIntensity: int, isOverride: bool := false): (v: ControlView)
    ensures v.color == ColorSuccess <==> fanOn
    ensures v.color == ColorInfo <==> !fanOn
    ensures v.statusText == "ON" <==> fanOn
    ensures v.statusText == "OFF" <==> !fanOn
    ensures v.mode == "Manual Override" <==> isOverride
    ensures v.mode == "Automatic" <==> !isOverride
    ensures v.intensity == fanIntensity
  {
    ControlView(if fanOn then ColorSuccess else ColorInfo, if fanOn then "ON" else "OFF", fanIntensity,
      if isOverride then "Manual Override" else "Automatic")
  }
}
