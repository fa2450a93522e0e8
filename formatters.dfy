/** The comparison-only classification helpers and the text helper of the
    dashboard: PM2.5 to AQI band, confidence bucket, risk-level colour and
    truncation. */
module Formatters {
  import opened Wrappers
  import opened Constants

  // ---------------------------------------------------------------------
  // A step function over a list of thresholds: the reference definition
  // that every if/elif threshold chain below is proved equal to.

  predicate Passes(x: real, t: real, inclusive: bool) {
    if inclusive then x >= t else x > t
  }

  /** How many of the thresholds `ts` the value `x` has passed (`x > t`, or
      `x >= t` when `inclusive`). For ascending thresholds it is the index of
      the band `x` falls in. */
  function StepsPassed(ts: seq<real>, x: real, inclusive: bool): (n: nat)
    ensures n <= |ts|
    ensures n == |ts| <==> forall i :: 0 <= i < |ts| ==> Passes(x, ts[i], inclusive)
    ensures n == 0 <==> forall i :: 0 <= i < |ts| ==> !Passes(x, ts[i], inclusive)
  {
    if ts == [] then 0
    else
      var rest := StepsPassed(ts[1..], x, inclusive);
      assert forall i :: 1 <= i < |ts| ==> ts[i] == ts[1..][i - 1];
      (if Passes(x, ts[0], inclusive) then 1 else 0) + rest
  }

  /** A larger value never passes fewer thresholds. */
  lemma {:induction false} StepsPassedMonotone(ts: seq<real>, a: real, b: real, inclusive: bool)
    requires a <= b
    ensures StepsPassed(ts, a, inclusive) <= StepsPassed(ts, b, inclusive)
  {
    if ts != [] {
      StepsPassedMonotone(ts[1..], a, b, inclusive);
    }
  }

  // ---------------------------------------------------------------------
  // AQI category of a PM2.5 reading.

  const AqiThresholds: seq<real> :=
    [Pm25Good, Pm25Moderate, Pm25UnhealthySensitive, Pm25Unhealthy, Pm25VeryUnhealthy]

  /** The six (category, colour) bands, from best to worst. */
  const AqiBands: seq<(string, string)> := [
    ("Good", ColorSuccess),
    ("Moderate", ColorInfo),
    ("Unhealthy for Sensitive", ColorWarning),
    ("Unhealthy", ColorDanger),
    ("Very Unhealthy", ColorDanger),
    ("Hazardous", ColorDanger)
  ]

  function AqiCategory(pm25: real): (r: (string, string))
    ensures r in AqiBands
    ensures pm25 <= Pm25Good <==> r.0 == "Good"
    ensures pm25 > Pm25VeryUnhealthy <==> r.0 == "Hazardous"
    ensures pm25 > Pm25UnhealthySensitive <==> r.1 == ColorDanger
  {
    if pm25 <= Pm25Good then ("Good", ColorSuccess)
    else if pm25 <= Pm25Moderate then ("Moderate", ColorInfo)
    else if pm25 <= Pm25UnhealthySensitive then ("Unhealthy for Sensitive", ColorWarning)
    else if pm25 <= Pm25Unhealthy then ("Unhealthy", ColorDanger)
    else if pm25 <= Pm25VeryUnhealthy then ("Very Unhealthy", ColorDanger)
    else ("Hazardous", ColorDanger)
  }

  /** Index of the AQI band of a reading: 0 is "Good", 5 is "Hazardous". */
  function AqiBandIndex(pm25: real): (k: nat)
    ensures k < |AqiBands|
  {
    StepsPassed(AqiThresholds, pm25, false)
  }

  /** The threshold chain is the step function over the five inclusive upper
      bounds: a reading falls in exactly one band, the one whose bounds hold it. */
  lemma AqiCategoryIsBand(pm25: real)
    ensures AqiCategory(pm25) == AqiBands[AqiBandIndex(pm25)]
    ensures AqiBandIndex(pm25) == 0 || pm25 > AqiThresholds[AqiBandIndex(pm25) - 1]
    ensures AqiBandIndex(pm25) == 5 || pm25 <= AqiThresholds[AqiBandIndex(pm25)]
  {
    var t0 := AqiThresholds;
    var t1 := t0[1..];
    var t2 := t1[1..];
    var t3 := t2[1..];
    var t4 := t3[1..];
    assert t1 == [35.5, 55.5, 150.5, 250.5];
    assert t2 == [55.5, 150.5, 250.5];
    assert t3 == [150.5, 250.5];
    assert t4 == [250.5];
    var n := AqiBandIndex(pm25);
    assert n == (if pm25 > 12.0 then 1 else 0) + StepsPassed(t1, pm25, false);
    assert StepsPassed(t1, pm25, false) == (if pm25 > 35.5 then 1 else 0) + StepsPassed(t2, pm25, false);
    assert StepsPassed(t2, pm25, false) == (if pm25 > 55.5 then 1 else 0) + StepsPassed(t3, pm25, false);
    assert StepsPassed(t3, pm25, false) == (if pm25 > 150.5 then 1 else 0) + StepsPassed(t4, pm25, false);
    assert StepsPassed(t4, pm25, false) == (if pm25 > 250.5 then 1 else 0);
  }

  /** A higher reading is never in a better band. */
  lemma AqiCategoryMonotone(a: real, b: real)
    requires a <= b
    ensures AqiCategory(a) == AqiBands[AqiBandIndex(a)]
    ensures AqiCategory(b) == AqiBands[AqiBandIndex(b)]
    ensures AqiBandIndex(a) <= AqiBandIndex(b)
  {
    AqiCategoryIsBand(a);
    AqiCategoryIsBand(b);
    StepsPassedMonotone(AqiThresholds, a, b, false);
  }

  /** Each upper bound belongs to its own band. */
  lemma AqiBoundsInclusive()
    ensures AqiCategory(12.0).0 == "Good"
    ensures AqiCategory(35.5).0 == "Moderate"
    ensures AqiCategory(55.5).0 == "Unhealthy for Sensitive"
    ensures AqiCategory(150.5).0 == "Unhealthy"
    ensures AqiCategory(250.5).0 == "Very Unhealthy"
  {
  }

  // ---------------------------------------------------------------------
  // Risk colour.

  /** Why the shipped risk-colour lookup fails: its default names a variable
      that is not bound where it is evaluated. */
  datatype NameError = NameError(name: string)

  /** The risk-colour lookup as written: the default colour of the lookup is
      evaluated before the lookup itself, and the name it refers to is neither
      imported by the function nor a global of its module, so every call
      raises NameError. */
  function GetRiskColorAsWritten(riskLevel: string): (r: Result<string, NameError>)
    ensures r.Err? && r.error.name == "COLOR_INFO"
  {
    var _ := Upper(riskLevel);
    Err(NameError("COLOR_INFO"))
  }

  /** The intended lookup: LOW, MEDIUM and HIGH in any letter case map to the
      success, warning and danger colours; anything else to the info colour. */
  function RiskColor(riskLevel: string): (color: string)
    ensures color == ColorSuccess <==> EqualsIgnoringCase(riskLevel, RiskLow)
    ensures color == ColorWarning <==> EqualsIgnoringCase(riskLevel, RiskMedium)
    ensures color == ColorDanger <==> EqualsIgnoringCase(riskLevel, RiskHigh)
    ensures color == ColorInfo <==>
      !EqualsIgnoringCase(riskLevel, RiskLow) && !EqualsIgnoringCase(riskLevel, RiskMedium)
      && !EqualsIgnoringCase(riskLevel, RiskHigh)
  {
    var key := Upper(riskLevel);
    UpperEqualsUpperCaseWord(riskLevel, RiskLow);
    UpperEqualsUpperCaseWord(riskLevel, RiskMedium);
    UpperEqualsUpperCaseWord(riskLevel, RiskHigh);
    if key == RiskLow then ColorSuccess
    else if key == RiskMedium then ColorWarning
    else if key == RiskHigh then ColorDanger
    else ColorInfo
  }

  // ---------------------------------------------------------------------
  // Letter case (ASCII letters only).

  /** Raises a lower-case ASCII letter to its capital; leaves every other character alone. */
  function UpperChar(c: char): (u: char)
    ensures 'a' <= c <= 'z' ==> 'A' <= u <= 'Z' && u as int - 'A' as int == c as int - 'a' as int
    ensures u == c <==> !('a' <= c <= 'z')
    ensures !('a' <= u <= 'z')
  {
    if 'a' <= c <= 'z' then (c as int - 32) as char else c
  }

  /** `str.upper()` on ASCII letters: the same length, each letter raised. */
  function Upper(s: string): (r: string)
    ensures |r| == |s|
    ensures forall i :: 0 <= i < |s| ==> r[i] == UpperChar(s[i])
  {
    if s == [] then [] else [UpperChar(s[0])] + Upper(s[1..])
  }

  predicate EqualsIgnoringCase(a: string, b: string) {
    |a| == |b| && forall i :: 0 <= i < |a| ==> UpperChar(a[i]) == UpperChar(b[i])
  }

  predicate IsUpperCase(w: string) {
    forall i :: 0 <= i < |w| ==> !('a' <= w[i] <= 'z')
  }

  /** Raising `s` gives an upper-case word exactly when `s` is that word up to case. */
  lemma UpperEqualsUpperCaseWord(s: string, w: string)
    requires IsUpperCase(w)
    ensures Upper(s) == w <==> EqualsIgnoringCase(s, w)
  {
    if EqualsIgnoringCase(s, w) {
      assert forall i :: 0 <= i < |s| ==> Upper(s)[i] == w[i];
    }
  }

  // ---------------------------------------------------------------------
  // Confidence bucket.

  const ConfidenceThresholds: seq<real> := [0.5, 0.8]
  const ConfidenceLabels: seq<string> := ["[Low]", "[Medium]", "[High]"]

  function ConfidenceEmoji(confidence: real): (bucket: string)
    ensures bucket == "[High]" <==> confidence >= 0.8
    ensures bucket == "[Medium]" <==> 0.5 <= confidence < 0.8
    ensures bucket == "[Low]" <==> confidence < 0.5
  {
    if confidence >= 0.8 then "[High]"
    else if confidence >= 0.5 then "[Medium]"
    else "[Low]"
  }

  /** The bucket is the step function over the two inclusive lower bounds, so
      a higher confidence never gets a lower bucket. */
  lemma ConfidenceEmojiMonotone(a: real, b: real)
    requires a <= b
    ensures ConfidenceEmoji(a) == ConfidenceLabels[StepsPassed(ConfidenceThresholds, a, true)]
    ensures ConfidenceEmoji(b) == ConfidenceLabels[StepsPassed(ConfidenceThresholds, b, true)]
    ensures StepsPassed(ConfidenceThresholds, a, true) <= StepsPassed(ConfidenceThresholds, b, true)
  {
    StepsPassedMonotone(ConfidenceThresholds, a, b, true);
  }

  // ---------------------------------------------------------------------
  // Truncation.

  const DefaultMaxLength: int := 100

  /** Python's `s[:m]`: a prefix of `s`, of length `m` clipped to `s` when
      `m` is non-negative, and `|s| + m` clipped at zero when it is negative. */
  function SliceTo(s: string, m: int): (r: string)
    ensures |r| <= |s| && r == s[..|r|]
    ensures m >= 0 ==> |r| == if m <= |s| then m else |s|
    ensures m < 0 ==> |r| == if |s| + m >= 0 then |s| + m else 0
  {
    if m >= 0 then (if m <= |s| then s[..m] else s)
    else if |s| + m >= 0 then s[..|s| + m]
    else ""
  }

  function TruncateText(text: string, maxLength: int := DefaultMaxLength): (r: string)
    ensures |text| <= maxLength ==> r == text
    ensures |text| > maxLength >= 0 ==> r == text[..maxLength] + "..." && |r| == maxLength + 3
    ensures |text| > maxLength ==> |r| >= 3 && r[|r| - 3..] == "..."
  {
    if |text| <= maxLength then text
    else SliceTo(text, maxLength) + "..."
  }

  /** For a non-negative bound, truncating a truncated text changes nothing. */
  lemma TruncateIdempotent(text: string, maxLength: int)
    requires maxLength >= 0
    ensures TruncateText(TruncateText(text, maxLength), maxLength) == TruncateText(text, maxLength)
  {
  }

  /** The result never exceeds the bound plus the three-dot marker, and what
      precedes the marker is a prefix of the text. */
  lemma TruncateBounded(text: string, maxLength: int)
    requires maxLength >= 0
    ensures |TruncateText(text, maxLength)| <= maxLength + 3
    ensures var r := TruncateText(text, maxLength);
      r == text || (|r| == maxLength + 3 && r[..maxLength] == text[..maxLength])
  {
  }

  /** Without a bound argument, texts of up to 100 characters are kept. */
  lemma TruncateDefaultBound(text: string)
    ensures |text| <= 100 ==> TruncateText(text) == text
    ensures |text| > 100 ==> TruncateText(text) == text[..100] + "..."
  {
  }

  /** A negative bound always truncates, keeping all but the last -maxLength
      characters. */
  lemma TruncateNegativeBound(text: string, maxLength: int)
    requires maxLength < 0
    ensures TruncateText(text, maxLength)
      == (if |text| + maxLength >= 0 then text[..|text| + maxLength] else "") + "..."
  {
  }
}
