/** Thresholds, colours and lookup tables of the dashboard (data only). */
module Constants {

  const ApiVersion: string := "v1"

  // PM2.5 band upper bounds, in micrograms per cubic metre; each bound is inclusive.
  const Pm25Good: real := 12.0
  const Pm25Moderate: real := 35.5
  const Pm25UnhealthySensitive: real := 55.5
  const Pm25Unhealthy: real := 150.5
  const Pm25VeryUnhealthy: real := 250.5

  // CO2 levels, in ppm.
  const Co2Good: int := 800
  const Co2Moderate: int := 1000
  const Co2Unhealthy: int := 1500

  const ColorSuccess: string := "#00C853"
  const ColorWarning: string := "#FFB300"
  const ColorDanger: string := "#FF5252"
  const ColorInfo: string := "#00D9FF"
  const ColorBackground: string := "#0E1117"
  const ColorCard: string := "#1E1E1E"

  const RiskLow: string := "LOW"
  const RiskMedium: string := "MEDIUM"
  const RiskHigh: string := "HIGH"

  /** Display labels of the air types a classification may report. */
  const AirTypes: map<string, string> := map[
    "cigarette" := "Cigarette Smoke",
    "vehicle" := "Vehicle Exhaust",
    "cooking" := "Cooking Fumes",
    "chemical" := "Chemical Fumes",
    "clean" := "Clean Air",
    "unknown" := "Unknown"
  ]

  /** Display labels of the fault types a fault record may report. */
  const FaultTypes: map<string, string> := map[
    "sensor_stuck" := "Sensor Stuck",
    "inconsistent_reading" := "Inconsistent Reading",
    "fan_not_working" := "Fan Not Working",
    "out_of_range" := "Out of Range",
    "no_fault" := "No Fault"
  ]

  /** Display labels of the audit-log event types. */
  const EventTypes: map<string, string> := map[
    "decision" := "Control Decision",
    "fault" := "Fault Detected",
    "healing" := "Self-Healing"
  ]
}
