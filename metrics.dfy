/** The one decision of the sensor metric row: the CO2 card colour. */
module Metrics {
  import opened Constants

  /** Above 1000 ppm the CO2 card is the warning colour; at or below, the info colour. */
  function Co2Color(co2: real): (color: string)
    ensures color == ColorWarning <==> co2 > Co2Moderate as real
    ensures color == ColorInfo <==> co2 <= Co2Moderate as real
  {
    if co2 > 1000.0 then ColorWarning else ColorInfo
  }
}
