/** The measurement-system guess of src/lib/measurement.ts. */
module Measurement {
  import opened Common
  import opened Text

  datatype MeasurementSystem = Metric | Imperial

  /** The stored name of a measurement system. */
  function SystemName(m: MeasurementSystem): string {
    match m
    case Metric => "metric"
    case Imperial => "imperial"
  }

  /** `guessMeasurementSystem`: an absent or empty timezone and every timezone outside the
      Americas give metric units; a timezone under "America/" gives imperial units. */
  function GuessMeasurementSystem(timezone: Option<string>): (r: MeasurementSystem)
    ensures r == Imperial <==> timezone.Some? && StartsWith(timezone.value, "America/")
    ensures timezone.None? || timezone.value == "" ==> r == Metric
  {
    if timezone.None? || timezone.value == "" then Metric
    else if StartsWith(timezone.value, "America/") then Imperial
    else Metric
  }
}
