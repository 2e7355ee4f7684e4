/** Instants as whole seconds since the Unix epoch (UTC), the only part of Go's
    `time.Time` that the ingestion path observes. */
module Timestamps {

  datatype Time = Time(unixSeconds: int)

  const SecondsPerDay: int := 86400

  /** Seconds from the epoch to 00:00:00 UTC on January 1 of year `y` in the
      proleptic Gregorian calendar. Dafny's `/` floors for a positive divisor,
      so the leap-year count is also right for years before 1. */
  function YearStart(y: int): int {
    var leapsBefore := (y - 1) / 4 - (y - 1) / 100 + (y - 1) / 400;
    var leapsBefore1970 := 1969 / 4 - 1969 / 100 + 1969 / 400;
    (365 * (y - 1970) + leapsBefore - leapsBefore1970) * SecondsPerDay
  }

  /** Go's zero `time.Time`: 0001-01-01T00:00:00Z. A field that is never
      assigned keeps this value. */
  const Zero: Time := Time(YearStart(1))

  /** `time.Time.MarshalJSON` fails unless the year lies in [0, 9999]. */
  predicate Marshalable(seconds: int) {
    YearStart(0) <= seconds < YearStart(10000)
  }
}
