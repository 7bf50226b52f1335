/** JavaScript `Date` values: a time value in milliseconds since the epoch, or an invalid date. */
module Time {
  /** The largest magnitude of a valid time value (TimeClip, section 21.4.1.31 of ECMA-262). */
  const MaxTime: int := 8_640_000_000_000_000

  type TimeValue = t: int | -MaxTime <= t <= MaxTime

  /** A `Date` object: valid with its time value, or `Invalid Date` (time value NaN). */
  datatype Instant = At(ms: TimeValue) | InvalidDate

  /** `new Date(ms)` for an integral number of milliseconds. */
  function MakeDate(ms: int): (d: Instant)
    ensures d.At? <==> -MaxTime <= ms <= MaxTime
    ensures d.At? ==> d.ms == ms
  {
    if -MaxTime <= ms <= MaxTime then At(ms) else InvalidDate
  }
}
