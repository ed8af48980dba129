/** Time as both scripts keep it: integer milliseconds, the unit of `Date.now()`. */
module Clock {
  /** `60 * 1000`: durations are entered in minutes and kept in milliseconds. */
  const MsPerMinute: int := 60 * 1000
}
