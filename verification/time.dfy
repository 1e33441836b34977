/** Instants and calendar dates. A DateTime is its count of 100-nanosecond
    ticks since 0001-01-01; a DateOnly is its day number since that date. */
module Time {

  /** A UTC DateTime, as its tick count. */
  type Instant = nat

  /** A DateOnly, as its day number. */
  type Date = nat

  const TicksPerDay: nat := 864_000_000_000

  /** DateOnly.FromDateTime: the calendar day an instant falls on. */
  function DateOf(t: Instant): (d: Date)
    ensures d * TicksPerDay <= t < (d + 1) * TicksPerDay
  {
    t / TicksPerDay
  }

  /** Later instants never fall on earlier days. */
  lemma DateOfMonotone(a: Instant, b: Instant)
    requires a <= b
    ensures DateOf(a) <= DateOf(b)
  {
  }

  /** An instant's day is after day `d` exactly when the instant is at or
      past the first tick of day d + 1. */
  lemma AfterDateIff(t: Instant, d: Date)
    ensures DateOf(t) > d <==> t >= (d + 1) * TicksPerDay
  {
  }
}
