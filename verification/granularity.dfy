/** Cooldown granularity: a unit name and a count, turned into a span of seconds.
    Each program of the system spells the three unit names with its own string
    constants, so the constant set is a parameter. */
module Granularity {
  import opened Wrappers

  datatype Unit = Minute | Hour | Day

  /** The three string constants a program compares a unit name against. */
  datatype UnitNames = UnitNames(minute: string, hour: string, day: string)

  /** The constants of the event handler (IotEventHandler/sqsMessageTypes.go). */
  const ProducerUnits := UnitNames("MINUTES", "HOURS", "DAYS")

  /** The constants of the scheduler (main.go). */
  const SchedulerUnits := UnitNames("MINUTE", "HOUR", "DAY")

  const SecondsPerMinute := 60
  const SecondsPerHour := 3600
  /** Go's `AddDate(0, 0, n)` in UTC: one day is 86400 seconds. */
  const SecondsPerDay := 86400

  function Name(names: UnitNames, u: Unit): string {
    match u
    case Minute => names.minute
    case Hour => names.hour
    case Day => names.day
  }

  /** True when the three names of a constant set are pairwise different. */
  predicate Distinct(names: UnitNames) {
    names.minute != names.hour && names.minute != names.day && names.hour != names.day
  }

  /** The `switch` on a unit name: the day case is compared first, then hour, then minute. */
  function Parse(names: UnitNames, s: string): (r: Option<Unit>)
    ensures r.Some? <==> s in {names.minute, names.hour, names.day}
    ensures r.Some? ==> Name(names, r.value) == s
  {
    if s == names.day then Some(Day)
    else if s == names.hour then Some(Hour)
    else if s == names.minute then Some(Minute)
    else None
  }

  /** Naming a unit and parsing the name back gives the unit again. */
  lemma ParseName(names: UnitNames, u: Unit)
    requires Distinct(names)
    ensures Parse(names, Name(names, u)) == Some(u)
  {
  }

  function UnitSeconds(u: Unit): (r: int)
    ensures r > 0
    ensures r % SecondsPerMinute == 0
  {
    match u
    case Minute => SecondsPerMinute
    case Hour => SecondsPerHour
    case Day => SecondsPerDay
  }

  /** `now` moved forward by `value` units named `unit`; an unknown unit name is an error. */
  function AddGranularity(names: UnitNames, now: int, value: int, unit: string): (r: Result<int>)
    ensures r.Success? <==> Parse(names, unit).Some?
    ensures r.Success? ==> r.value - now == value * UnitSeconds(Parse(names, unit).value)
    ensures r.Failure? ==> r.error == "invalid granularity unit: " + unit
  {
    match Parse(names, unit)
    case Some(u) => Success(now + value * UnitSeconds(u))
    case None => Failure("invalid granularity unit: " + unit)
  }

  /** A longer cooldown never ends earlier: the deadline is monotone in the count. */
  lemma AddGranularityMonotone(names: UnitNames, now: int, v1: int, v2: int, unit: string)
    requires v1 <= v2
    requires Parse(names, unit).Some?
    ensures AddGranularity(names, now, v1, unit).value <= AddGranularity(names, now, v2, unit).value
  {
    var s := UnitSeconds(Parse(names, unit).value);
    assert v1 * s <= v2 * s by { MulMonotone(v1, v2, s); }
  }

  lemma MulMonotone(a: int, b: int, c: int)
    requires a <= b && c >= 0
    ensures a * c <= b * c
  {
  }

  /** The two programs do not understand each other's unit names: no producer
      name is accepted by the scheduler's constant set. */
  lemma ProducerNamesRejectedByScheduler(u: Unit)
    ensures Parse(SchedulerUnits, Name(ProducerUnits, u)).None?
  {
  }
}
