/** The actuator record both lambdas read from the store, and the expiration
    update mutation they send back (optimistic concurrency on `version`). */
module Actuators {
  import opened Wrappers
  import opened Granularity

  /** A stored actuator. `expiration` is the stored timestamp text, absent when the store holds null. */
  datatype Actuator = Actuator(
    id: string,
    value: int,
    unit: string,
    expiration: Option<string>,
    version: int)

  /** The zero value of the Go struct: what a skipped slot of a list holds. */
  const ZeroActuator := Actuator("", 0, "", None, 0)

  /** `updateActuator(input: {id, _version, currentExpirationTimestamp})`, with the
      timestamp in integer seconds. */
  datatype Mutation = Mutation(id: string, version: int, expiresAt: int)

  /** The mutation `updateActuatorExpirationTimestamp` sends for `a` at time `now`,
      or the error it returns before sending anything. */
  function ExpirationUpdate(names: UnitNames, a: Actuator, now: int): (r: Result<Mutation>)
    ensures r.Success? <==> Parse(names, a.unit).Some?
    ensures r.Success? ==> r.value.id == a.id && r.value.version == a.version
    ensures r.Success? ==> r.value.expiresAt == now + a.value * UnitSeconds(Parse(names, a.unit).value)
    ensures r.Failure? ==> r.error == "invalid granularity unit: " + a.unit
  {
    var expiresAt :- AddGranularity(names, now, a.value, a.unit);
    Success(Mutation(a.id, a.version, expiresAt))
  }

  /** With a positive count the new expiration lies strictly in the future. */
  lemma ExpirationUpdateInFuture(names: UnitNames, a: Actuator, now: int)
    requires a.value > 0
    requires Parse(names, a.unit).Some?
    ensures ExpirationUpdate(names, a, now).value.expiresAt > now
  {
    var s := UnitSeconds(Parse(names, a.unit).value);
    assert a.value * s >= s by { MulMonotone(1, a.value, s); }
  }
}
