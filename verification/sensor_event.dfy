/** The sensor-event handler (IotEventHandler/main.go): a detector changes state,
    and every actuator linked to the detector's sensor is either turned off and
    scheduled for a re-check, or turned back on unless its last cooldown is
    still running. */
module SensorEvent {
  import opened Wrappers
  import opened Granularity
  import opened Actuators
  import opened Messages
  import opened SensorStore

  /** The parts of the incoming detector event the handler reads. */
  datatype DetectorEvent = DetectorEvent(thingName: string, stateName: string)

  /** A run of the handler: either it failed before sending anything, or every
      actuator got its task (one effect list per actuator, in list order; the
      tasks run concurrently) and then the notification was published, with the
      publish error if any. */
  datatype EventOutcome =
    | Rejected(error: string)
    | Handled(tasks: seq<seq<Effect>>, notification: string, publishError: Option<string>)

  const NormalState := "Normal"

  /** `hasExpired`: parse the stored timestamp (`parse` stands for Go's
      `time.Parse` in the handler's layout) and compare it strictly with `now`. */
  function HasExpired(stamp: string, now: int, parse: string -> Option<int>): (r: Result<bool>)
    ensures r.Success? <==> parse(stamp).Some?
    ensures r.Success? ==> (r.value <==> parse(stamp).value < now)
  {
    match parse(stamp)
    case None => Failure("parsing time " + stamp)
    case Some(t) => Success(t < now)
  }

  /** A timestamp equal to now has not expired yet. */
  lemma HasExpiredIsStrict(stamp: string, now: int, parse: string -> Option<int>)
    requires parse(stamp) == Some(now)
    ensures HasExpired(stamp, now, parse) == Success(false)
  {
  }

  /** The debounce of the turn-on branch: on is sent when no expiration is stored,
      or the stored one parses and lies before now. */
  predicate MayTurnOn(a: Actuator, now: int, parse: string -> Option<int>) {
    match a.expiration
    case None => true
    case Some(stamp) => HasExpired(stamp, now, parse) == Success(true)
  }

  /** The effects of the goroutine for one actuator. */
  function ActuatorTask(turningOff: bool, a: Actuator, now: int, parse: string -> Option<int>): (r: seq<Effect>)
    // turning off: an update attempt when the unit is known, then Schedule, then off
    ensures turningOff ==> |r| >= 2
    ensures turningOff ==> r[|r| - 2] == Send(SchedulerQueue, Schedule(None, a.id, a.value, a.unit))
    ensures turningOff ==> r[|r| - 1] == Send(UpdateActuatorQueue, StateCommand(a.id, false))
    ensures turningOff ==> (|r| == 3 <==> ExpirationUpdate(ProducerUnits, a, now).Success?)
    ensures turningOff && |r| == 3 ==> r[0] == Mutate(ExpirationUpdate(ProducerUnits, a, now).value)
    // turning on: at most the one on command, never a mutation or a Schedule
    ensures !turningOff ==> |r| <= 1
    ensures !turningOff ==> (|r| == 1 <==> MayTurnOn(a, now, parse))
    ensures !turningOff && |r| == 1 ==> r[0] == Send(UpdateActuatorQueue, StateCommand(a.id, true))
  {
    if turningOff then
      var update := ExpirationUpdate(ProducerUnits, a, now);
      (if update.Success? then [Mutate(update.value)] else []) +
      [Send(SchedulerQueue, Schedule(None, a.id, a.value, a.unit)),
       Send(UpdateActuatorQueue, StateCommand(a.id, false))]
    else if MayTurnOn(a, now, parse) then
      [Send(UpdateActuatorQueue, StateCommand(a.id, true))]
    else
      []
  }

  /** A stored expiration that cannot be parsed suppresses the on command. */
  lemma UnparsableExpirationSuppressesOn(a: Actuator, now: int, parse: string -> Option<int>)
    requires a.expiration.Some? && parse(a.expiration.value).None?
    ensures ActuatorTask(false, a, now, parse) == []
  {
  }

  /** A failed store update does not stop the two messages: with an unknown unit
      the actuator's effects are exactly Schedule then off. */
  lemma FailedUpdateStillSends(a: Actuator, now: int, parse: string -> Option<int>)
    requires Parse(ProducerUnits, a.unit).None?
    ensures ActuatorTask(true, a, now, parse) ==
      [Send(SchedulerQueue, Schedule(None, a.id, a.value, a.unit)), Send(UpdateActuatorQueue, StateCommand(a.id, false))]
  {
  }

  /** The slot a deleted actuator leaves in the list is still handled: on turning
      off it sends a Schedule and an off command for the empty actuator id. */
  lemma DeletedSlotStillSends(now: int, parse: string -> Option<int>)
    ensures ActuatorTask(true, ZeroActuator, now, parse) ==
      [Send(SchedulerQueue, Schedule(None, "", 0, "")), Send(UpdateActuatorQueue, StateCommand("", false))]
  {
    assert Parse(ProducerUnits, "").None?;
  }

  function Notification(sensor: Sensor, stateName: string): string {
    sensor.name + " is now in " + stateName + " state"
  }

  /** `handler`. `sensors`, `integration` and `listing` stand for the store
      queries, `parse` for the timestamp parser, `publishError` for the outcome of
      the push notification. */
  function HandleEvent(
    event: DetectorEvent,
    sensors: Result<seq<SensorItem>>,
    integration: string -> Response<string>,
    listing: string -> Response<seq<ActuatorItem>>,
    now: int,
    parse: string -> Option<int>,
    publishError: Option<string>): (r: EventOutcome)
    ensures GetSensor(sensors, event.thingName).Failure? ==> r == Rejected(GetSensor(sensors, event.thingName).error)
    ensures r.Handled? ==>
      var sensor := GetSensor(sensors, event.thingName).value;
      var list := GetActuators(sensor.id, integration, listing);
      list.Success? &&
      |r.tasks| == |list.value| &&
      (forall i :: 0 <= i < |r.tasks| ==>
        r.tasks[i] == ActuatorTask(event.stateName != NormalState, list.value[i], now, parse)) &&
      r.notification == sensor.name + " is now in " + event.stateName + " state" &&
      r.publishError == publishError
    ensures r.Rejected? <==>
      GetSensor(sensors, event.thingName).Failure? ||
      GetActuators(GetSensor(sensors, event.thingName).value.id, integration, listing).Failure?
  {
    match GetSensor(sensors, event.thingName)
    case Failure(e) => Rejected(e)
    case Success(sensor) =>
      match GetActuators(sensor.id, integration, listing)
      case Failure(e) => Rejected(e)
      case Success(list) =>
        var turningOff := event.stateName != NormalState;
        Handled(
          seq(|list|, i requires 0 <= i < |list| => ActuatorTask(turningOff, list[i], now, parse)),
          Notification(sensor, event.stateName),
          publishError)
  }

  /** Turning off happens exactly when the state is not "Normal": then every
      actuator's task ends with an off command; otherwise no task sends one. */
  lemma OffExactlyWhenAbnormal(
    event: DetectorEvent,
    sensors: Result<seq<SensorItem>>,
    integration: string -> Response<string>,
    listing: string -> Response<seq<ActuatorItem>>,
    now: int,
    parse: string -> Option<int>,
    publishError: Option<string>,
    i: nat)
    requires HandleEvent(event, sensors, integration, listing, now, parse, publishError).Handled?
    requires i < |HandleEvent(event, sensors, integration, listing, now, parse, publishError).tasks|
    ensures var task := HandleEvent(event, sensors, integration, listing, now, parse, publishError).tasks[i];
      (exists id :: Send(UpdateActuatorQueue, StateCommand(id, false)) in task) <==> event.stateName != NormalState
  {
    var r := HandleEvent(event, sensors, integration, listing, now, parse, publishError);
    var list := GetActuators(GetSensor(sensors, event.thingName).value.id, integration, listing).value;
    var task := r.tasks[i];
    if event.stateName != NormalState {
      assert Send(UpdateActuatorQueue, StateCommand(list[i].id, false)) in task;
    } else {
      assert task == [] || task == [Send(UpdateActuatorQueue, StateCommand(list[i].id, true))];
    }
  }
}
