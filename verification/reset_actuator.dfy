/** The re-check worker (ResetActuator/main.go, ResetActuator/getActuator.go):
    when an actuator's cooldown has elapsed it reads the actuator and the
    detector state; a normal sensor turns the actuator back on, otherwise the
    expiration is pushed forward and another Schedule is sent. */
module ResetActuator {
  import opened Wrappers
  import opened Granularity
  import opened Actuators
  import opened Messages

  /** The unit constants of this worker. Its message types are those of
      IotEventHandler/sqsMessageTypes.go, whose constants are the producer ones. */
  const ResetUnits := ProducerUnits

  /** The fields `getActuator` reads from the store. */
  datatype ActuatorRecord = ActuatorRecord(id: string, value: int, unit: string, expiration: Option<string>, version: int)

  /** `ResetActuatorMessage`: which actuator to re-check, and the detector key of its sensor. */
  datatype RecheckMessage = RecheckMessage(sensorThingName: string, actuatorId: string)

  /** `getActuator`: a failed query is returned as is; a null result is "actuator not found". */
  function GetActuator(response: Response<ActuatorRecord>): (r: Result<Actuator>)
    ensures response.HttpError? ==> r == Failure(response.message)
    ensures response.Null? ==> r == Failure("actuator not found")
    ensures response.Found? ==> r.Success?
    ensures response.Found? ==>
      var rec := response.data;
      r.value.id == rec.id && r.value.value == rec.value && r.value.unit == rec.unit &&
      r.value.version == rec.version && r.value.expiration == rec.expiration
  {
    match response
    case HttpError(m) => Failure(m)
    case Null => Failure("actuator not found")
    case Found(rec) => Success(Actuator(rec.id, rec.value, rec.unit, rec.expiration, rec.version))
  }

  /** `updateActuatorExpirationTimestamp` of this worker: the mutation carries the
      version as read, and an unknown unit sends nothing. */
  function UpdateExpiration(a: Actuator, now: int): (r: Result<Mutation>)
    ensures r.Success? <==> a.unit in {"MINUTES", "HOURS", "DAYS"}
    ensures r.Success? ==> r.value.version == a.version && r.value.id == a.id
    ensures a.unit == "MINUTES" ==> r.Success? && r.value.expiresAt == now + 60 * a.value
    ensures a.unit == "HOURS" ==> r.Success? && r.value.expiresAt == now + 3600 * a.value
    ensures a.unit == "DAYS" ==> r.Success? && r.value.expiresAt == now + 86400 * a.value
  {
    ExpirationUpdate(ResetUnits, a, now)
  }

  /** The collaborators of one invocation: message decoding, the store, the
      detector state ("is the sensor in state Normal"), the queue (the error a
      send returns, or None when it succeeds) and the clock. */
  datatype Env = Env(
    decode: string -> Option<RecheckMessage>,
    lookup: string -> Response<ActuatorRecord>,
    isNormal: string -> Result<bool>,
    send: (Queue, Message) -> Option<string>,
    now: int)

  /** What handling one record did: the effects attempted and the error returned, if any. */
  datatype RecordOutcome = RecordOutcome(effects: seq<Effect>, error: Option<string>)

  /** Send `msg` to `q`: the attempt is an effect; the send's error is the record's error. */
  function SendTo(env: Env, q: Queue, msg: Message, before: seq<Effect>): RecordOutcome {
    RecordOutcome(before + [Send(q, msg)], env.send(q, msg))
  }

  /** The loop body of `handler` for one record body. */
  function HandleRecord(env: Env, body: string): (r: RecordOutcome)
    ensures env.decode(body).None? ==> r.effects == [] && r.error.Some?
    // a record handled without error sent exactly one message
    ensures r.error.None? ==> |Sends(r.effects)| == 1
  {
    match env.decode(body)
    case None => RecordOutcome([], Some("error decoding message"))
    case Some(msg) =>
      match GetActuator(env.lookup(msg.actuatorId))
      case Failure(e) => RecordOutcome([], Some(e))
      case Success(a) =>
        match env.isNormal(msg.sensorThingName)
        case Failure(e) => RecordOutcome([], Some(e))
        case Success(normal) =>
          if normal then
            SendTo(env, UpdateActuatorQueue, StateCommand(msg.actuatorId, true), [])
          else
            // the update's outcome is ignored
            var update := UpdateExpiration(a, env.now);
            SendTo(env, SchedulerQueue, Schedule(Some(msg.sensorThingName), a.id, a.value, a.unit),
              if update.Success? then [Mutate(update.value)] else [])
  }

  /** Each step of the loop body: a lookup or state query that fails ends the
      record before anything is sent; a normal sensor gives the on command; an
      abnormal one gives the update attempt and then a Schedule built from the
      stored actuator. In both sending branches the record's error is the send's. */
  lemma HandleRecordSteps(env: Env, body: string)
    ensures HandleRecord(env, body).error.None? ==> env.decode(body).Some?
    ensures env.decode(body).Some? ==>
      var r := HandleRecord(env, body);
      var msg := env.decode(body).value;
      var found := GetActuator(env.lookup(msg.actuatorId));
      (found.Failure? ==> r == RecordOutcome([], Some(found.error))) &&
      (found.Success? && env.isNormal(msg.sensorThingName).Failure? ==>
         r == RecordOutcome([], Some(env.isNormal(msg.sensorThingName).error))) &&
      (found.Success? && env.isNormal(msg.sensorThingName) == Success(true) ==>
         r.effects == [Send(UpdateActuatorQueue, StateCommand(msg.actuatorId, true))] &&
         r.error == env.send(UpdateActuatorQueue, StateCommand(msg.actuatorId, true))) &&
      (found.Success? && env.isNormal(msg.sensorThingName) == Success(false) ==>
         var a := found.value;
         var schedule := Schedule(Some(msg.sensorThingName), a.id, a.value, a.unit);
         r.effects == (if UpdateExpiration(a, env.now).Success? then [Mutate(UpdateExpiration(a, env.now).value), Send(SchedulerQueue, schedule)] else [Send(SchedulerQueue, schedule)]) &&
         r.error == env.send(SchedulerQueue, schedule))
  {
  }

  /** A record is handled without error exactly when it decodes, the actuator
      and the detector state are found, and the one send succeeds. */
  lemma HandleRecordSucceeds(env: Env, body: string)
    ensures HandleRecord(env, body).error.None? <==>
      env.decode(body).Some? &&
      var msg := env.decode(body).value;
      var found := GetActuator(env.lookup(msg.actuatorId));
      found.Success? && env.isNormal(msg.sensorThingName).Success? &&
      if env.isNormal(msg.sensorThingName).value then
        env.send(UpdateActuatorQueue, StateCommand(msg.actuatorId, true)).None?
      else
        env.send(SchedulerQueue, Schedule(Some(msg.sensorThingName), found.value.id, found.value.value, found.value.unit)).None?
  {
    HandleRecordSteps(env, body);
  }

  /** A normal sensor turns the actuator on and sends no Schedule; an abnormal one
      sends a Schedule and no on command. */
  lemma RecheckSendsOnOrSchedule(env: Env, body: string)
    requires HandleRecord(env, body).error.None?
    ensures var msg := env.decode(body).value;
      var sent := Sends(HandleRecord(env, body).effects)[0];
      (env.isNormal(msg.sensorThingName) == Success(true) <==> sent.Apply?) &&
      (sent.Apply? ==> sent == StateCommand(msg.actuatorId, true)) &&
      (sent.Schedule? ==> sent.sensorThingName == Some(msg.sensorThingName))
  {
  }

  /** The loop body as a function of the record body. */
  function Handler(env: Env): string -> RecordOutcome {
    body => HandleRecord(env, body)
  }

  /** The effects of the first `n` records under `handle`, assuming all of them succeeded. */
  function EffectsOf(handle: string -> RecordOutcome, bodies: seq<string>, n: nat): seq<Effect>
    requires n <= |bodies|
  {
    if n == 0 then [] else EffectsOf(handle, bodies, n - 1) + handle(bodies[n - 1]).effects
  }

  /** `handler`: records in order; the first error ends the batch and is returned,
      leaving the remaining records unprocessed. */
  method HandleBatch(env: Env, bodies: seq<string>) returns (effects: seq<Effect>, error: Option<string>, processed: nat)
    ensures processed <= |bodies|
    ensures forall i :: 0 <= i < processed ==> HandleRecord(env, bodies[i]).error.None?
    ensures error.None? ==> processed == |bodies| && effects == EffectsOf(Handler(env), bodies, |bodies|)
    ensures error.Some? ==>
      processed < |bodies| &&
      error == HandleRecord(env, bodies[processed]).error &&
      effects == EffectsOf(Handler(env), bodies, processed) + HandleRecord(env, bodies[processed]).effects
  {
    effects, error, processed := HandleInOrder(bodies, Handler(env));
  }

  /** The loop of `handler` for any loop body `handle`. */
  method HandleInOrder(bodies: seq<string>, handle: string -> RecordOutcome)
    returns (effects: seq<Effect>, error: Option<string>, processed: nat)
    ensures processed <= |bodies|
    ensures forall i :: 0 <= i < processed ==> handle(bodies[i]).error.None?
    ensures error.None? ==> processed == |bodies| && effects == EffectsOf(handle, bodies, |bodies|)
    ensures error.Some? ==>
      processed < |bodies| &&
      error == handle(bodies[processed]).error &&
      effects == EffectsOf(handle, bodies, processed) + handle(bodies[processed]).effects
  {
    effects, error, processed := [], None, 0;
    while processed < |bodies|
      invariant processed <= |bodies|
      invariant forall i :: 0 <= i < processed ==> handle(bodies[i]).error.None?
      invariant effects == EffectsOf(handle, bodies, processed)
    {
      var outcome := handle(bodies[processed]);
      if outcome.error.Some? {
        effects := effects + outcome.effects;
        error := outcome.error;
        return;
      }
      effects := effects + outcome.effects;
      processed := processed + 1;
    }
  }

  /** A batch that succeeds sends exactly one message per record. */
  lemma OneSendPerRecord(env: Env, bodies: seq<string>, n: nat)
    requires n <= |bodies|
    requires forall i :: 0 <= i < n ==> HandleRecord(env, bodies[i]).error.None?
    ensures |Sends(EffectsOf(Handler(env), bodies, n))| == n
  {
    OneSendEach(Handler(env), bodies, n);
  }

  /** For any loop body that sends one message per successful record, `n`
      successful records send `n` messages. */
  lemma {:induction false} OneSendEach(handle: string -> RecordOutcome, bodies: seq<string>, n: nat)
    requires n <= |bodies|
    requires forall i :: 0 <= i < n ==> handle(bodies[i]).error.None? && |Sends(handle(bodies[i]).effects)| == 1
    ensures |Sends(EffectsOf(handle, bodies, n))| == n
  {
    if n > 0 {
      OneSendEach(handle, bodies, n - 1);
      SendsAppend(EffectsOf(handle, bodies, n - 1), handle(bodies[n - 1]).effects);
    }
  }
}
