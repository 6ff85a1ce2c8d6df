/** The typed messages the workers exchange over queues, and the externally
    visible effects a worker produces (store mutations and queue sends). */
module Messages {
  import opened Wrappers
  import opened Actuators

  /** The queues of the relay, by the names the programs use. */
  datatype Queue = SchedulerQueue | UpdateActuatorQueue | TimerExpiredQueue

  function QueueName(q: Queue): string {
    match q
    case SchedulerQueue => "MoistureSensorScheduler"
    case UpdateActuatorQueue => "MoistureSensorUpdateActuator"
    case TimerExpiredQueue => "MoistureSensorTimerExpired"
  }

  /** The three queues have different names, so the effects can name a send's
      queue by its `Queue` value instead of its name string without merging two queues. */
  lemma QueueNamesDistinct(q1: Queue, q2: Queue)
    ensures QueueName(q1) == QueueName(q2) <==> q1 == q2
  {
    if q1 != q2 {
      assert QueueName(q1)[|"MoistureSensor"|..] != QueueName(q2)[|"MoistureSensor"|..];
    }
  }

  datatype Message =
      /** "Arm a cooldown timer": the event handler sends no sensor reference, the re-check worker does. */
    | Schedule(sensorThingName: Option<string>, actuatorId: string, granularityValue: int, granularityUnit: string)
      /** "Set physical state now": {actuatorId, key, value}. */
    | Apply(actuatorId: string, key: string, value: string)
      /** The scheduler's timer payload: {actuatorId, state}. */
    | Expired(actuatorId: string, state: bool)

  /** A received queue message: its body and its receipt handle. */
  datatype QueueMessage = QueueMessage(body: string, handle: string)

  /** An effect on the outside world: a store mutation attempt or a queue send attempt. */
  datatype Effect = Mutate(mutation: Mutation) | Send(queue: Queue, msg: Message)

  function StateCommand(actuatorId: string, on: bool): Message {
    Apply(actuatorId, "state", if on then "on" else "off")
  }

  /** The queue sends among `effects`. */
  function Sends(effects: seq<Effect>): (r: seq<Message>)
    ensures |r| <= |effects|
  {
    if |effects| == 0 then []
    else (if effects[0].Send? then [effects[0].msg] else []) + Sends(effects[1..])
  }

  lemma SendsAppend(a: seq<Effect>, b: seq<Effect>)
    ensures Sends(a + b) == Sends(a) + Sends(b)
  {
    if |a| > 0 {
      assert (a + b)[1..] == a[1..] + b;
      SendsAppend(a[1..], b);
    } else {
      assert a + b == b;
    }
  }
}
