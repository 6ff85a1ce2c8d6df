/** The scheduler worker (main.go): it polls the scheduler queue, validates each
    Schedule message, starts a timer whose expiry sends {actuatorId, state: false}
    to the timer-expired queue, and acknowledges the message only when all that
    succeeded. */
module Scheduler {
  import opened Wrappers
  import opened Granularity
  import opened Messages
  import opened Actuators

  /** The longest visibility timeout the queue accepts: twelve hours. */
  const MaxVisibilityTimeout := 12 * 60 * 60

  /** The fixed timer duration the handler uses in place of the granularity. */
  const TimerSeconds := 10

  /** The `-t` flag after clamping into the range the queue accepts. */
  function ClampTimeout(t: int): (r: int)
    ensures 0 <= r <= MaxVisibilityTimeout
    ensures 0 <= t <= MaxVisibilityTimeout ==> r == t
    ensures t < 0 ==> r == 0
    ensures t > MaxVisibilityTimeout ==> r == MaxVisibilityTimeout
  {
    if t < 0 then 0 else if t > MaxVisibilityTimeout then MaxVisibilityTimeout else t
  }

  /** Clamping twice is clamping once, and clamping keeps the order of timeouts. */
  lemma ClampTimeoutIdempotentMonotone(t: int, u: int)
    requires t <= u
    ensures ClampTimeout(ClampTimeout(t)) == ClampTimeout(t)
    ensures ClampTimeout(t) <= ClampTimeout(u)
  {
  }

  /** The fields present in a decoded message body; a missing field is None. */
  datatype Fields = Fields(actuatorId: Option<string>, granularityValue: Option<int>, granularityUnit: Option<string>)

  /** `RcvMessage`, after decoding into the defaults `{"", -1, ""}`. */
  datatype RcvMessage = RcvMessage(actuatorId: string, granularityValue: int, granularityUnit: string)

  function WithDefaults(f: Fields): (m: RcvMessage)
    ensures f.actuatorId.Some? ==> m.actuatorId == f.actuatorId.value
    ensures f.granularityValue.Some? ==> m.granularityValue == f.granularityValue.value
    ensures f.granularityUnit.Some? ==> m.granularityUnit == f.granularityUnit.value
    ensures f.actuatorId.None? ==> m.actuatorId == ""
    ensures f.granularityValue.None? ==> m.granularityValue == -1
    ensures f.granularityUnit.None? ==> m.granularityUnit == ""
  {
    RcvMessage(
      match f.actuatorId case Some(s) => s case None => "",
      match f.granularityValue case Some(v) => v case None => -1,
      match f.granularityUnit case Some(s) => s case None => "")
  }

  /** A started timer: after `seconds` it sends `payload` to `queue`. */
  datatype TimerStart = TimerStart(actuatorId: string, seconds: int, queue: Queue, payload: Message)

  /** `handleMsg`: validation in the source's order, then a fresh timer. The
      granularity is turned into an end time and then overridden by ten seconds,
      so only the unit's validity matters. */
  function HandleMsg(m: RcvMessage): (r: Result<TimerStart>)
    ensures m.actuatorId == "" ==> r == Failure("actuatorId is nil")
    ensures m.actuatorId != "" && m.granularityValue < 0 ==> r == Failure("granularityValue is nil")
    ensures m.actuatorId != "" && m.granularityValue >= 0 && m.granularityUnit == "" ==>
      r == Failure("granularityUnit is nil")
    ensures (m.actuatorId != "" && m.granularityValue >= 0 && m.granularityUnit != "" &&
      Parse(SchedulerUnits, m.granularityUnit).None?) ==> r == Failure("granularityUnit is not valid")
    ensures r.Success? <==>
      m.actuatorId != "" && m.granularityValue >= 0 && Parse(SchedulerUnits, m.granularityUnit).Some?
    ensures r.Success? ==>
      r.value == TimerStart(m.actuatorId, TimerSeconds, TimerExpiredQueue, Expired(m.actuatorId, false))
  {
    if m.actuatorId == "" then Failure("actuatorId is nil")
    else if m.granularityValue < 0 then Failure("granularityValue is nil")
    else if m.granularityUnit == "" then Failure("granularityUnit is nil")
    else
      match AddGranularity(SchedulerUnits, 0, m.granularityValue, m.granularityUnit)
      case Failure(_) => Failure("granularityUnit is not valid")
      case Success(_) =>
        Success(TimerStart(m.actuatorId, TimerSeconds, TimerExpiredQueue, Expired(m.actuatorId, false)))
  }

  /** A missing granularity value keeps its default of -1 and is refused; zero is accepted. */
  lemma MissingValueRejectedZeroAccepted(id: string, unit: string)
    requires id != "" && Parse(SchedulerUnits, unit).Some?
    ensures HandleMsg(WithDefaults(Fields(Some(id), None, Some(unit)))) == Failure("granularityValue is nil")
    ensures HandleMsg(WithDefaults(Fields(Some(id), Some(0), Some(unit)))).Success?
  {
  }

  /** Whatever the value and unit, an accepted message waits ten seconds. */
  lemma DurationIgnoresGranularity(m1: RcvMessage, m2: RcvMessage)
    requires HandleMsg(m1).Success? && HandleMsg(m2).Success?
    ensures HandleMsg(m1).value.seconds == HandleMsg(m2).value.seconds == TimerSeconds
  {
  }

  /** No unit name serves both sides: the Schedule the event handler writes
      carries the actuator's stored unit unchanged, and whenever that unit lets
      the handler compute a new expiration the scheduler refuses the Schedule,
      while a unit the scheduler accepts makes the expiration update fail. */
  lemma NoUnitServesBoth(a: Actuator, now: int)
    ensures Parse(ProducerUnits, a.unit).Some? ==> Parse(SchedulerUnits, a.unit).None?
    ensures ExpirationUpdate(ProducerUnits, a, now).Success? ==>
      HandleMsg(RcvMessage(a.id, a.value, a.unit)).Failure?
    ensures HandleMsg(RcvMessage(a.id, a.value, a.unit)).Success? ==>
      ExpirationUpdate(ProducerUnits, a, now) == Failure("invalid granularity unit: " + a.unit)
  {
    if Parse(ProducerUnits, a.unit).Some? {
      ProducerNamesRejectedByScheduler(Parse(ProducerUnits, a.unit).value);
    }
  }

  /** A well-formed Schedule message carrying a producer unit name, as the
      event handler and the re-check worker write it, is refused here. */
  lemma ProducerScheduleRejected(id: string, value: int, u: Unit)
    requires id != "" && value >= 0
    ensures HandleMsg(RcvMessage(id, value, Name(ProducerUnits, u))) == Failure("granularityUnit is not valid")
  {
    ProducerNamesRejectedByScheduler(u);
  }

  /** True when the loop would start a timer for `msg` and then delete it;
      `decode` stands for `json.Unmarshal` into the field record. */
  predicate Accepted(msg: QueueMessage, decode: string -> Option<Fields>) {
    decode(msg.body).Some? && HandleMsg(WithDefaults(decode(msg.body).value)).Success?
  }

  /** The timer started for an accepted message. */
  function TimerFor(msg: QueueMessage, decode: string -> Option<Fields>): TimerStart
    requires Accepted(msg, decode)
  {
    HandleMsg(WithDefaults(decode(msg.body).value)).value
  }

  /** What the receive loop does with one message: the timer it starts, or
      nothing when the message is skipped. */
  function Handle(msg: QueueMessage, decode: string -> Option<Fields>): (r: Option<TimerStart>)
    ensures r.Some? <==> Accepted(msg, decode)
    ensures r.Some? ==> r.value == TimerFor(msg, decode)
  {
    match decode(msg.body)
    case None => None
    case Some(fields) =>
      match HandleMsg(WithDefaults(fields))
      case Failure(_) => None
      case Success(t) => Some(t)
  }

  /** One batch of the receive loop. Returns the indices of the messages that were
      handled and deleted, the timers started for them and the handles deleted. A
      body that does not decode and a message `handleMsg` refuses are skipped
      without stopping the batch and stay on the queue. */
  method ProcessBatch(msgs: seq<QueueMessage>, decode: string -> Option<Fields>)
    returns (acked: seq<nat>, timers: seq<TimerStart>, deleted: seq<string>)
    ensures |timers| == |acked| && |deleted| == |acked|
    ensures forall k :: 0 <= k < |acked| ==> acked[k] < |msgs|
    ensures forall k, l :: 0 <= k < l < |acked| ==> acked[k] < acked[l]
    ensures forall i :: 0 <= i < |msgs| ==> (Handle(msgs[i], decode).Some? <==> i in acked)
    ensures forall k :: 0 <= k < |acked| ==>
      Handle(msgs[acked[k]], decode) == Some(timers[k]) && deleted[k] == msgs[acked[k]].handle
  {
    acked, timers, deleted := HandleEach(msgs, m => Handle(m, decode));
  }

  /** The loop of `ProcessBatch`, for any per-message decision `handle`: the
      messages it accepts, in order, with what it started for them and their
      receipt handles. */
  method HandleEach(msgs: seq<QueueMessage>, handle: QueueMessage -> Option<TimerStart>)
    returns (acked: seq<nat>, timers: seq<TimerStart>, deleted: seq<string>)
    ensures |timers| == |acked| && |deleted| == |acked|
    ensures forall k :: 0 <= k < |acked| ==> acked[k] < |msgs|
    ensures forall k, l :: 0 <= k < l < |acked| ==> acked[k] < acked[l]
    ensures forall i :: 0 <= i < |msgs| ==> (handle(msgs[i]).Some? <==> i in acked)
    ensures forall k :: 0 <= k < |acked| ==>
      handle(msgs[acked[k]]) == Some(timers[k]) && deleted[k] == msgs[acked[k]].handle
  {
    acked, timers, deleted := [], [], [];
    var i := 0;
    while i < |msgs|
      invariant 0 <= i <= |msgs|
      invariant |timers| == |acked| && |deleted| == |acked|
      invariant forall k :: 0 <= k < |acked| ==> acked[k] < i
      invariant forall k, l :: 0 <= k < l < |acked| ==> acked[k] < acked[l]
      invariant forall j :: 0 <= j < i ==> (handle(msgs[j]).Some? <==> j in acked)
      invariant forall k :: 0 <= k < |acked| ==>
        handle(msgs[acked[k]]) == Some(timers[k]) && deleted[k] == msgs[acked[k]].handle
    {
      var started := handle(msgs[i]);
      if started.Some? {
        acked := acked + [i];
        timers := timers + [started.value];
        deleted := deleted + [msgs[i].handle];
      }
      i := i + 1;
    }
  }
}
