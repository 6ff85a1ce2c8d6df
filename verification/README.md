# Moisture sensor backend: a Dafny model of its decision logic

The moisture sensor backend switches irrigation actuators on and off when an
IoT Events detector changes state. It has six parts. Each of them is modelled
here as pure functions over immutable data:

- **Event handler** (`IotEventHandler`). When a sensor's detector leaves the
  `Normal` state, every actuator linked to the sensor gets these steps in order:
  - a new expiration (now plus the actuator's granularity);
  - a Schedule message;
  - an `off` command.

  When the detector returns to `Normal`, the handler sends an `on` command to
  every actuator whose stored expiration has passed or that has no stored
  expiration at all. An expiration that does not parse suppresses the command.
  The handler looks up
  the sensor and the actuators in a GraphQL store. Modules `SensorStore`,
  `Actuators`, `Granularity` and `SensorEvent`.
- **Scheduler** (`main.go`, `timer.go`). It validates Schedule messages,
  starts a timer for each one that is accepted, and deletes a message from its
  queue only after handling it successfully. Module `Scheduler`. The per-key
  timer registry is module `TimerRegistry`.
- **Re-check worker** (`ResetActuator`). For each record:
  - if the sensor is back to normal, it turns the actuator on;
  - otherwise it extends the expiration and schedules the actuator again.

  The first error aborts the batch. Module `ResetActuator`.
- **Relay server** (`server`). It polls the update queue into a multiplexer,
  and the multiplexer fans the updates out to one bounded FIFO output per
  connected client. Each client stream retries a failed send once; after a
  second failure the client is dropped. Modules `Multiplexer` and `Relay`.
- **Edge client** (`client`). It receives updates and drives the device
  through `./script.sh`, with up to three attempts per update. A failed
  receive replays the last command with its value inverted. Two "Unavailable"
  errors with no successful receive in between end the stream; other errors
  neither count nor reset the counter. Modules `EdgeClient` and `Text`, where
  `Text` holds the string splitting the status scan relies on.
- **Timestream renderer** (`MoistureSensorApi`). A recursive pretty-printer
  over typed query-result datums. Module `Timestream`.

Common conventions:

- External calls are parameters of the model: store queries, queue sends,
  detector state, the timestamp parser, the device command and stream sends.
  Each one is a pre-resolved response (`Wrappers.Response`: HTTP error, null,
  or data) or a function-typed oracle.
- Time is integer seconds in UTC, with a day of 86400 seconds.
- Messages are one datatype, `Messages.Message`, with three shapes:
  - Schedule;
  - Apply, the `{actuatorId, key, value}` update;
  - Expired, the `{actuatorId, state}` timer payload.

The two programs use different unit constants:

- The event handler uses `MINUTES`/`HOURS`/`DAYS` (`IotEventHandler/sqsMessageTypes.go`).
- The scheduler uses `MINUTE`/`HOUR`/`DAY` (`main.go`).

Each program is modelled with its own constant set (`Granularity.ProducerUnits`
and `Granularity.SchedulerUnits`). The producers copy the actuator's stored
unit into the Schedule message unchanged. As a result, no unit name is accepted
by both the producers and the scheduler. A unit for which the producer can
compute a new expiration makes the scheduler refuse the Schedule with
"granularityUnit is not valid". A unit the scheduler accepts makes the
producer's expiration update fail. `Scheduler.ProducerScheduleRejected` and
`Scheduler.NoUnitServesBoth` state this. The re-check worker's constants file (`ResetActuator/sqsMessageTypes.go`)
is not part of this model. Its message types have the same shape as the event
handler's, so the model gives it the event handler's constant set. This is an
assumption.

## Model

| member | source | states |
|---|---|---|
| Granularity.Parse | IotEventHandler/getActuators.go:90-98 | a unit name is recognised iff it equals one of the three constants of the set in use, and it is recognised as the unit carrying that name |
| Granularity.ParseName | IotEventHandler/sqsMessageTypes.go:3-5 | with three distinct constants, each unit's name is recognised as that unit (round trip name → unit) |
| Granularity.UnitSeconds | IotEventHandler/getActuators.go:91-96 | each unit is a positive whole number of minutes |
| Granularity.AddGranularity | IotEventHandler/getActuators.go:86-99 | succeeds iff the unit is one of the constants; the new time is now plus value times the unit's length; otherwise the error is "invalid granularity unit: " followed by the unit |
| Granularity.AddGranularityMonotone | IotEventHandler/getActuators.go:90-96 | for a non-negative unit length, a larger granularity value never gives an earlier expiration |
| Messages.QueueNamesDistinct | IotEventHandler/main.go:74-75 | the three queue names are distinct, so each queue is addressed by its own name |
| Granularity.ProducerNamesRejectedByScheduler | main.go:20-22 | none of the event handler's names MINUTES/HOURS/DAYS is one of the scheduler's constants |
| Actuators.ExpirationUpdate | IotEventHandler/getActuators.go:79-115 | a mutation is produced iff the unit is known; it carries the actuator's id and its version as read, and an expiration of now plus value units; an unknown unit is an error and no mutation is produced |
| Actuators.ExpirationUpdateInFuture | IotEventHandler/getActuators.go:86-99 | with a positive value and a known unit, the new expiration is strictly after now |
| SensorStore.FirstSelectable | IotEventHandler/getActuators.go:35-58 | finds a sensor iff some item has the thing name and is not deleted; the sensor found is the first such item; otherwise the error is "sensor not found" |
| SensorStore.GetSensor | IotEventHandler/getActuators.go:18-58 | a failed listing query is returned unchanged; otherwise the result is the first selectable item |
| SensorStore.ActuatorList | IotEventHandler/getActuators.go:149-183 | one actuator per item at the same index; a deleted item leaves the zero actuator; any other item has its id, value, unit, version and possibly absent expiration copied |
| SensorStore.GetActuatorList | IotEventHandler/getActuators.go:126-185 | an HTTP error is returned; a null getIntegration is the error "getIntegration is nil"; otherwise the item loop's list (`ActuatorList`: one actuator per item, the zero actuator for a deleted one) |
| SensorStore.GetIntegrationId | IotEventHandler/getActuators.go:187-213 | succeeds exactly when getSensor has data, with that integration id; a null getSensor is "getSensor is nil"; an HTTP error is returned unchanged |
| SensorStore.GetActuators | IotEventHandler/getActuators.go:61-77 | a failed integration lookup is the result; otherwise the result is the actuator list of that integration |
| SensorStore.GetActuatorsSkipsListingOnFailure | IotEventHandler/getActuators.go:62-66 | when the integration lookup fails, the result fails and does not depend on the actuator listing at all |
| SensorEvent.HasExpired | IotEventHandler/main.go:188-203 | an error iff the timestamp does not parse; otherwise expired iff the parsed time is strictly before now |
| SensorEvent.HasExpiredIsStrict | IotEventHandler/main.go:196-202 | a timestamp equal to now is not expired |
| SensorEvent.ActuatorTask | IotEventHandler/main.go:100-170 | turning off emits, in order, the expiration mutation (only when the unit is known), the Schedule message with the actuator's id, value and unit, and the off command; turning on emits the on command iff the expiration is absent or parses to a time before now, and nothing else |
| SensorEvent.UnparsableExpirationSuppressesOn | IotEventHandler/main.go:144-153 | a stored expiration that does not parse suppresses the on command |
| SensorEvent.FailedUpdateStillSends | IotEventHandler/main.go:103-131 | when the expiration update fails, the Schedule message and the off command are still both sent |
| SensorEvent.DeletedSlotStillSends | IotEventHandler/getActuators.go:149-156 | the zero actuator left by a deleted item is still handled: on turning off it gets a Schedule and an off command for the empty id |
| SensorEvent.HandleEvent | IotEventHandler/main.go:46-186 | rejected, with no task at all, iff the sensor or the actuator list cannot be resolved; otherwise exactly one task per listed actuator, at its index, all decided by the same turning-off flag, and the notification "<name> is now in <state> state" |
| SensorEvent.OffExactlyWhenAbnormal | IotEventHandler/main.go:89 | an actuator's task holds an off command iff the detector state is not "Normal" |
| Scheduler.ClampTimeout | main.go:97-103 | the result lies in [0, 43200], equals the input when the input is in range, and is the nearer bound otherwise |
| Scheduler.ClampTimeoutIdempotentMonotone | main.go:97-103 | clamping twice is clamping once, and clamping preserves order |
| Scheduler.WithDefaults | main.go:168-169 | absent fields keep the defaults "", -1 and ""; present fields are taken as decoded |
| Scheduler.HandleMsg | main.go:201-259 | rejects, in this order, an empty actuatorId, a negative value, an empty unit, and a unit other than MINUTE/HOUR/DAY, each with its own message; accepts exactly the remaining messages, with a 10-second timer whose payload is {actuatorId, false} on the timer-expired queue |
| Scheduler.MissingValueRejectedZeroAccepted | main.go:209-211 | a message without a value keeps -1 and is rejected as "granularityValue is nil"; a value of 0 is accepted |
| Scheduler.DurationIgnoresGranularity | main.go:233-241 | any two accepted messages get the same 10-second timer, whatever their values and units |
| Scheduler.NoUnitServesBoth | IotEventHandler/main.go:103-110 | for any stored actuator, a unit that lets the event handler compute a new expiration makes the scheduler refuse the Schedule it copies the unit into, and a unit the scheduler accepts makes the expiration update fail with "invalid granularity unit: " and the unit |
| Scheduler.ProducerScheduleRejected | main.go:223-231 | a Schedule message with a non-empty id, a non-negative value and an event-handler unit name is refused with "granularityUnit is not valid" |
| Scheduler.Handle | main.go:166-179 | a message starts a timer exactly when it decodes and handleMsg accepts it, and that timer is the one handleMsg returns; otherwise it is skipped |
| Scheduler.ProcessBatch | main.go:160-193 | every message is considered, and a failing one does not stop the rest; a timer is started and the message deleted exactly for the messages that decode and are accepted, in batch order |
| Scheduler.HandleEach | main.go:160-193 | for any per-message decision: the accepted indices in increasing order, each paired with what was started for it and with its receipt handle, and no other index |
| TimerRegistry.StartTimer | timer.go:15-34 | the key ends up with exactly one timer, the new one; the key's previous timer no longer runs; other keys' entries are unchanged |
| TimerRegistry.FireTimer | timer.go:26-31 | a timer that is still its key's entry removes that entry and runs the callback exactly once with its key; a stopped timer does nothing |
| TimerRegistry.RunKeepsValid | timer.go:16-31 | over any sequence of starts and fires, each running timer is the entry of exactly one key |
| TimerRegistry.StoppedNeverFires | timer.go:20-31 | a timer that is no longer running never runs its callback, whatever happens next |
| TimerRegistry.FiresAtMostOnce | timer.go:26-31 | no timer runs its callback twice in any trace |
| TimerRegistry.ReplacedTimerNeverFires | timer.go:20-26 | when a key is started twice, the first timer never runs its callback and the registry holds the second |
| ResetActuator.GetActuator | ResetActuator/getActuator.go:12-51 | an HTTP error is returned; a null getActuator is "actuator not found"; otherwise id, value, unit and version are copied, and the expiration is absent exactly when it is null |
| ResetActuator.UpdateExpiration | ResetActuator/getActuator.go:53-89 | now plus value minutes, hours (3600 s) or days (86400 s) for the three constants, with the version as read; any other unit is an error and no mutation is produced |
| ResetActuator.HandleRecord | ResetActuator/main.go:41-100 | an undecodable record has no effect and is an error; a handled record sends exactly one message |
| ResetActuator.HandleRecordSteps | ResetActuator/main.go:41-100 | lookup and state-query failures are returned before anything is sent; a normal sensor gives exactly the on command; an abnormal one gives the attempted expiration mutation, whose failure is ignored, then a Schedule built from the stored actuator; the record's error is then the error of that send |
| ResetActuator.HandleRecordSucceeds | ResetActuator/main.go:41-100 | a record succeeds iff it decodes, the actuator and the sensor state are found, and the one send it makes (the on command for a normal sensor, the Schedule otherwise) succeeds |
| ResetActuator.RecheckSendsOnOrSchedule | ResetActuator/main.go:67-100 | the message sent is an on command iff the sensor is normal; otherwise it is a Schedule carrying the sensor's thing name |
| ResetActuator.HandleBatch | ResetActuator/main.go:38-104 | records are processed in order; the first failing record ends the batch with its error, and later records have no effect; an empty or all-successful batch succeeds with the effects of every record |
| ResetActuator.HandleInOrder | ResetActuator/main.go:38-104 | for any loop body: the records before the first failing one all succeed, the failing one ends the batch with its error, and the effects are those of the records handled so far |
| ResetActuator.OneSendPerRecord | ResetActuator/main.go:67-100 | a run of n successful records sends exactly n messages |
| ResetActuator.OneSendEach | ResetActuator/main.go:38-100 | for any loop body that sends one message per successful record, n successful records send n messages |
| Multiplexer.NewMultiplexer | server/subscriber.go:15-22 | the subscriber set starts empty |
| Multiplexer.Subscribe | server/subscriber.go:25-29 | adds the output and leaves membership of every other output unchanged |
| Multiplexer.SubscribeIdempotent | server/subscriber.go:27 | subscribing twice is the same as subscribing once |
| Multiplexer.Unsubscribe | server/subscriber.go:32-37 | removes the output, closes its channel, and leaves the other channels and their membership unchanged; the channel must be open |
| Multiplexer.Broadcast | server/subscriber.go:56-65 | one input value is appended once to every subscribed output and to no other output |
| Multiplexer.BroadcastAll | server/subscriber.go:55-66 | every subscriber receives the whole input, each value once and in input order; unsubscribed outputs receive nothing |
| Multiplexer.UnsubscribedReceivesNothing | server/subscriber.go:32-37 | after Unsubscribe an output stays closed and receives no further value |
| Relay.ToData | server/server.go:61-65 | the streamed record carries the actuator id as device id, and the key and the value |
| Relay.Connect | server/server.go:56-57 | a new client has an empty, open output of capacity 100, and it is subscribed before anything is forwarded |
| Relay.Forward | server/server.go:59-78 | streaming continues while each message succeeds on one of its two attempts, and delivers the records in order; a message failing both attempts drops the client after exactly the earlier messages, with the second send's error; each attempted message gets one or two send calls, two exactly when the first fails, and no message after the failing one is sent |
| Relay.Chat | server/server.go:53-82 | the values forwarded are the next ones queued on the client's output, and they are taken off it; a client still streaming keeps the rest of its output and the subscriptions unchanged; a dropped client has lost the values up to the failing one and is unsubscribed (the multiplexer's Unsubscribe, so its output is closed) |
| Relay.BroadcastReachesClient | server/server.go:56-78 | values broadcast to a subscribed client with an empty output are streamed to it in order when each gets through on some attempt, and the output is empty again afterwards |
| Relay.DroppedDeliversPrefix | server/server.go:71-76 | a dropped client has received exactly what forwarding the messages before the failing one delivers, and no later message |
| Relay.PrefixStreams | server/server.go:59-78 | when each message of a prefix succeeds on some attempt, forwarding that prefix streams every record in order |
| Relay.PollBatch | server/server.go:196-227 | a body that does not decode is neither enqueued nor deleted; each body that decodes is enqueued and then deleted, in batch order |
| Text.Split | client/client.go:167 | splitting yields at least one piece, and no piece contains the separator |
| Text.JoinSplit | client/client.go:167 | joining the pieces of a split with the separator gives back the original text |
| Text.SplitJoin | client/client.go:167 | splitting a join of separator-free pieces gives back the pieces |
| Text.LastToken | client/client.go:172 | the last space-separated token contains no space |
| Text.LastTokenIsSuffix | client/client.go:172 | the last token is a suffix of the line, preceded by a space unless it is the whole line |
| EdgeClient.StateArg | client/client.go:113-117 | the state argument is "1" iff the device is to be turned on, and "0" iff not |
| EdgeClient.CommandArgs | client/client.go:128 | the command is ./script.sh with the device id and the state argument |
| EdgeClient.CheckStatus | client/client.go:168-180 | fails iff some line contains "status:" and its last token is not 0x0; the error names the token of the first such line |
| EdgeClient.NoStatusLineSucceeds | client/client.go:167-180 | output without any "status:" line succeeds |
| EdgeClient.SendToChipTool | client/client.go:105-197 | a timeout is "Command timed out after 8 seconds", a failed command returns its error, and only a completed command can succeed, as its status scan decides |
| EdgeClient.Dispatch | client/client.go:87-97 | between one and three attempts; stops at the first success; three attempts unless an earlier one succeeded |
| EdgeClient.Invert | client/client.go:64-70 | the replayed command keeps device and key and flips "on" to "off" and anything else to "on" |
| EdgeClient.Step | client/client.go:48-101 | EOF stops the loop; a record resets the counter, an Unavailable error increments it and other errors keep it; the loop stops before dispatching exactly when the counter reaches 2; an error replays the inverted remembered command, or nothing; only "state" commands reach the device; the dispatched command becomes the remembered one |
| EdgeClient.ConsecutiveErrorsAlternate | client/client.go:61-100 | two consecutive receive errors with a remembered command dispatch opposite values for the same device |
| EdgeClient.ErrorWithoutMemoryDispatchesNothing | client/client.go:81-83 | with no remembered command, a receive error dispatches nothing |
| EdgeClient.Run | client/client.go:48-101 | the loop ends only at an end of stream or a receive error, and always at an end of stream; a trace of records only dispatches each record, in order, and keeps the loop going |
| EdgeClient.RunTargetsFromTrace | client/client.go:61-100 | every dispatched command is for the device and key of the remembered command or of a received record; a replay changes only the value |
| EdgeClient.RunEndsAtEof | client/client.go:50-52 | nothing after an end of stream affects the loop |
| EdgeClient.TwoUnavailableErrorsStop | client/client.go:57-79 | from the start, two Unavailable errors end the loop having dispatched nothing, whatever follows |
| Timestream.ParseColumnName | MoistureSensorApi/TimestreamFunctions.cs:179-182 | the name followed by "=", or nothing for a null name |
| Timestream.ParseScalarType | MoistureSensorApi/TimestreamFunctions.cs:174-177 | name=value, or the bare value for a null name |
| Timestream.ParseDatum | MoistureSensorApi/TimestreamFunctions.cs:136-163 | a null datum renders as name=NULL, or =NULL for a null name, before any other case; every failure it returns is one of the two modelled .NET exceptions, the empty-sequence error or the index error |
| Timestream.ParseDatumBranches | MoistureSensorApi/TimestreamFunctions.cs:143-162 | a non-null datum is a time series when it has a measure column (bracketed {time, value} entries, an error when empty); otherwise an array when it has an element column (name=[…], an error when empty); otherwise a row when it has a non-empty column list; otherwise a scalar |
| Timestream.ParseRow | MoistureSensorApi/TimestreamFunctions.cs:123-134 | the rendered columns joined by commas in braces; fails exactly when a column fails |
| Timestream.RenderColumns | MoistureSensorApi/TimestreamFunctions.cs:127-132 | one rendering per datum; fewer column infos than datums is an error |
| Timestream.RenderColumnsPointwise | MoistureSensorApi/TimestreamFunctions.cs:127-132 | succeeds iff every datum has a column info and renders with it; item j is then datum j rendered with column info j |
| Timestream.ParseTimeSeries | MoistureSensorApi/TimestreamFunctions.cs:165-172 | an empty series is the empty-sequence error; otherwise a bracketed text with no name prefix |
| Timestream.RenderPoints | MoistureSensorApi/TimestreamFunctions.cs:167-169 | one {time=…, value=…} rendering per point |
| Timestream.RenderPointsPointwise | MoistureSensorApi/TimestreamFunctions.cs:167-169 | succeeds iff every point's value renders with the measure column; item k is then {time=T, value=V} with point k's time and rendered value |
| Timestream.ParseArray | MoistureSensorApi/TimestreamFunctions.cs:184-187 | an empty array is the empty-sequence error; otherwise a bracketed text |
| Timestream.RenderElements | MoistureSensorApi/TimestreamFunctions.cs:186 | one rendering per element |
| Timestream.RenderElementsPointwise | MoistureSensorApi/TimestreamFunctions.cs:186 | succeeds iff every element renders with the element column; item i is then element i rendered |
| Timestream.ParseQueryResult | MoistureSensorApi/TimestreamFunctions.cs:111-120 | exactly one line per row, in row order, each the row's rendering; otherwise the error of the first failing row |
| Timestream.ScalarRowRendering | MoistureSensorApi/TimestreamFunctions.cs:123-134 | a row with one named scalar column renders as {name=value}, and a row without data as {} |

## Left out

- Store queries, queue and notification sends, and detector-state queries are not modelled as I/O. The GraphQL store, SQS, SNS, IoT Events, the IoT Data shadow and gRPC are pre-resolved responses or oracle parameters.
- Untyped JSON walking and its type-assertion panics are left out, as are the JSON key names, because the model starts from already-decoded records with optional fields.
- Marshal errors are left out because they cannot happen for these flat string/int records.
- Go's timestamp layout, formatting and parsing, `AddDate` across DST, and `time.Duration` overflow for huge values are left out. Time is integer seconds and a stored timestamp is parsed by an oracle.
- Goroutines, the WaitGroup, mutex fairness, `select` nondeterminism and the `time.Timer` Stop race are left out. The event handler's per-actuator goroutines become one task per actuator, and both timer steps become atomic.
- SensorEvent.HandleEvent: a failure to publish the notification is returned as the handler's result and is not otherwise modelled, because the publish is external.
- Scheduler.HandleMsg: the timer it starts is a fresh `time.NewTimer` per message, not the registry, and the expiry send runs on another goroutine. The model returns the timer to start and its payload.
- TimerRegistry.StartTimer: the callback and its SQS arguments are abstracted to an invocation record, because the callback is external.
- Multiplexer.Broadcast: only the path on which every subscriber takes the send case is modelled. The receive case of `run`'s `select` calls `Unsubscribe` while holding the lock that `Unsubscribe` takes again, so it deadlocks. That case is taken for a closed output, for a full output (the send case cannot proceed), and possibly for any output with values still queued, because `select` chooses at random among ready cases. `Ready` is therefore the condition under which the send path can happen, not a guarantee that it does.
- Multiplexer.BroadcastAll: the shutdown path of `run` when the input closes is left out, because it deadlocks in the same way.
- Relay.Chat: the range loop's wait for values not yet queued is left out; a chat takes a given number of already-queued values, and interleaving with broadcasts is left to the caller. The final `Unsubscribe` after the output is drained is left out, because it closes an already-closed channel and panics. The one-second pause before a retry is left out as timing.
- Relay.PollBatch: the input channel of capacity 100 is unbounded here, so a full input that blocks the poll loop is not modelled.
- EdgeClient.SendToChipTool: killing the process and removing the temporary file are left out; only the outcome and the status scan are kept.
- EdgeClient.Run: the initial failure of `MessageChat` (a nil stream) is left out.
- Timestream.ParseDatum: the null-reference exceptions are not modelled, because the datums have no null lists, row values or column types. An absent array or time-series list is taken as empty (MoistureSensorApi/TimestreamFunctions.cs:151-152, 167). An absent row value of a row-typed datum is taken as a row without data and renders as `{}`, where .NET throws at `row.Data` (MoistureSensorApi/TimestreamFunctions.cs:156-157, 125). A null column type, which .NET dereferences at MoistureSensorApi/TimestreamFunctions.cs:142-143, is not representable. The only failures modelled are the empty-sequence and index errors.
- Timestream: the pagination loop and its floating-point cost cutoff (MoistureSensorApi/TimestreamFunctions.cs:32-90) are left out because they are network-driven.
- ResetActuator: its `isNormalState` is the oracle `isNormal`, and `ResetActuator/sqsMessageTypes.go` is not part of this model (see above).
- The event handler's Schedule message has three fields, with no sensor thing name (`Schedule(None, …)`), as the struct in `IotEventHandler/sqs.go` declares it and as the literal at `IotEventHandler/main.go:110` builds it. The re-check worker's has four (`Schedule(Some(name), …)`). The send helpers of `IotEventHandler/sqs.go` are oracle parameters.
- `MoistureSensorApi/Program.cs`, `sendData.go`, `sqs.go`, `test/test.go` and the DTO-only `.cs` files are outside the modelled core.
- Process setup is left out: logging, environment and `.env` loading, flags, and session and server setup.
