/** The relay server (server/server.go): it polls the update queue into the
    multiplexer's input and streams each subscriber's values to its connected
    edge client, retrying a failed send once before dropping the client. */
module Relay {
  import opened Wrappers
  import opened Messages
  import opened Multiplexer

  /** `UpdateActuatorMessage`: the Apply shape of a message. */
  type Update = m: Message | m.Apply? witness Apply("", "", "")

  /** `pb.Data`, the record streamed to an edge client. */
  datatype Data = Data(deviceId: string, key: string, value: string)

  /** The buffer size of a client's output channel. */
  const OutputCapacity: nat := 100

  function ToData(m: Update): (d: Data)
    ensures d.deviceId == m.actuatorId && d.key == m.key && d.value == m.value
  {
    Data(m.actuatorId, m.key, m.value)
  }

  /** A new client: a fresh, empty output channel of capacity 100 is subscribed
      before anything is forwarded. */
  function Connect(mux: Mux, chans: Channels<Update>, h: Handle): (r: (Mux, Channels<Update>))
    requires h !in chans
    ensures h in r.0.outputs && h in r.1
    ensures r.1[h] == Chan([], OutputCapacity, false)
    ensures forall g :: g != h ==> (g in r.0.outputs <==> g in mux.outputs)
    ensures forall g :: g in chans ==> g in r.1 && r.1[g] == chans[g]
  {
    (Subscribe(mux, h), chans[h := Chan([], OutputCapacity, false)])
  }

  /** How forwarding a run of messages to one stream ended: still streaming, or
      the client was dropped while sending message `at`, with the second send's
      error. `calls` holds the number of send calls made per message. */
  datatype ChatOutcome =
    | Streaming(delivered: seq<Data>, calls: seq<nat>)
    | Dropped(delivered: seq<Data>, calls: seq<nat>, at: nat, err: string)

  /** Message `i` reaches the client on one of its two send attempts;
      `send(i, a)` is the error of attempt `a` (0 or 1), None on success. */
  predicate Delivers(send: (nat, nat) -> Option<string>, i: nat) {
    send(i, 0).None? || send(i, 1).None?
  }

  /** The loop of `MessageChat` over the values read from the output channel,
      starting at message index `from`. */
  function Forward(msgs: seq<Update>, send: (nat, nat) -> Option<string>, from: nat): (r: ChatOutcome)
    requires from <= |msgs|
    ensures r.Streaming? ==> forall i :: from <= i < |msgs| ==> Delivers(send, i)
    ensures r.Streaming? ==> |r.delivered| == |msgs| - from
    ensures r.Streaming? ==> forall i :: from <= i < |msgs| ==> r.delivered[i - from] == ToData(msgs[i])
    // both attempts failed for message `at`, and every earlier message got through
    ensures r.Dropped? ==> from <= r.at < |msgs| && send(r.at, 0).Some? && send(r.at, 1).Some?
    ensures r.Dropped? ==> r.err == send(r.at, 1).value
    ensures r.Dropped? ==> forall i :: from <= i < r.at ==> Delivers(send, i)
    ensures r.Dropped? ==> |r.delivered| == r.at - from
    ensures r.Dropped? ==> forall i :: from <= i < r.at ==> r.delivered[i - from] == ToData(msgs[i])
    // one call per attempted message, a second exactly when the first failed;
    // nothing is sent after the message that dropped the client
    ensures |r.calls| == (if r.Dropped? then r.at + 1 - from else |msgs| - from)
    ensures forall k :: 0 <= k < |r.calls| ==> 1 <= r.calls[k] <= 2
    ensures forall k :: 0 <= k < |r.calls| ==> (r.calls[k] == 2 <==> send(from + k, 0).Some?)
    decreases |msgs| - from
  {
    if from == |msgs| then Streaming([], [])
    else
      var tries := if send(from, 0).None? then 1 else 2;
      if !Delivers(send, from) then Dropped([], [tries], from, send(from, 1).value)
      else
        match Forward(msgs, send, from + 1)
        case Streaming(rest, calls) => Streaming([ToData(msgs[from])] + rest, [tries] + calls)
        case Dropped(rest, calls, at, err) => Dropped([ToData(msgs[from])] + rest, [tries] + calls, at, err)
  }

  /** `MessageChat` for the client holding output `h`, over the next `n` values
      the range loop takes off the output channel (it waits for more, so it
      can only take values already queued): forward them; a client dropped
      after two failed sends is unsubscribed, and values queued after the
      failing one stay in its closed channel. */
  function Chat(mux: Mux, chans: Channels<Update>, h: Handle, n: nat, send: (nat, nat) -> Option<string>)
    : (r: (ChatOutcome, Mux, Channels<Update>))
    requires h in chans && !chans[h].closed
    requires n <= |chans[h].buffer|
    ensures r.0 == Forward(chans[h].buffer[..n], send, 0)
    // a client that keeps streaming has had exactly the forwarded values taken off its output
    ensures r.0.Streaming? ==> r.1 == mux && r.2 == chans[h := chans[h].(buffer := chans[h].buffer[n..])]
    // a dropped client lost the values up to the failing one and is unsubscribed
    ensures r.0.Dropped? ==>
      (r.1, r.2) == Unsubscribe(mux, chans[h := chans[h].(buffer := chans[h].buffer[r.0.at + 1..])], h)
    ensures r.0.Dropped? ==> h !in r.1.outputs && h in r.2 && r.2[h].closed
    ensures h in r.2 && (r.0.Streaming? ==> !r.2[h].closed)
  {
    var outcome := Forward(chans[h].buffer[..n], send, 0);
    if outcome.Dropped? then
      var (m, c) := Unsubscribe(mux, chans[h := chans[h].(buffer := chans[h].buffer[outcome.at + 1..])], h);
      (outcome, m, c)
    else
      (outcome, mux, chans[h := chans[h].(buffer := chans[h].buffer[n..])])
  }

  /** End to end: values broadcast to a connected client whose output was empty
      reach its stream in order when each gets through on some attempt, and the
      chat leaves the output empty again. */
  lemma {:induction false} BroadcastReachesClient(
    mux: Mux, chans: Channels<Update>, h: Handle, vs: seq<Update>, send: (nat, nat) -> Option<string>)
    requires h in mux.outputs && h in chans && chans[h].buffer == []
    requires Ready(mux, chans, |vs|)
    requires forall i :: 0 <= i < |vs| ==> Delivers(send, i)
    ensures var queued := BroadcastAll(mux, chans, vs);
      var r := Chat(mux, queued, h, |vs|, send);
      r.0.Streaming? &&
      r.0.delivered == seq(|vs|, i requires 0 <= i < |vs| => ToData(vs[i])) &&
      r.2[h].buffer == [] && !r.2[h].closed && r.1 == mux
  {
    var queued := BroadcastAll(mux, chans, vs);
    assert queued[h].buffer == vs;
    assert vs[..|vs|] == vs;
    PrefixStreams(vs, send, |vs|, 0);
  }

  /** Once a client is dropped no later message is delivered to it: the
      delivered data are exactly those of the messages before the failing one. */
  lemma {:induction false} DroppedDeliversPrefix(msgs: seq<Update>, send: (nat, nat) -> Option<string>)
    requires Forward(msgs, send, 0).Dropped?
    ensures var r := Forward(msgs, send, 0);
      r.delivered == Forward(msgs[..r.at], send, 0).delivered && Forward(msgs[..r.at], send, 0).Streaming?
  {
    var r := Forward(msgs, send, 0);
    PrefixStreams(msgs, send, r.at, 0);
  }

  lemma {:induction false} PrefixStreams(msgs: seq<Update>, send: (nat, nat) -> Option<string>, n: nat, from: nat)
    requires from <= n <= |msgs|
    requires forall i :: from <= i < n ==> Delivers(send, i)
    ensures Forward(msgs[..n], send, from).Streaming?
    ensures Forward(msgs[..n], send, from).delivered == seq(n - from, i requires 0 <= i < n - from => ToData(msgs[from + i]))
    decreases n - from
  {
    if from < n {
      PrefixStreams(msgs, send, n, from + 1);
    }
  }

  /** One step of the poll loop. */
  datatype PollStep = Enqueue(msg: Update) | Delete(handle: string)

  /** One received batch of `pollSqs`: a body that does not decode is skipped,
      neither enqueued nor deleted; a decoded one is put on the multiplexer's
      input and then deleted. A failed delete does not stop the batch.
      `decode` stands for `json.Unmarshal` into the Apply record. */
  method PollBatch(msgs: seq<QueueMessage>, decode: string -> Option<Update>)
    returns (parsed: seq<nat>, steps: seq<PollStep>)
    ensures |steps| == 2 * |parsed|
    ensures forall k :: 0 <= k < |parsed| ==> parsed[k] < |msgs|
    ensures forall k, l :: 0 <= k < l < |parsed| ==> parsed[k] < parsed[l]
    ensures forall i :: 0 <= i < |msgs| ==> (decode(msgs[i].body).Some? <==> i in parsed)
    ensures forall k :: 0 <= k < |parsed| ==>
      decode(msgs[parsed[k]].body).Some? &&
      steps[2 * k] == Enqueue(decode(msgs[parsed[k]].body).value) &&
      steps[2 * k + 1] == Delete(msgs[parsed[k]].handle)
  {
    parsed, steps := [], [];
    var i := 0;
    while i < |msgs|
      invariant 0 <= i <= |msgs|
      invariant |steps| == 2 * |parsed|
      invariant forall k :: 0 <= k < |parsed| ==> parsed[k] < i
      invariant forall k, l :: 0 <= k < l < |parsed| ==> parsed[k] < parsed[l]
      invariant forall j :: 0 <= j < i ==> (decode(msgs[j].body).Some? <==> j in parsed)
      invariant forall k :: 0 <= k < |parsed| ==>
        decode(msgs[parsed[k]].body).Some? &&
        steps[2 * k] == Enqueue(decode(msgs[parsed[k]].body).value) &&
        steps[2 * k + 1] == Delete(msgs[parsed[k]].handle)
    {
      var m := decode(msgs[i].body);
      if m.Some? {
        parsed := parsed + [i];
        steps := steps + [Enqueue(m.value), Delete(msgs[i].handle)];
      }
      i := i + 1;
    }
  }
}
