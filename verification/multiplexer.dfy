/** The broadcaster of the relay server (server/subscriber.go): a set of
    subscribed output channels, each a bounded FIFO queue, to which every value
    read from the input is appended. Only the path on which every subscriber is
    open and has room is modelled; the others block or deadlock in the source. */
module Multiplexer {

  /** An output handle: the identity of a subscriber's channel. */
  type Handle = nat

  /** A buffered channel: queued values (oldest first), its capacity, and whether it is closed. */
  datatype Chan<T> = Chan(buffer: seq<T>, capacity: nat, closed: bool)

  /** The channels of the subscribers, by handle. */
  type Channels<T> = map<Handle, Chan<T>>

  /** The multiplexer's subscriber set. */
  datatype Mux = Mux(outputs: set<Handle>)

  /** `NewMultiplexer`: no subscribers. */
  function NewMultiplexer(): (mux: Mux)
    ensures forall h: Handle :: h !in mux.outputs
  {
    Mux({})
  }

  /** `Subscribe`: adds the output and keeps the others. */
  function Subscribe(mux: Mux, h: Handle): (r: Mux)
    ensures h in r.outputs
    ensures forall g :: g != h ==> (g in r.outputs <==> g in mux.outputs)
  {
    Mux(mux.outputs + {h})
  }

  /** Subscribing twice is subscribing once. */
  lemma SubscribeIdempotent(mux: Mux, h: Handle)
    ensures Subscribe(Subscribe(mux, h), h) == Subscribe(mux, h)
  {
  }

  /** `Unsubscribe`: removes the output and closes its channel. Closing a closed
      channel panics in Go, so the channel must be open. */
  function Unsubscribe<T>(mux: Mux, chans: Channels<T>, h: Handle): (r: (Mux, Channels<T>))
    requires h in chans && !chans[h].closed
    ensures h !in r.0.outputs
    ensures forall g :: g != h ==> (g in r.0.outputs <==> g in mux.outputs)
    ensures h in r.1 && r.1[h].closed && r.1[h].buffer == chans[h].buffer
    ensures forall g :: g != h ==> (g in r.1 <==> g in chans) && (g in chans ==> r.1[g] == chans[g])
  {
    (Mux(mux.outputs - {h}), chans[h := chans[h].(closed := true)])
  }

  /** Every subscriber has a channel that is open and can take `n` more values. */
  predicate Ready<T>(mux: Mux, chans: Channels<T>, n: nat) {
    forall h :: h in mux.outputs ==>
      h in chans && !chans[h].closed && |chans[h].buffer| + n <= chans[h].capacity
  }

  /** One pass of `run` over the subscribers for input value `v`. */
  function Broadcast<T>(mux: Mux, chans: Channels<T>, v: T): (r: Channels<T>)
    requires Ready(mux, chans, 1)
    ensures r.Keys == chans.Keys
    ensures forall h :: h in mux.outputs ==> r[h] == chans[h].(buffer := chans[h].buffer + [v])
    ensures forall h :: h in chans && h !in mux.outputs ==> r[h] == chans[h]
  {
    map h | h in chans :: if h in mux.outputs then chans[h].(buffer := chans[h].buffer + [v]) else chans[h]
  }

  /** `run` over a sequence of input values, with no subscription change in between. */
  function BroadcastAll<T>(mux: Mux, chans: Channels<T>, vs: seq<T>): (r: Channels<T>)
    requires Ready(mux, chans, |vs|)
    ensures r.Keys == chans.Keys
    // each subscriber receives every value once, in input order
    ensures forall h :: h in mux.outputs ==> r[h] == chans[h].(buffer := chans[h].buffer + vs)
    // and an output that is not subscribed receives nothing
    ensures forall h :: h in chans && h !in mux.outputs ==> r[h] == chans[h]
    decreases |vs|
  {
    if |vs| == 0 then chans
    else
      var next := Broadcast(mux, chans, vs[0]);
      assert forall h :: h in mux.outputs ==> next[h].buffer + vs[1..] == chans[h].buffer + vs;
      BroadcastAll(mux, next, vs[1..])
  }

  /** After `Unsubscribe(h)`, `h` receives no further value and stays closed. */
  lemma UnsubscribedReceivesNothing<T>(mux: Mux, chans: Channels<T>, h: Handle, vs: seq<T>)
    requires h in chans && !chans[h].closed
    requires Ready(Unsubscribe(mux, chans, h).0, Unsubscribe(mux, chans, h).1, |vs|)
    ensures var (m, c) := Unsubscribe(mux, chans, h);
      BroadcastAll(m, c, vs)[h] == chans[h].(closed := true)
  {
  }
}
