/** The per-key timer registry (timer.go): starting a timer for a key stops and
    replaces the key's current timer; a firing timer removes its entry and then
    runs the callback. Both steps hold the registry lock, so each is one atomic
    step on the map. Timers are identified by the order in which they were
    created. */
module TimerRegistry {

  /** A running timer: its creation number and its duration in seconds. */
  datatype Pending = Pending(id: nat, duration: int)

  datatype Registry = Registry(timers: map<string, Pending>, next: nat)

  const Empty := Registry(map[], 0)

  /** Every running timer was created before `next`, and no two keys share a timer. */
  ghost predicate Valid(reg: Registry) {
    (forall k :: k in reg.timers ==> reg.timers[k].id < reg.next) &&
    (forall k1, k2 :: k1 in reg.timers && k2 in reg.timers && k1 != k2 ==> reg.timers[k1].id != reg.timers[k2].id)
  }

  ghost predicate Running(reg: Registry, id: nat) {
    exists k :: k in reg.timers && reg.timers[k].id == id
  }

  /** `StartTimer(duration, callback, key, …)`. */
  function StartTimer(reg: Registry, key: string, duration: int): (r: Registry)
    ensures key in r.timers && r.timers[key] == Pending(reg.next, duration)
    ensures r.timers.Keys == reg.timers.Keys + {key}
    ensures forall k :: k in reg.timers && k != key ==> r.timers[k] == reg.timers[k]
    ensures r.next == reg.next + 1
    // the key's previous timer is stopped: it is no longer running
    ensures Valid(reg) && key in reg.timers ==> !Running(r, reg.timers[key].id)
    ensures Valid(reg) ==> Valid(r)
  {
    Registry(reg.timers[key := Pending(reg.next, duration)], reg.next + 1)
  }

  /** A callback run: the key and the timer that fired. */
  datatype Invocation = Invocation(key: string, id: nat, duration: int)

  datatype Event =
    | Start(key: string, duration: int)
      /** Timer `id`, started for `key`, reaches its deadline. */
    | Fire(key: string, id: nat)

  /** The firing closure: a timer that is still the key's entry removes it and
      runs the callback once; a stopped timer does nothing. */
  function FireTimer(reg: Registry, key: string, id: nat): (r: (Registry, seq<Invocation>))
    ensures key in reg.timers && reg.timers[key].id == id ==>
      r.0.timers == reg.timers - {key} && r.0.next == reg.next &&
      r.1 == [Invocation(key, id, reg.timers[key].duration)]
    ensures !(key in reg.timers && reg.timers[key].id == id) ==> r == (reg, [])
    ensures Valid(reg) ==> Valid(r.0)
    ensures Valid(reg) && key in reg.timers && reg.timers[key].id == id ==> !Running(r.0, id)
  {
    if key in reg.timers && reg.timers[key].id == id then
      (Registry(reg.timers - {key}, reg.next), [Invocation(key, id, reg.timers[key].duration)])
    else
      (reg, [])
  }

  function Step(reg: Registry, ev: Event): (Registry, seq<Invocation>) {
    match ev
    case Start(key, d) => (StartTimer(reg, key, d), [])
    case Fire(key, id) => FireTimer(reg, key, id)
  }

  /** A sequential trace of events: the final registry and the callbacks run, in order. */
  function Run(reg: Registry, evs: seq<Event>): (Registry, seq<Invocation>)
    decreases |evs|
  {
    if |evs| == 0 then (reg, [])
    else
      var (reg1, out1) := Step(reg, evs[0]);
      var (reg2, out2) := Run(reg1, evs[1..]);
      (reg2, out1 + out2)
  }

  lemma {:induction false} RunKeepsValid(reg: Registry, evs: seq<Event>)
    requires Valid(reg)
    ensures Valid(Run(reg, evs).0)
    ensures Run(reg, evs).0.next >= reg.next
    decreases |evs|
  {
    if |evs| > 0 {
      RunKeepsValid(Step(reg, evs[0]).0, evs[1..]);
    }
  }

  /** A timer that is no longer running (stopped by a replacement, or already
      fired) never runs its callback afterwards. */
  lemma {:induction false} StoppedNeverFires(reg: Registry, evs: seq<Event>, id: nat)
    requires Valid(reg)
    requires id < reg.next && !Running(reg, id)
    ensures forall inv :: inv in Run(reg, evs).1 ==> inv.id != id
    decreases |evs|
  {
    if |evs| > 0 {
      var (reg1, out1) := Step(reg, evs[0]);
      assert !Running(reg1, id);
      assert forall inv :: inv in out1 ==> inv.id != id;
      StoppedNeverFires(reg1, evs[1..], id);
    }
  }

  /** Every timer runs its callback at most once. */
  lemma {:induction false} FiresAtMostOnce(reg: Registry, evs: seq<Event>, i: nat, j: nat)
    requires Valid(reg)
    requires i < j < |Run(reg, evs).1|
    ensures Run(reg, evs).1[i].id != Run(reg, evs).1[j].id
    decreases |evs|
  {
    var (reg1, out1) := Step(reg, evs[0]);
    var (reg2, out2) := Run(reg1, evs[1..]);
    assert Run(reg, evs).1 == out1 + out2;
    if i < |out1| {
      // the one invocation of the first step came from a timer that is now stopped
      assert |out1| == 1 && evs[0].Fire?;
      StoppedNeverFires(reg1, evs[1..], out1[0].id);
      assert Run(reg, evs).1[j] in out2;
    } else {
      FiresAtMostOnce(reg1, evs[1..], i - |out1|, j - |out1|);
    }
  }

  /** Starting a key twice: the first timer never runs its callback, whatever
      happens next, and the registry holds the second one. */
  lemma ReplacedTimerNeverFires(reg: Registry, key: string, d1: int, d2: int, evs: seq<Event>)
    requires Valid(reg)
    ensures var first := reg.next;
      var reg2 := StartTimer(StartTimer(reg, key, d1), key, d2);
      reg2.timers[key] == Pending(first + 1, d2) &&
      forall inv :: inv in Run(reg2, evs).1 ==> inv.id != first
  {
    var reg2 := StartTimer(StartTimer(reg, key, d1), key, d2);
    StoppedNeverFires(reg2, evs, reg.next);
  }
}
