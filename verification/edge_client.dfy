/** The edge client (client/client.go): it receives Apply records from the relay
    stream and drives the device through an external command, retrying each
    command up to three times. A failed receive replays the last command with
    its value inverted, on the guess that the lost record was a toggle. */
module EdgeClient {
  import opened Wrappers
  import opened Text
  import opened Relay

  const ScriptPath := "./script.sh"
  /** The command deadline in seconds. */
  const CommandTimeout := 8
  const MaxAttempts := 3
  /** Consecutive "Unavailable" receive errors after which the stream is abandoned. */
  const UnavailableLimit := 2
  const SuccessStatus := "0x0"

  /** The state argument of the device command. */
  function StateArg(onOff: bool): (s: string)
    ensures s == "1" <==> onOff
    ensures s == "0" <==> !onOff
  {
    if onOff then "1" else "0"
  }

  /** The argument vector `./script.sh <deviceId> <state>`. */
  function CommandArgs(deviceId: string, onOff: bool): (args: seq<string>)
    ensures |args| == 3 && args[0] == ScriptPath && args[1] == deviceId
    ensures args[2] == "1" <==> onOff
  {
    [ScriptPath, deviceId, StateArg(onOff)]
  }

  /** How a command run ended: it completed with its combined output, it
      failed, or the deadline passed (the process is then killed). */
  datatype ExecOutcome = Completed(output: string) | CommandFailed(error: string) | TimedOut

  predicate IsStatusLine(line: string) {
    Contains(line, "status:")
  }

  predicate BadStatus(line: string) {
    IsStatusLine(line) && LastToken(line) != SuccessStatus
  }

  /** The scan of the output lines: the first status line whose last token is
      not 0x0 is an error carrying that token; otherwise success. */
  function CheckStatus(lines: seq<string>): (r: Result<()>)
    ensures r.Success? <==> forall k :: 0 <= k < |lines| ==> !BadStatus(lines[k])
    ensures r.Failure? ==>
      exists k :: 0 <= k < |lines| && BadStatus(lines[k]) &&
        (forall j :: 0 <= j < k ==> !BadStatus(lines[j])) &&
        r.error == "Command failed with status: " + LastToken(lines[k]) + "\n"
  {
    if |lines| == 0 then Success(())
    else if BadStatus(lines[0]) then Failure("Command failed with status: " + LastToken(lines[0]) + "\n")
    else
      var r := CheckStatus(lines[1..]);
      assert forall k :: 1 <= k < |lines| ==> lines[k] == lines[1..][k - 1];
      if r.Failure? then
        var k :| 0 <= k < |lines[1..]| && BadStatus(lines[1..][k]) &&
          (forall j :: 0 <= j < k ==> !BadStatus(lines[1..][j])) &&
          r.error == "Command failed with status: " + LastToken(lines[1..][k]) + "\n";
        assert BadStatus(lines[k + 1]);
        r
      else
        r
  }

  /** The output scan of `sendToChipTool` on successful completion: the output
      is split on newlines. */
  function CheckOutput(output: string): Result<()> {
    CheckStatus(Split(output, '\n'))
  }

  /** Output without any status line is a success. */
  lemma NoStatusLineSucceeds(output: string)
    requires !IsStatusLine(output)
    ensures CheckOutput(output).Success?
  {
    var lines := Split(output, '\n');
    forall k | 0 <= k < |lines|
      ensures !IsStatusLine(lines[k])
    {
      if IsStatusLine(lines[k]) {
        JoinSplit(output, '\n');
        PieceOccursInJoin(lines, '\n', k, "status:");
      }
    }
  }

  /** An occurrence inside one piece of a join is an occurrence in the join. */
  lemma {:induction false} PieceOccursInJoin(parts: seq<string>, sep: char, k: nat, sub: string)
    requires |parts| >= 1 && k < |parts|
    requires Contains(parts[k], sub)
    ensures Contains(Join(parts, sep), sub)
    decreases |parts|
  {
    var i: nat :| i + |sub| <= |parts[k]| && OccursAt(parts[k], sub, i);
    if |parts| == 1 {
      assert Join(parts, sep) == parts[0];
    } else if k == 0 {
      var s := Join(parts, sep);
      assert s == parts[0] + [sep] + Join(parts[1..], sep);
      assert s[i..i + |sub|] == parts[0][i..i + |sub|];
      assert OccursAt(s, sub, i);
    } else {
      PieceOccursInJoin(parts[1..], sep, k - 1, sub);
      var rest := Join(parts[1..], sep);
      var j: nat :| j + |sub| <= |rest| && OccursAt(rest, sub, j);
      var s := Join(parts, sep);
      var off := |parts[0]| + 1;
      assert s == (parts[0] + [sep]) + rest;
      assert s[off + j..off + j + |sub|] == rest[j..j + |sub|];
      assert OccursAt(s, sub, off + j);
    }
  }

  /** `sendToChipTool(deviceId, onOff)`: `exec` stands for running the command
      with the given arguments under the eight-second deadline. */
  function SendToChipTool(deviceId: string, onOff: bool, exec: seq<string> -> ExecOutcome): (r: Result<()>)
    ensures exec(CommandArgs(deviceId, onOff)).TimedOut? ==> r == Failure("Command timed out after 8 seconds")
    ensures exec(CommandArgs(deviceId, onOff)).CommandFailed? ==>
      r == Failure(exec(CommandArgs(deviceId, onOff)).error)
    ensures r.Success? ==> exec(CommandArgs(deviceId, onOff)).Completed?
    ensures exec(CommandArgs(deviceId, onOff)).Completed? ==>
      r == CheckOutput(exec(CommandArgs(deviceId, onOff)).output)
  {
    match exec(CommandArgs(deviceId, onOff))
    case TimedOut => Failure("Command timed out after 8 seconds")
    case CommandFailed(e) => Failure(e)
    case Completed(output) => CheckOutput(output)
  }

  /** Device attempt `a` for command `d` succeeds; `exec(a, args)` is its outcome. */
  predicate AttemptOk(d: Data, exec: (nat, seq<string>) -> ExecOutcome, a: nat) {
    SendToChipTool(d.deviceId, d.value == "on", args => exec(a, args)).Success?
  }

  /** The retry loop: attempts until the first success, at most three. Returns
      the number of attempts made. */
  function Dispatch(d: Data, exec: (nat, seq<string>) -> ExecOutcome): (n: nat)
    ensures 1 <= n <= MaxAttempts
    ensures forall a: nat :: a < n - 1 ==> !AttemptOk(d, exec, a)
    ensures n < MaxAttempts ==> AttemptOk(d, exec, n - 1)
  {
    DispatchFrom(d, exec, 0)
  }

  function DispatchFrom(d: Data, exec: (nat, seq<string>) -> ExecOutcome, a: nat): (n: nat)
    requires a < MaxAttempts
    ensures a + 1 <= n <= MaxAttempts
    ensures forall b: nat :: a <= b < n - 1 ==> !AttemptOk(d, exec, b)
    ensures n < MaxAttempts ==> AttemptOk(d, exec, n - 1)
    decreases MaxAttempts - a
  {
    if AttemptOk(d, exec, a) || a + 1 == MaxAttempts then a + 1
    else DispatchFrom(d, exec, a + 1)
  }

  /** A stream receive: a record, the end of the stream, or an error with its text. */
  datatype Recv = Received(data: Data) | Eof | RecvError(message: string)

  /** The loop state: the Unavailable counter and the remembered command. */
  datatype ClientState = ClientState(counter: nat, last: Option<Data>)

  const Initial := ClientState(0, None)

  /** One iteration of the receive loop: the loop ends, or it goes on, having
      dispatched a command with the given number of device attempts (zero when
      the key is not "state"). */
  datatype StepResult = Stop | Continue(next: ClientState, dispatched: Option<Data>, attempts: nat)

  /** The command replayed after a receive error: the remembered one with its value inverted. */
  function Invert(d: Data): (r: Data)
    ensures r.deviceId == d.deviceId && r.key == d.key
    ensures r.value == (if d.value == "on" then "off" else "on")
    ensures r.value != d.value
  {
    d.(value := if d.value == "on" then "off" else "on")
  }

  function Step(st: ClientState, ev: Recv, exec: (nat, seq<string>) -> ExecOutcome): (r: StepResult)
    // end of stream ends the loop at once
    ensures ev.Eof? ==> r.Stop?
    // the counter: reset by a record, raised by an Unavailable error, kept by other errors
    ensures r.Continue? && ev.Received? ==> r.next.counter == 0
    ensures r.Continue? && ev.RecvError? ==>
      r.next.counter == st.counter + (if Contains(ev.message, "Unavailable") then 1 else 0)
    // reaching the limit ends the loop before anything is dispatched
    ensures ev.RecvError? ==>
      (r.Stop? <==> st.counter + (if Contains(ev.message, "Unavailable") then 1 else 0) == UnavailableLimit)
    ensures ev.Received? ==> r.Continue?
    // what is dispatched: the record received, or the inverted remembered command
    ensures r.Continue? && ev.Received? ==> r.dispatched == Some(ev.data)
    ensures r.Continue? && ev.RecvError? ==>
      r.dispatched == (match st.last case Some(d) => Some(Invert(d)) case None => None)
    // the dispatched command becomes the remembered one
    ensures r.Continue? ==> r.next.last == (if r.dispatched.Some? then r.dispatched else st.last)
    // only "state" commands reach the device, with at most three attempts
    ensures r.Continue? && r.dispatched.Some? && r.dispatched.value.key == "state" ==>
      r.attempts == Dispatch(r.dispatched.value, exec)
    ensures r.Continue? && (r.dispatched.None? || r.dispatched.value.key != "state") ==> r.attempts == 0
  {
    match ev
    case Eof => Stop
    case Received(d) => Deliver(ClientState(0, st.last), Some(d), exec)
    case RecvError(message) =>
      var counter := st.counter + (if Contains(message, "Unavailable") then 1 else 0);
      if counter == UnavailableLimit then Stop
      else Deliver(ClientState(counter, st.last), match st.last case Some(d) => Some(Invert(d)) case None => None, exec)
  }

  /** The tail of the loop body: nothing to do without a command; otherwise
      dispatch "state" commands and remember the command. */
  function Deliver(st: ClientState, data: Option<Data>, exec: (nat, seq<string>) -> ExecOutcome): StepResult {
    match data
    case None => Continue(st, None, 0)
    case Some(d) =>
      Continue(st.(last := Some(d)), Some(d), if d.key == "state" then Dispatch(d, exec) else 0)
  }

  /** Two receive errors in a row, neither ending the loop, replay the remembered
      command with opposite values: the second replay undoes the first. */
  lemma ConsecutiveErrorsAlternate(
    st: ClientState, m1: string, m2: string,
    exec1: (nat, seq<string>) -> ExecOutcome, exec2: (nat, seq<string>) -> ExecOutcome)
    requires st.last.Some?
    requires Step(st, RecvError(m1), exec1).Continue?
    requires Step(Step(st, RecvError(m1), exec1).next, RecvError(m2), exec2).Continue?
    ensures var r1 := Step(st, RecvError(m1), exec1);
      var r2 := Step(r1.next, RecvError(m2), exec2);
      r1.dispatched.Some? && r2.dispatched.Some? &&
      r1.dispatched.value.deviceId == r2.dispatched.value.deviceId &&
      r1.dispatched.value.value != r2.dispatched.value.value
  {
  }

  /** Without a remembered command a receive error dispatches nothing. */
  lemma ErrorWithoutMemoryDispatchesNothing(st: ClientState, m: string, exec: (nat, seq<string>) -> ExecOutcome)
    requires st.last.None?
    ensures Step(st, RecvError(m), exec).Stop? || Step(st, RecvError(m), exec) == Continue(Step(st, RecvError(m), exec).next, None, 0)
  {
  }

  /** The loop over a trace of receives: the commands dispatched, in order, and
      whether the loop ended. `exec(k, a, args)` is the outcome of device attempt
      `a` for the `k`-th receive. */
  function Run(st: ClientState, evs: seq<Recv>, exec: (nat, nat, seq<string>) -> ExecOutcome, k: nat)
    : (r: (seq<Data>, bool))
    ensures |r.0| <= |evs|
    // the loop ends only at an end of stream or a receive error, and always at an end of stream
    ensures r.1 ==> exists i :: 0 <= i < |evs| && !evs[i].Received?
    ensures Eof in evs ==> r.1
    // a trace of records dispatches each record, in order, and does not end the loop
    ensures (forall i :: 0 <= i < |evs| ==> evs[i].Received?) ==>
      !r.1 && |r.0| == |evs| && forall i :: 0 <= i < |evs| ==> r.0[i] == evs[i].data
    decreases |evs|
  {
    if |evs| == 0 then ([], false)
    else
      match Step(st, evs[0], (a: nat, args: seq<string>) => exec(k, a, args))
      case Stop => ([], true)
      case Continue(next, dispatched, _) =>
        var (rest, stopped) := Run(next, evs[1..], exec, k + 1);
        ((if dispatched.Some? then [dispatched.value] else []) + rest, stopped)
  }

  /** The device and key a command is for. */
  predicate SameTarget(a: Data, b: Data) {
    a.deviceId == b.deviceId && a.key == b.key
  }

  /** Command `c` is for the device and key of the remembered command `last`
      or of a record in `evs`. */
  predicate TargetSeen(c: Data, last: Option<Data>, evs: seq<Recv>) {
    (last.Some? && SameTarget(c, last.value)) ||
    exists i :: 0 <= i < |evs| && evs[i].Received? && SameTarget(c, evs[i].data)
  }

  /** Every dispatched command is for the device and key of the remembered
      command or of a record received earlier: a replay only flips a value. */
  lemma {:induction false} RunTargetsFromTrace(
    st: ClientState, evs: seq<Recv>, exec: (nat, nat, seq<string>) -> ExecOutcome, k: nat)
    ensures forall j :: 0 <= j < |Run(st, evs, exec, k).0| ==> TargetSeen(Run(st, evs, exec, k).0[j], st.last, evs)
    decreases |evs|
  {
    if |evs| > 0 {
      var ex := (a: nat, args: seq<string>) => exec(k, a, args);
      match Step(st, evs[0], ex)
      case Stop =>
      case Continue(next, dispatched, _) =>
        RunTargetsFromTrace(next, evs[1..], exec, k + 1);
        var cmds := Run(st, evs, exec, k).0;
        var rest := Run(next, evs[1..], exec, k + 1).0;
        var head := if dispatched.Some? then [dispatched.value] else [];
        assert cmds == head + rest;
        // the remembered command after the step is the old one or the record received
        assert next.last.Some? ==> TargetSeen(next.last.value, st.last, evs[..1]);
        forall j | 0 <= j < |cmds|
          ensures TargetSeen(cmds[j], st.last, evs)
        {
          if j < |head| {
            assert cmds[j] == dispatched.value;
            if evs[0].Received? {
              assert SameTarget(cmds[j], evs[0].data);
            }
          } else {
            var c := rest[j - |head|];
            assert cmds[j] == c;
            assert TargetSeen(c, next.last, evs[1..]);
            if !(next.last.Some? && SameTarget(c, next.last.value)) {
              var i :| 0 <= i < |evs[1..]| && evs[1..][i].Received? && SameTarget(c, evs[1..][i].data);
              assert evs[i + 1] == evs[1..][i];
            } else if !(st.last.Some? && SameTarget(next.last.value, st.last.value)) {
              assert SameTarget(c, evs[0].data);
            }
          }
        }
    }
  }

  /** Nothing after an end of stream is ever received: the rest of the trace does not matter. */
  lemma {:induction false} RunEndsAtEof(
    st: ClientState, pre: seq<Recv>, post1: seq<Recv>, post2: seq<Recv>,
    exec: (nat, nat, seq<string>) -> ExecOutcome, k: nat)
    ensures Run(st, pre + [Eof] + post1, exec, k) == Run(st, pre + [Eof] + post2, exec, k)
    decreases |pre|
  {
    if |pre| == 0 {
      assert (pre + [Eof] + post1)[0] == Eof;
      assert (pre + [Eof] + post2)[0] == Eof;
    } else {
      assert (pre + [Eof] + post1)[0] == pre[0] == (pre + [Eof] + post2)[0];
      assert (pre + [Eof] + post1)[1..] == pre[1..] + [Eof] + post1;
      assert (pre + [Eof] + post2)[1..] == pre[1..] + [Eof] + post2;
      match Step(st, pre[0], (a: nat, args: seq<string>) => exec(k, a, args))
      case Stop =>
      case Continue(next, _, _) =>
        RunEndsAtEof(next, pre[1..], post1, post2, exec, k + 1);
    }
  }

  /** From the start, two Unavailable errors in a row end the loop, whatever follows,
      and nothing is dispatched because no command is remembered yet. */
  lemma TwoUnavailableErrorsStop(
    m1: string, m2: string, rest: seq<Recv>, exec: (nat, nat, seq<string>) -> ExecOutcome, k: nat)
    requires Contains(m1, "Unavailable") && Contains(m2, "Unavailable")
    ensures Run(Initial, [RecvError(m1), RecvError(m2)] + rest, exec, k) == ([], true)
  {
    var evs := [RecvError(m1), RecvError(m2)] + rest;
    assert evs[0] == RecvError(m1) && evs[1..][0] == RecvError(m2);
    var r1 := Step(Initial, RecvError(m1), (a: nat, args: seq<string>) => exec(k, a, args));
    assert r1 == Continue(ClientState(1, None), None, 0);
  }
}
