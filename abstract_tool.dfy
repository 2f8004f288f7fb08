/** The shared invocation logic of the external tools
    (de.innot.avreclipse.core.targets.tools.AbstractTool): the check of the
    working directory, the invocation delay between two launches, the launch
    itself and the mapping of its outcome to the AVRDudeException reasons.

    The outside world is explicit:
    - `Clock` is System.currentTimeMillis(); time passes only while the tool
      sleeps or while a launched process runs, and each Thread.sleep may be
      interrupted, as an oracle decides;
    - `Monitor` is the IProgressMonitor; each isCanceled() poll is answered
      by an oracle;
    - `Launcher` is ExternalCommandLauncher together with the tool's output
      listener; the outcome of the n-th launch is given by an oracle and
      every launch is logged. */
module Tools {
  import opened Common

  /** AVRDudeException.Reason: the three reasons runCommand raises itself,
      and any other reason an output listener reports. */
  datatype Reason =
    | InvalidCwd
    | UserCancel
    | NoAvrdudeFound
    | ListenerReason(name: string)

  /** What runCommand can throw: an AVRDudeException, or the
      NumberFormatException of Integer.decode for a malformed delay value. */
  datatype ToolError =
    | AvrDudeError(reason: Reason, message: string)
    | NumberFormatError(text: string)

  /** The abort reason and abort line an output listener detected. */
  datatype Abort = Abort(reason: Reason, line: string)

  /** How one launch ended: the process exited with a code (-1 when it was
      cancelled) after `elapsed` milliseconds, leaving its merged output
      lines (or null) and the listener's abort, if any; or starting it threw
      an IOException. */
  datatype LaunchOutcome =
    | Exited(exitCode: int, stdout: Option<seq<string>>, abort: Option<Abort>, elapsed: nat)
    | LaunchIOException

  /** The command, argument list and working directory one launch starts. */
  datatype Invocation = Invocation(command: string, arguments: seq<string>, cwd: Option<string>)

  /** ITargetConfiguration, reduced to its string attributes. */
  datatype TargetConfiguration = TargetConfiguration(attributes: map<string, string>) {
    /** getAttribute: null when the attribute is not set. */
    function GetAttribute(key: string): Option<string> {
      if key in attributes then Some(attributes[key]) else None
    }
  }

  const CwdMessage := "CWD does not point to a valid directory."
  const NotFoundMessage := "Cannot run AVRDude executable. Please check the AVR path preferences."
  const CancelMessage := "User cancelled"
  const InterruptMessage := "System interrupt"

  /** The polling interval of the delay gate, in milliseconds. */
  const PollMillis := 10

  /** A progress monitor that is never cancelled (NullProgressMonitor). */
  const NeverCanceled: nat -> bool := (k: nat) => false

  class Clock {
    var now: int
    /** The number of Thread.sleep calls made so far. */
    var sleeps: nat
    /** Whether the k-th Thread.sleep call is interrupted. */
    const interrupted: nat -> bool

    constructor (start: int, interrupted: nat -> bool)
      ensures now == start && sleeps == 0 && this.interrupted == interrupted
    {
      now := start;
      sleeps := 0;
      this.interrupted := interrupted;
    }

    /** Thread.sleep(ms): either the full time passes, or the sleep is
        interrupted and no time is accounted for. */
    method Sleep(ms: nat) returns (wasInterrupted: bool)
      modifies this
      ensures sleeps == old(sleeps) + 1
      ensures wasInterrupted == interrupted(old(sleeps))
      ensures now == if wasInterrupted then old(now) else old(now) + ms
    {
      wasInterrupted := interrupted(sleeps);
      if !wasInterrupted {
        now := now + ms;
      }
      sleeps := sleeps + 1;
    }
  }

  class Monitor {
    /** The answer of the k-th isCanceled() poll. */
    const answers: nat -> bool
    /** The number of polls made so far. */
    var polls: nat

    constructor (answers: nat -> bool)
      ensures this.answers == answers && polls == 0
    {
      this.answers := answers;
      polls := 0;
    }

    method IsCanceled() returns (canceled: bool)
      modifies this
      ensures canceled == answers(old(polls))
      ensures polls == old(polls) + 1
    {
      canceled := answers(polls);
      polls := polls + 1;
    }
  }

  class Launcher {
    /** The outcome of the n-th launch of an invocation. */
    const respond: (nat, Invocation) -> LaunchOutcome
    /** Every invocation launched so far, in order. */
    var history: seq<Invocation>

    constructor (respond: (nat, Invocation) -> LaunchOutcome)
      ensures this.respond == respond && history == []
    {
      this.respond := respond;
      history := [];
    }

    /** launcher.launch(): runs one process to its end. */
    method Launch(inv: Invocation, clock: Clock) returns (outcome: LaunchOutcome)
      modifies this, clock
      ensures outcome == respond(|old(history)|, inv)
      ensures history == old(history) + [inv]
      ensures clock.now == old(clock.now) + (if outcome.Exited? then outcome.elapsed else 0)
      ensures clock.sleeps == old(clock.sleeps)
    {
      outcome := respond(|history|, inv);
      history := history + [inv];
      if outcome.Exited? {
        clock.now := clock.now + outcome.elapsed;
      }
    }
  }

  // ---------------------------------------------------------------------------
  // The invocation delay, as a function of the state it starts from

  /** The delay attribute: unset (null or empty), not a number, or a number
      of milliseconds. */
  datatype DelaySetting = NoDelaySet | Malformed(text: string) | DelayMillis(delay: int)

  /** Where a run of the delay gate ends: its outcome, the clock, and how many
      polls and sleeps it made. */
  datatype GateRun = GateRun(outcome: Outcome<ToolError>, now: int, polls: nat, sleeps: nat)

  /** The polling loop: until the clock reaches target, poll for
      cancellation, then sleep one interval. */
  function Wait(target: int, now: int, answers: nat -> bool, polls: nat,
                interrupted: nat -> bool, sleeps: nat): (r: GateRun)
    ensures target <= now ==> r == GateRun(Pass, now, polls, sleeps)
    ensures now <= r.now && polls <= r.polls && sleeps <= r.sleeps
    ensures r.outcome.Pass? ==> target <= r.now
    ensures r.outcome.Fail? ==> r.outcome.error.AvrDudeError? && r.outcome.error.reason == UserCancel
    decreases target - now
  {
    if target <= now then GateRun(Pass, now, polls, sleeps)
    else if answers(polls) then
      GateRun(Fail(AvrDudeError(UserCancel, CancelMessage)), now, polls + 1, sleeps)
    else if interrupted(sleeps) then
      GateRun(Fail(AvrDudeError(UserCancel, InterruptMessage)), now, polls + 1, sleeps + 1)
    else Wait(target, now + PollMillis, answers, polls + 1, interrupted, sleeps + 1)
  }

  /** avrdudeInvocationDelay: no wait when no delay is set, the delay is 0, or
      less than one millisecond of it remains since lastFinish; otherwise
      the polling loop up to lastFinish + delay. */
  function DelayGate(setting: DelaySetting, lastFinish: int, now: int, answers: nat -> bool,
                     polls: nat, interrupted: nat -> bool, sleeps: nat): (r: GateRun)
    ensures now <= r.now && polls <= r.polls && sleeps <= r.sleeps
    ensures r.outcome.Fail? && r.outcome.error.NumberFormatError? <==> setting.Malformed?
  {
    match setting
    case NoDelaySet => GateRun(Pass, now, polls, sleeps)
    case Malformed(text) => GateRun(Fail(NumberFormatError(text)), now, polls, sleeps)
    case DelayMillis(delay) =>
      if delay == 0 || lastFinish + delay - now < 1 then GateRun(Pass, now, polls, sleeps)
      else Wait(lastFinish + delay, now, answers, polls, interrupted, sleeps)
  }

  /** The polling loop ends at the target, no more than one interval late,
      when nothing cancels it; it ends early only on a cancellation poll or
      an interrupted sleep, and every poll and sleep before that was clean. */
  lemma {:induction false} WaitSpec(target: int, now: int, answers: nat -> bool, polls: nat,
                                    interrupted: nat -> bool, sleeps: nat)
    requires now < target
    ensures var g := Wait(target, now, answers, polls, interrupted, sleeps);
      && polls < g.polls
      && (forall k :: polls <= k < g.polls - 1 ==> !answers(k))
      && (forall k :: sleeps <= k < g.sleeps - 1 ==> !interrupted(k))
      && (g.outcome.Pass? ==>
            && target <= g.now < target + PollMillis
            && !answers(g.polls - 1) && g.sleeps == sleeps + (g.polls - polls)
            && !interrupted(g.sleeps - 1)
            && g.now == now + PollMillis * (g.sleeps - sleeps))
      && (g.outcome.Fail? ==>
            || (g.outcome.error == AvrDudeError(UserCancel, CancelMessage)
                && answers(g.polls - 1) && g.sleeps == sleeps + (g.polls - polls) - 1)
            || (g.outcome.error == AvrDudeError(UserCancel, InterruptMessage)
                && g.sleeps == sleeps + (g.polls - polls)
                && !answers(g.polls - 1) && interrupted(g.sleeps - 1)))
      && (g.outcome.Fail? ==> g.now < target)
      && now <= g.now
    decreases target - now
  {
    if !answers(polls) && !interrupted(sleeps) && now + PollMillis < target {
      WaitSpec(target, now + PollMillis, answers, polls + 1, interrupted, sleeps + 1);
    }
  }

  /** The guarantee the gate gives a launch that follows it: when it lets the
      launch go ahead with a non-zero delay configured, at least that delay
      has passed since lastFinish; a malformed delay value always fails and
      otherwise it fails only with USER_CANCEL; it never waits when the delay
      is unset, 0 or already over. */
  lemma DelayGateSpec(setting: DelaySetting, lastFinish: int, now: int, answers: nat -> bool,
                      polls: nat, interrupted: nat -> bool, sleeps: nat)
    ensures var g := DelayGate(setting, lastFinish, now, answers, polls, interrupted, sleeps);
      && (setting.NoDelaySet? || setting == DelayMillis(0) ==> g == GateRun(Pass, now, polls, sleeps))
      && (setting.DelayMillis? && lastFinish + setting.delay - now < 1 ==> g == GateRun(Pass, now, polls, sleeps))
      && (setting.Malformed? ==> g == GateRun(Fail(NumberFormatError(setting.text)), now, polls, sleeps))
      && (g.outcome.Pass? && setting.DelayMillis? && setting.delay != 0 ==>
            lastFinish + setting.delay <= g.now)
      && (g.outcome.Fail? ==>
            || (setting.Malformed? && g.outcome.error == NumberFormatError(setting.text))
            || (g.outcome.error.AvrDudeError? && g.outcome.error.reason == UserCancel))
      && now <= g.now
  {
    if setting.DelayMillis? && setting.delay != 0 && lastFinish + setting.delay - now >= 1 {
      WaitSpec(lastFinish + setting.delay, now, answers, polls, interrupted, sleeps);
    }
  }

  /** How runCommand maps the end of a launch to its result: an abort reason
      from the listener wins over the exit code, exit code -1 means
      USER_CANCEL, an IOException means NO_AVRDUDE_FOUND, and otherwise the
      output lines are returned unchanged. */
  function LaunchResult(o: LaunchOutcome): (r: Result<Option<seq<string>>, ToolError>)
    ensures r.Success? <==> o.Exited? && o.abort.None? && o.exitCode != -1
    ensures r.Success? ==> r.value == o.stdout
    ensures o.Exited? && o.abort.Some? ==>
      r == Failure(AvrDudeError(o.abort.value.reason, o.abort.value.line))
    ensures o.Exited? && o.abort.None? && o.exitCode == -1 ==> r == Failure(AvrDudeError(UserCancel, ""))
    ensures o.LaunchIOException? ==> r == Failure(AvrDudeError(NoAvrdudeFound, NotFoundMessage))
  {
    match o
    case LaunchIOException => Failure(AvrDudeError(NoAvrdudeFound, NotFoundMessage))
    case Exited(code, stdout, abort, _) =>
      if abort.Some? then Failure(AvrDudeError(abort.value.reason, abort.value.line))
      else if code == -1 then Failure(AvrDudeError(UserCancel, ""))
      else Success(stdout)
  }

  class AbstractTool {
    /** fLastToolFinish: when the last launch of this tool ended. */
    var lastToolFinish: int
    /** The key of the delay attribute (ITargetConfigConstants.ATTR_USB_DELAY). */
    const usbDelayAttribute: string
    /** Integer.decode: the delay value as a number, or None when it throws. */
    const integerDecode: string -> Option<int>
    /** getCommand, the hook each concrete tool provides. */
    const commandOf: TargetConfiguration -> string

    constructor (usbDelayAttribute: string, integerDecode: string -> Option<int>,
                 commandOf: TargetConfiguration -> string)
      ensures lastToolFinish == 0
      ensures this.usbDelayAttribute == usbDelayAttribute
      ensures this.integerDecode == integerDecode && this.commandOf == commandOf
    {
      lastToolFinish := 0;
      this.usbDelayAttribute := usbDelayAttribute;
      this.integerDecode := integerDecode;
      this.commandOf := commandOf;
    }

    /** The delay attribute as avrdudeInvocationDelay reads it: unset when
        null or empty, malformed when Integer.decode throws. */
    function DelaySettingOf(tc: TargetConfiguration): (r: DelaySetting)
      ensures r.NoDelaySet? <==> tc.GetAttribute(usbDelayAttribute) in {None, Some("")}
      ensures r.Malformed? ==>
        tc.GetAttribute(usbDelayAttribute) == Some(r.text) && integerDecode(r.text).None?
      ensures r.DelayMillis? ==>
        tc.GetAttribute(usbDelayAttribute).Some?
        && integerDecode(tc.GetAttribute(usbDelayAttribute).value) == Some(r.delay)
    {
      match tc.GetAttribute(usbDelayAttribute)
      case None => NoDelaySet
      case Some(text) =>
        if |text| == 0 then NoDelaySet
        else match integerDecode(text)
          case None => Malformed(text)
          case Some(delay) => DelayMillis(delay)
    }

    /** The run of the delay gate from the current state. */
    ghost function Gate(tc: TargetConfiguration, clock: Clock, answers: nat -> bool, polls: nat): GateRun
      reads this, clock
    {
      DelayGate(DelaySettingOf(tc), lastToolFinish, clock.now, answers, polls,
                clock.interrupted, clock.sleeps)
    }

    /** Whether runCommand gets as far as launching the process. */
    ghost predicate Launches(tc: TargetConfiguration, cwd: Option<string>, clock: Clock,
                             answers: nat -> bool, polls: nat)
      reads this, clock
    {
      cwd != Some("") && Gate(tc, clock, answers, polls).outcome.Pass?
    }

    /** The result of runCommand from the current state: an empty working
        directory fails before anything else, then the delay gate, then the
        launch. */
    ghost function ExpectedRun(tc: TargetConfiguration, arglist: seq<string>, cwd: Option<string>,
                               clock: Clock, answers: nat -> bool, polls: nat, launcher: Launcher)
      : (r: Result<Option<seq<string>>, ToolError>)
      reads this, clock, launcher
      ensures r.Success? ==> Launches(tc, cwd, clock, answers, polls)
      ensures !Launches(tc, cwd, clock, answers, polls) ==>
        r.Failure? && (r.error == AvrDudeError(InvalidCwd, CwdMessage) || r.error.NumberFormatError?
                       || r.error.reason == UserCancel)
    {
      if cwd == Some("") then Failure(AvrDudeError(InvalidCwd, CwdMessage))
      else
        var g := Gate(tc, clock, answers, polls);
        if g.outcome.Fail? then Failure(g.outcome.error)
        else LaunchResult(launcher.respond(|launcher.history|, Invocation(commandOf(tc), arglist, cwd)))
    }

    /** avrdudeInvocationDelay. */
    method InvocationDelay(tc: TargetConfiguration, clock: Clock, monitor: Monitor)
      returns (r: Outcome<ToolError>)
      modifies clock, monitor
      ensures var g := old(Gate(tc, clock, monitor.answers, monitor.polls));
        r == g.outcome && clock.now == g.now && monitor.polls == g.polls && clock.sleeps == g.sleeps
    {
      var delayValue := tc.GetAttribute(usbDelayAttribute);
      if delayValue.None? || |delayValue.value| == 0 {
        return Pass;
      }
      var decoded := integerDecode(delayValue.value);
      if decoded.None? {
        return Fail(NumberFormatError(delayValue.value));
      }
      var delay := decoded.value;
      if delay == 0 {
        return Pass;
      }
      var targetMillis := lastToolFinish + delay;
      var targetDelay := targetMillis - clock.now;
      if targetDelay < 1 {
        return Pass;
      }
      r := PollUntil(targetMillis, clock, monitor);
    }

    /** The polling loop of avrdudeInvocationDelay: until the clock reaches
        targetMillis, give up on a cancelled monitor, else sleep one interval
        and give up if the sleep was interrupted. */
    static method PollUntil(targetMillis: int, clock: Clock, monitor: Monitor) returns (r: Outcome<ToolError>)
      modifies clock, monitor
      ensures var g := old(Wait(targetMillis, clock.now, monitor.answers, monitor.polls, clock.interrupted, clock.sleeps));
        r == g.outcome && clock.now == g.now && monitor.polls == g.polls && clock.sleeps == g.sleeps
    {
      while clock.now < targetMillis
        invariant Wait(targetMillis, clock.now, monitor.answers, monitor.polls, clock.interrupted, clock.sleeps)
          == Wait(targetMillis, old(clock.now), monitor.answers, old(monitor.polls), clock.interrupted, old(clock.sleeps))
        decreases targetMillis - clock.now
      {
        var canceled := monitor.IsCanceled();
        if canceled {
          return Fail(AvrDudeError(UserCancel, CancelMessage));
        }
        var interrupted := clock.Sleep(PollMillis);
        if interrupted {
          return Fail(AvrDudeError(UserCancel, InterruptMessage));
        }
      }
      return Pass;
    }

    /** runCommand(tc, arglist, monitor, forceconsole, cwd). Whatever happens,
        lastToolFinish ends up as the time at which it returns. */
    method RunCommand(tc: TargetConfiguration, arglist: seq<string>, monitor: Monitor,
                      forceConsole: bool, cwd: Option<string>, clock: Clock, launcher: Launcher)
      returns (r: Result<Option<seq<string>>, ToolError>)
      modifies this, clock, monitor, launcher
      ensures r == old(ExpectedRun(tc, arglist, cwd, clock, monitor.answers, monitor.polls, launcher))
      ensures launcher.history == old(launcher.history)
        + (if old(Launches(tc, cwd, clock, monitor.answers, monitor.polls))
           then [Invocation(commandOf(tc), arglist, cwd)] else [])
      ensures cwd == Some("") ==>
        clock.now == old(clock.now) && clock.sleeps == old(clock.sleeps) && monitor.polls == old(monitor.polls)
      ensures cwd != Some("") ==>
        var g := old(Gate(tc, clock, monitor.answers, monitor.polls));
        var o := launcher.respond(|old(launcher.history)|, Invocation(commandOf(tc), arglist, cwd));
        && monitor.polls == g.polls && clock.sleeps == g.sleeps
        && clock.now == g.now + (if g.outcome.Pass? && o.Exited? then o.elapsed else 0)
      ensures lastToolFinish == clock.now
      ensures old(clock.now) <= clock.now
    {
      if cwd.Some? && |cwd.value| == 0 {
        r := Failure(AvrDudeError(InvalidCwd, CwdMessage));
      } else {
        var command := commandOf(tc);
        DelayGateSpec(DelaySettingOf(tc), lastToolFinish, clock.now, monitor.answers, monitor.polls,
                      clock.interrupted, clock.sleeps);
        var gate := InvocationDelay(tc, clock, monitor);
        if gate.Fail? {
          r := Failure(gate.error);
        } else {
          var outcome := launcher.Launch(Invocation(command, arglist, cwd), clock);
          if outcome.LaunchIOException? {
            r := Failure(AvrDudeError(NoAvrdudeFound, NotFoundMessage));
          } else if outcome.abort.Some? {
            r := Failure(AvrDudeError(outcome.abort.value.reason, outcome.abort.value.line));
          } else if outcome.exitCode == -1 {
            r := Failure(AvrDudeError(UserCancel, ""));
          } else {
            r := Success(outcome.stdout);
          }
        }
      }
      lastToolFinish := clock.now;
    }

    /** runCommand(tc, arguments...): the arguments in order, a progress
        monitor that is never cancelled, no forced console and no working
        directory. */
    method RunCommandArgs(tc: TargetConfiguration, arguments: seq<string>, clock: Clock, launcher: Launcher)
      returns (r: Result<Option<seq<string>>, ToolError>)
      modifies this, clock, launcher
      ensures r == old(ExpectedRun(tc, arguments, None, clock, NeverCanceled, 0, launcher))
      ensures launcher.history == old(launcher.history)
        + (if old(Launches(tc, None, clock, NeverCanceled, 0))
           then [Invocation(commandOf(tc), arguments, None)] else [])
      ensures var g := old(Gate(tc, clock, NeverCanceled, 0));
        var o := launcher.respond(|old(launcher.history)|, Invocation(commandOf(tc), arguments, None));
        && clock.sleeps == g.sleeps
        && clock.now == g.now + (if g.outcome.Pass? && o.Exited? then o.elapsed else 0)
      ensures lastToolFinish == clock.now
      ensures old(clock.now) <= clock.now
    {
      var arglist: seq<string> := [];
      for i := 0 to |arguments|
        invariant arglist == arguments[..i]
      {
        arglist := arglist + [arguments[i]];
      }
      assert arglist == arguments;
      var nullMonitor := new Monitor(NeverCanceled);
      r := RunCommand(tc, arglist, nullMonitor, false, None, clock, launcher);
    }
  }
}
