/** The supervisor's restart policy as a step function. One supervision is a loop of
    launch attempts; each attempt either fails to launch (the supervision ends in error) or
    spawns a child that is then watched until a shutdown signal arrives or the child exits.
    Process spawning, waiting and signalling are inputs: a `LaunchResult` says how the
    attempt went, a `WatchEvent` says what the watch observed. */
module Supervisor {
  import opened Wrappers
  import opened Definitions
  import opened Runtime
  import opened Paths

  datatype Outcome = Completed | Errored(message: string)

  /** Where the loop is: about to launch, watching a running child, or returned. */
  datatype Phase = Launching | Watching | Finished(outcome: Outcome)

  datatype Supervision = Supervision(service: Service, restartCount: nat, phase: Phase)

  /** How a launch attempt went: the binary is missing, spawning it failed, or a child
      runs (with the process id the OS reported, if any). */
  datatype LaunchResult = BinaryMissing | SpawnFailed(reason: string) | Spawned(pid: Option<U32>)

  /** What the watch observed first: a shutdown signal on either channel, a failure while
      waiting for the child, or the child's exit (whether it succeeded, and whether a
      shutdown signal was already queued when it did). */
  datatype WatchEvent =
    | GlobalShutdown
    | ServiceShutdown
    | WaitFailed(reason: string)
    | ChildExited(success: bool, shutdownPending: bool)

  /** One step: the next supervision and the states written to the service, in order. */
  datatype Step = Step(next: Supervision, states: seq<ServiceState>)

  /** The service's state is the last one the step wrote, or unchanged if it wrote none. */
  ghost predicate Recorded(before: Supervision, st: Step) {
    && (|st.states| == 0 ==> GetState(st.next.service) == GetState(before.service))
    && (|st.states| > 0 ==> GetState(st.next.service) == st.states[|st.states| - 1])
    && SameConfig(before.service, st.next.service)
  }

  /** The level of the newest log line, if any. */
  function LastLogLevel(s: Service): Option<string> {
    if |s.logs.entries| == 0 then None else Some(s.logs.entries[|s.logs.entries| - 1].level)
  }

  /** `run_supervised` starts with no restarts counted. */
  function Begin(service: Service): (sv: Supervision)
    ensures sv.service == service && sv.restartCount == 0 && sv.phase == Launching
  {
    Supervision(service, 0, Launching)
  }

  /** The path whose existence is checked before spawning. */
  function ResolvedBinary(s: Service): string {
    JoinPath(s.workingDir, s.binaryPath)
  }

  function MissingBinaryMessage(s: Service): string {
    "Binary not found at: " + s.binaryPath + " (resolved to: " + ResolvedBinary(s) + ")"
  }

  /** One launch attempt at time `now`: the state goes to `Starting`, then to `Running` once
      a child is spawned, or to `Failed` (with an error line logged) when it cannot be. */
  function Launch(sv: Supervision, result: LaunchResult, now: string): (st: Step)
    requires sv.phase.Launching?
    ensures Recorded(sv, st)
    ensures st.next.restartCount == sv.restartCount
    ensures result.Spawned? ==> st.states == [Starting, Running] && st.next.phase == Watching
    ensures result.Spawned? ==> GetPid(st.next.service) == (if result.pid.Some? then result.pid else GetPid(sv.service))
    ensures !result.Spawned? ==> st.states == [Starting, Failed] && st.next.phase.Finished?
    ensures !result.Spawned? ==> st.next.phase.outcome.Errored? && GetPid(st.next.service) == GetPid(sv.service)
    ensures result.BinaryMissing? ==> st.next.phase.outcome.message == MissingBinaryMessage(sv.service)
    ensures !result.Spawned? ==> LastLogLevel(st.next.service) == Some("error")
  {
    var starting := SetState(sv.service, Starting);
    match result
    case BinaryMissing =>
      var message := MissingBinaryMessage(sv.service);
      var failed := AppendLog(SetState(starting, Failed), now, "error", message);
      Step(Supervision(failed, sv.restartCount, Finished(Errored(message))), [Starting, Failed])
    case SpawnFailed(reason) =>
      var failed := AppendLog(SetState(starting, Failed), now, "error", "Failed to start: " + reason);
      var message := "failed to spawn child process at " + sv.service.binaryPath + ": " + reason;
      Step(Supervision(failed, sv.restartCount, Finished(Errored(message))), [Starting, Failed])
    case Spawned(pid) =>
      var withPid := if pid.Some? then SetPid(starting, pid) else starting;
      Step(Supervision(SetState(withPid, Running), sv.restartCount, Watching), [Starting, Running])
  }

  /** After an exit with no shutdown queued: count the crash or reset the count, then
      stop, fail at the restart limit, or relaunch. */
  function AfterExit(sv: Supervision, success: bool): (st: Step)
    ensures Recorded(sv, st)
    ensures GetPid(st.next.service) == GetPid(sv.service)
    ensures st.next.restartCount == if success then 0 else sv.restartCount + 1
    ensures |st.states| > 0 && st.states[0] == if success then Stopped else Crashed
    ensures !sv.service.autoRestart ==> st.states == [st.states[0]] && st.next.phase == Finished(Completed)
    ensures sv.service.autoRestart && sv.service.restartLimit.Some? && st.next.restartCount >= sv.service.restartLimit.value ==>
      st.states == [st.states[0], Failed] && st.next.phase == Finished(Completed)
    ensures st.next.phase == Launching <==>
      sv.service.autoRestart && (sv.service.restartLimit.None? || st.next.restartCount < sv.service.restartLimit.value)
  {
    var count := if success then 0 else sv.restartCount + 1;
    var exitState := if success then Stopped else Crashed;
    var exited := SetState(sv.service, exitState);
    if !exited.autoRestart then
      Step(Supervision(exited, count, Finished(Completed)), [exitState])
    else if exited.restartLimit.Some? && count >= exited.restartLimit.value then
      Step(Supervision(SetState(exited, Failed), count, Finished(Completed)), [exitState, Failed])
    else
      Step(Supervision(exited, count, Launching), [exitState])
  }

  /** A shutdown signal: `Stopping`, the child is stopped, the pid is cleared, `Stopped`. */
  function ShutDown(sv: Supervision): (st: Step)
    ensures Recorded(sv, st)
    ensures st.states == [Stopping, Stopped] && GetPid(st.next.service).None?
    ensures st.next.phase == Finished(Completed) && st.next.restartCount == sv.restartCount
  {
    Step(Supervision(SetState(SetPid(SetState(sv.service, Stopping), None), Stopped), sv.restartCount,
      Finished(Completed)), [Stopping, Stopped])
  }

  /** The watch, as the loop is written: when the child exits with a shutdown already
      queued, the loop returns without writing any state. */
  function WatchAsWritten(sv: Supervision, event: WatchEvent): (st: Step)
    requires sv.phase.Watching?
    ensures Recorded(sv, st)
    ensures event.ChildExited? ==> GetPid(st.next.service).None?
    ensures event.ChildExited? && event.shutdownPending ==>
      st.states == [] && st.next.phase == Finished(Completed)
  {
    match event
    case GlobalShutdown => ShutDown(sv)
    case ServiceShutdown => ShutDown(sv)
    case WaitFailed(reason) =>
      Step(sv.(phase := Finished(Errored("failed while waiting for child process: " + reason))), [])
    case ChildExited(success, shutdownPending) =>
      var cleared := sv.(service := SetPid(sv.service, None));
      if shutdownPending then Step(cleared.(phase := Finished(Completed)), [])
      else AfterExit(cleared, success)
  }

  /** The watch with the queued-shutdown exit ending in `Stopped`, as the two shutdown
      branches do. */
  function Watch(sv: Supervision, event: WatchEvent): (st: Step)
    requires sv.phase.Watching?
    ensures Recorded(sv, st)
    ensures event.GlobalShutdown? || event.ServiceShutdown? ==>
      st.states == [Stopping, Stopped] && GetPid(st.next.service).None? && st.next.phase == Finished(Completed)
    ensures event.WaitFailed? ==> st.states == [] && st.next.phase.Finished? && st.next.phase.outcome.Errored?
    ensures event.ChildExited? ==> GetPid(st.next.service).None?
    ensures event.ChildExited? && event.shutdownPending ==>
      st.states == [Stopped] && st.next.phase == Finished(Completed)
    ensures event.ChildExited? && !event.shutdownPending ==>
      st.next.restartCount == (if event.success then 0 else sv.restartCount + 1)
      && |st.states| > 0 && st.states[0] == (if event.success then Stopped else Crashed)
    ensures event.ChildExited? && !sv.service.autoRestart ==> st.next.phase == Finished(Completed)
    ensures event.ChildExited? && !event.shutdownPending ==>
      st == AfterExit(sv.(service := SetPid(sv.service, None)), event.success)
  {
    match event
    case ChildExited(_, true) =>
      var cleared := SetPid(sv.service, None);
      Step(Supervision(SetState(cleared, Stopped), sv.restartCount, Finished(Completed)), [Stopped])
    case _ => WatchAsWritten(sv, event)
  }

  /** Finishing normally leaves the service at rest: stopped, crashed or failed. */
  ghost predicate AtRest(sv: Supervision) {
    sv.phase == Finished(Completed) ==> GetState(sv.service) in {Stopped, Crashed, Failed}
  }

  /** While the loop runs under a restart limit, the consecutive crashes counted stay below it. */
  ghost predicate WithinLimit(sv: Supervision) {
    && (!sv.phase.Finished? && sv.service.restartLimit.Some? && sv.restartCount > 0 ==>
          sv.restartCount < sv.service.restartLimit.value)
    && (sv.phase.Watching? ==> GetState(sv.service) == Running)
  }

  /** One input to the loop, stamped with the time any log line it causes is given. */
  datatype Event = Launched(result: LaunchResult, now: string) | Observed(event: WatchEvent)

  /** Which watch step a run uses: the loop as written, or with the queued-shutdown exit corrected. */
  datatype Variant = AsWritten | Corrected

  /** Apply an event the current phase can receive; any other event is not delivered. */
  function Advance(variant: Variant, sv: Supervision, e: Event): Supervision {
    match e
    case Launched(result, now) => if sv.phase.Launching? then Launch(sv, result, now).next else sv
    case Observed(event) =>
      if !sv.phase.Watching? then sv
      else if variant == Corrected then Watch(sv, event).next
      else WatchAsWritten(sv, event).next
  }

  function Run(variant: Variant, sv: Supervision, events: seq<Event>): Supervision
    decreases |events|
  {
    if |events| == 0 then sv else Run(variant, Advance(variant, sv, events[0]), events[1..])
  }

  /** With the corrected watch, every run keeps the service's configuration, keeps the
      consecutive crash count below the restart limit while the loop runs, and, once it
      returns normally, leaves the service at rest. */
  lemma {:induction false} RunInvariants(sv: Supervision, events: seq<Event>)
    requires WithinLimit(sv) && AtRest(sv)
    ensures WithinLimit(Run(Corrected, sv, events)) && AtRest(Run(Corrected, sv, events))
    ensures SameConfig(sv.service, Run(Corrected, sv, events).service)
    decreases |events|
  {
    if |events| > 0 {
      var next := Advance(Corrected, sv, events[0]);
      assert WithinLimit(next) && AtRest(next) && SameConfig(sv.service, next.service);
      RunInvariants(next, events[1..]);
    }
  }

  /** The loop as written also keeps the configuration and bounds the consecutive crashes
      by the restart limit; only the at-rest promise fails (`QueuedShutdownLeavesRunning`). */
  lemma {:induction false} RunAsWrittenInvariants(sv: Supervision, events: seq<Event>)
    requires WithinLimit(sv)
    ensures WithinLimit(Run(AsWritten, sv, events))
    ensures SameConfig(sv.service, Run(AsWritten, sv, events).service)
    decreases |events|
  {
    if |events| > 0 {
      var next := Advance(AsWritten, sv, events[0]);
      assert WithinLimit(next) && SameConfig(sv.service, next.service);
      RunAsWrittenInvariants(next, events[1..]);
    }
  }

  /** A fresh supervision satisfies the invariants. */
  lemma BeginInvariants(service: Service)
    ensures WithinLimit(Begin(service)) && AtRest(Begin(service))
  {
  }

  /** As written, a child that exits while a shutdown is queued leaves a finished
      supervision reporting `Running`. */
  lemma QueuedShutdownLeavesRunning(service: Service)
    requires GetState(service) == Running
    ensures var sv := Supervision(service, 0, Watching);
      var st := WatchAsWritten(sv, ChildExited(true, true));
      && st.next.phase == Finished(Completed)
      && GetState(st.next.service) == Running
      && !AtRest(st.next)
  {
  }

  /** A failed wait returns the error from the loop without writing any state, so the
      supervision ends in error with the service still `Running` and its pid kept; `AtRest`
      speaks only of a loop that returns normally. */
  lemma WaitErrorLeavesRunning(service: Service, reason: string, variant: Variant)
    requires GetState(service) == Running
    ensures var sv := Run(variant, Supervision(service, 0, Watching), [Observed(WaitFailed(reason))]);
      && sv.phase == Finished(Errored("failed while waiting for child process: " + reason))
      && GetState(sv.service) == Running && GetPid(sv.service) == GetPid(service)
      && AtRest(sv)
  {
    var events := [Observed(WaitFailed(reason))];
    assert events[1..] == [];
  }
}
