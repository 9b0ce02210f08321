/**
 * The supervisor protocol as a state machine: the runner of `command_start`, its service processes,
 * the `stop` command, and anybody else who signals the runner.
 */
module Supervisor {
  import opened CStrings
  import opened RestartPolicy

  type Pid = nat

  // ---------------------------------------------------------------------------------------------
  // States

  // Where the runner is in its main loop, named by what it does next.
  datatype Phase =
    | WritingPidfile | LoopTop | Forking
    | Installing | Unblocking | OpeningPidfd | Aborting | AbortWaiting | EnteringPoll
    | Polling | Waiting | Blocking(cause: Cause) | Deciding(cause: Cause) | Reporting | Sleeping
    | Unlinking | UnlinkingRunner | Finished
    | Destroyed  // by a SIGKILL

  datatype RunnerState = RunnerState(
    phase: Phase,
    flags: Flags,
    pending: set<Signal>,
    blocked: bool,        // SIGTERM, SIGQUIT, SIGINT and SIGUSR1
    chldBlocked: bool,
    chldHandler: bool,
    pidfd: bool,
    pidEvents: bool,      // the poll loop still waits for the child
    pipeEvents: bool)     // the poll loop still waits for the log pipe

  datatype Child =
    | Starting            // forked, pidfile not written yet
    | WrotePid
    | Serving             // after execv()
    | Failing(told: bool) // failed before execv(); `told`: the runner was signalled
    | Zombie(cause: Cause, told: bool)

  // `restarts` counts the restart signals handled up to the decision about the round.
  datatype Round = Round(cause: Cause, restartIssued: bool, restarts: nat)

  datatype Failure = NoFailure | PipeFailure | ForkFailure | PidfdFailure

  // What happened so far, for stating properties of whole runs.
  datatype History = History(
    started: bool,        // the main loop was entered
    forks: nat,
    lastFork: Pid,
    rounds: seq<Round>,   // one for every service process the main loop reaped
    stops: nat,           // stop signals the handler acted on
    restarts: nat,        // restart signals the handler acted on
    reports: nat,         // crash reporters started
    told: bool,           // a child failed before execv() and signalled the runner
    answered: nat,        // restart signals the handler had acted on when the last fork happened
    failure: Failure)     // the failed system call that made the runner leave

  datatype StopCommand =
    | Idle
    | ReadRunner(runner: Option<Pid>)
    | ReadBoth(runner: Option<Pid>, service: Option<Pid>)
    | Opened(target: Pid, viaRunner: bool, runner: Option<Pid>, service: Option<Pid>)
    | Signalled(target: Pid, viaRunner: bool, runner: Option<Pid>, service: Option<Pid>)
    | Exiting(target: Pid, viaRunner: bool)
    | TimingOut(runner: Option<Pid>, service: Option<Pid>)
    | Done(status: nat, viaRunner: bool)

  datatype State = State(
    runner: RunnerState,
    runnerGone: bool,     // reaped by its own parent
    children: map<Pid, Child>,
    used: set<Pid>,
    pidfile: Option<Pid>,
    pidfileRunner: Option<Pid>,
    stop: StopCommand,
    history: History)

  datatype Config = Config(policy: Policy, doPipe: bool, reporter: bool, sleeps: bool, runnerPid: Pid)

  // ---------------------------------------------------------------------------------------------
  // Events

  datatype PidfdResult = PidfdOpened | PidfdUnsupported | PidfdFailed

  // Steps of the runner's own code, with the outcome of the system call they make.
  datatype RunnerStep =
    | WritePidfile(ok: bool)
    | TestRunning(pipeOk: bool)
    | Fork(pid: Pid)
    | ForkFails
    | InstallHandlers
    | UnblockSignals
    | OpenPidfd(result: PidfdResult)
    | KillChild
    | ReapAborted
    | EnterPoll
    | Poll(pidReady: bool, pipeHup: bool)
    | Reap(reaped: Pid)
    | ReapNothing
    | ReapNoChild
    | BlockSignals
    | Decide
    | Report
    | Sleep
    | LeavePoll
    | UnlinkPidfile
    | UnlinkPidfileRunner

  datatype ChildStep = WritesPidfile | Fails(kill: bool) | Execs | Dies(cause: Cause) | ReapedByInit

  datatype StopStep =
    | ReadPidfileRunner
    | ReadPidfile
    | OpenTarget(ok: bool)
    | SendTerm(ok: bool)
    | TargetExited
    | PollFails
    | CheckTarget
    | TimesOut
    | UnlinksPidfile
    | KillsRunner
    | UnlinksPidfileRunner
    | GivesUp

  datatype Event =
    | Step(step: RunnerStep)
    | Deliver(signal: Signal)     // a pending signal interrupts the runner
    | DeliverChld
    | Post(signal: Signal)        // somebody who read the runner's pidfile signals it
    | ChildDoes(pid: Pid, childStep: ChildStep)
    | StopDoes(stopStep: StopStep)
    | ReapRunner
    | KillRunner

  // ---------------------------------------------------------------------------------------------
  // The runner

  predicate Alive(r: RunnerState) {
    r.phase != Finished && r.phase != Destroyed
  }

  // Pending signals that are not blocked are delivered before the next step.
  predicate Runnable(r: RunnerState) {
    Alive(r) && (r.blocked || r.pending == {})
  }

  predicate Matches(r: RunnerState, pid: Pid) {
    r.flags.servicePid == pid || r.flags.servicePid == -1
  }

  predicate ServiceDied(s: State) {
    var pid := s.runner.flags.servicePid;
    pid >= 0 && pid in s.children && s.children[pid].Zombie?
  }

  predicate CanPoll(s: State, pidReady: bool, pipeHup: bool) {
    var r := s.runner;
    && (r.pidEvents || r.pipeEvents)
    && (pidReady ==> r.pidEvents && r.pidfd && ServiceDied(s))
    && (pipeHup ==> r.pipeEvents)
  }

  predicate NothingToReap(s: State) {
    && (exists pid :: pid in s.children && Matches(s.runner, pid))
    && (forall pid :: pid in s.children && Matches(s.runner, pid) ==> !s.children[pid].Zombie?)
  }

  predicate NoChildToReap(s: State) {
    forall pid :: pid in s.children ==> !Matches(s.runner, pid)
  }

  predicate StepEnabled(c: Config, s: State, step: RunnerStep) {
    var r := s.runner;
    && Runnable(r)
    && match step
       case WritePidfile(_) => r.phase == WritingPidfile
       case TestRunning(_) => r.phase == LoopTop
       case Fork(pid) => r.phase == Forking && pid > 0 && pid !in s.used
       case ForkFails => r.phase == Forking
       case InstallHandlers => r.phase == Installing
       case UnblockSignals => r.phase == Unblocking
       case OpenPidfd(_) => r.phase == OpeningPidfd
       case KillChild => r.phase == Aborting
       case ReapAborted => r.phase == AbortWaiting && ServiceDied(s)
       case EnterPoll => r.phase == EnteringPoll
       case Poll(pidReady, pipeHup) => r.phase == Polling && CanPoll(s, pidReady, pipeHup)
       case Reap(pid) => r.phase == Waiting && pid in s.children && s.children[pid].Zombie? && Matches(r, pid)
       case ReapNothing => r.phase == Waiting && NothingToReap(s)
       case ReapNoChild => r.phase == Waiting && NoChildToReap(s)
       case BlockSignals => r.phase.Blocking?
       case Decide => r.phase.Deciding?
       case Report => r.phase == Reporting
       case Sleep => r.phase == Sleeping
       case LeavePoll => r.phase == Polling && !r.pidEvents && !r.pipeEvents
       case UnlinkPidfile => r.phase == Unlinking
       case UnlinkPidfileRunner => r.phase == UnlinkingRunner
  }

  function InPhase(s: State, phase: Phase): State {
    s.(runner := s.runner.(phase := phase))
  }

  function AfterWritePidfile(c: Config, s: State, ok: bool): State {
    if ok then
      s.(runner := s.runner.(phase := LoopTop, flags := s.runner.flags.(running := true)),
         pidfileRunner := Some(c.runnerPid),
         history := s.history.(started := true))
    else InPhase(s, Unlinking)
  }

  // The test of the main loop, and the pipe() behind it.
  function AfterTest(c: Config, s: State, pipeOk: bool): State {
    if !s.runner.flags.running then InPhase(s, Unlinking)
    else if c.doPipe && !pipeOk then InPhase(s, Unlinking).(history := s.history.(failure := PipeFailure))
    else InPhase(s, Forking)
  }

  function AfterFork(s: State, pid: Pid): State {
    s.(runner := s.runner.(phase := Installing, flags := s.runner.flags.(servicePid := pid)),
       children := s.children[pid := Starting],
       used := s.used + {pid},
       history := s.history.(forks := s.history.forks + 1, lastFork := pid, answered := s.history.restarts))
  }

  function AfterOpenPidfd(s: State, result: PidfdResult): State {
    if result == PidfdFailed then
      s.(runner := s.runner.(phase := Aborting, pidfd := false), history := s.history.(failure := PidfdFailure))
    else s.(runner := s.runner.(phase := EnteringPoll, pidfd := result == PidfdOpened))
  }

  function AfterPoll(s: State, pidReady: bool, pipeHup: bool): State {
    var r := s.runner.(pipeEvents := s.runner.pipeEvents && !pipeHup);
    if pidReady || r.flags.gotSigchld then
      s.(runner := r.(phase := Waiting, flags := r.flags.(gotSigchld := false)))
    else s.(runner := r)
  }

  function AfterReap(s: State, pid: Pid): State
    requires pid in s.children && s.children[pid].Zombie?
  {
    s.(runner := s.runner.(phase := Blocking(s.children[pid].cause)), children := s.children - {pid})
  }

  function SleepOrPoll(c: Config, r: RunnerState): Phase {
    if r.flags.running && c.sleeps then Sleeping else Polling
  }

  function AfterDecide(c: Config, s: State): State
    requires s.runner.phase.Deciding?
  {
    var cause := s.runner.phase.cause;
    var r := s.runner.(flags := OnReap(c.policy, s.runner.flags, cause), pidEvents := false);
    var phase := if !IsCrash(cause) then Polling else if c.reporter then Reporting else SleepOrPoll(c, r);
    s.(runner := r.(phase := phase),
       history := s.history.(rounds := s.history.rounds +
                                       [Round(cause, s.runner.flags.restartIssued, s.history.restarts)]))
  }

  function AfterForkFails(s: State): State {
    s.(runner := s.runner.(phase := Unlinking, flags := s.runner.flags.(servicePid := -1)),
       history := s.history.(failure := ForkFailure))
  }

  function AfterUnblock(s: State): State {
    s.(runner := s.runner.(phase := OpeningPidfd, blocked := false))
  }

  function AfterReapAborted(s: State): State {
    InPhase(s, Unlinking).(children := s.children - {s.runner.flags.servicePid})
  }

  function AfterEnterPoll(c: Config, s: State): State {
    s.(runner := s.runner.(phase := Polling, chldBlocked := false,
                           chldHandler := s.runner.chldHandler || !s.runner.pidfd,
                           pidEvents := true, pipeEvents := c.doPipe))
  }

  function AfterReapNoChild(s: State): State {
    s.(runner := s.runner.(phase := Polling, pidEvents := false))
  }

  function AfterBlock(s: State): State
    requires s.runner.phase.Blocking?
  {
    s.(runner := s.runner.(phase := Deciding(s.runner.phase.cause), blocked := true, chldBlocked := true))
  }

  function AfterReport(c: Config, s: State): State {
    InPhase(s, SleepOrPoll(c, s.runner)).(history := s.history.(reports := s.history.reports + 1))
  }

  function AfterLeavePoll(s: State): State {
    s.(runner := s.runner.(phase := LoopTop, pidfd := false))
  }

  function AfterUnlinkPidfile(s: State): State {
    InPhase(s, UnlinkingRunner).(pidfile := None)
  }

  function AfterUnlinkPidfileRunner(s: State): State {
    InPhase(s, Finished).(pidfileRunner := None)
  }

  function AfterStep(c: Config, s: State, step: RunnerStep): State
    requires StepEnabled(c, s, step)
  {
    match step
    case WritePidfile(ok) => AfterWritePidfile(c, s, ok)
    case TestRunning(pipeOk) => AfterTest(c, s, pipeOk)
    case Fork(pid) => AfterFork(s, pid)
    case ForkFails => AfterForkFails(s)
    case InstallHandlers => InPhase(s, Unblocking)
    case UnblockSignals => AfterUnblock(s)
    case OpenPidfd(result) => AfterOpenPidfd(s, result)
    case KillChild => InPhase(s, AbortWaiting)
    case ReapAborted => AfterReapAborted(s)
    case EnterPoll => AfterEnterPoll(c, s)
    case Poll(pidReady, pipeHup) => AfterPoll(s, pidReady, pipeHup)
    case Reap(pid) => AfterReap(s, pid)
    case ReapNothing => InPhase(s, Polling)
    case ReapNoChild => AfterReapNoChild(s)
    case BlockSignals => AfterBlock(s)
    case Decide => AfterDecide(c, s)
    case Report => AfterReport(c, s)
    case Sleep => InPhase(s, Polling)
    case LeavePoll => AfterLeavePoll(s)
    case UnlinkPidfile => AfterUnlinkPidfile(s)
    case UnlinkPidfileRunner => AfterUnlinkPidfileRunner(s)
  }

  // The signal handlers run on the flags only.
  function AfterDeliver(s: State, signal: Signal): State {
    var acted := s.runner.flags.servicePid != 0;
    s.(runner := s.runner.(flags := OnSignal(s.runner.flags, signal), pending := s.runner.pending - {signal}),
       history := if !acted then s.history
                  else if signal == Usr1 then s.history.(restarts := s.history.restarts + 1)
                  else s.history.(stops := s.history.stops + 1))
  }

  // kill(runner_pid, signal): no effect once the runner has ended.
  function Posted(s: State, signal: Signal): State {
    if Alive(s.runner) then s.(runner := s.runner.(pending := s.runner.pending + {signal})) else s
  }

  // ---------------------------------------------------------------------------------------------
  // Service processes

  predicate ChildEnabled(s: State, pid: Pid, act: ChildStep) {
    && pid in s.children
    && var child := s.children[pid];
       match act
       case WritesPidfile => child == Starting
       case Fails(_) => child == Starting || child == WrotePid
       case Execs => child == WrotePid
       case Dies(_) => !child.Zombie?
       case ReapedByInit => child.Zombie? && !Alive(s.runner)
  }

  function AfterFails(s: State, pid: Pid, kill: bool): State
    requires pid in s.children
  {
    var told := kill && Alive(s.runner);
    var t := if kill then Posted(s, Term) else s;
    t.(children := s.children[pid := Failing(told)], history := s.history.(told := s.history.told || told))
  }

  function AfterChild(s: State, pid: Pid, act: ChildStep): State
    requires ChildEnabled(s, pid, act)
  {
    var child := s.children[pid];
    match act
    case WritesPidfile => s.(children := s.children[pid := WrotePid], pidfile := Some(pid))
    case Fails(kill) => AfterFails(s, pid, kill)
    case Execs => s.(children := s.children[pid := Serving])
    case Dies(cause) => s.(children := s.children[pid := Zombie(cause, child.Failing? && child.told)])
    case ReapedByInit => s.(children := s.children - {pid})
  }

  // ---------------------------------------------------------------------------------------------
  // The stop command, on the pidfd path

  // PIDs are not reused, so a PID names its process until that is reaped.
  predicate Exists(c: Config, s: State, pid: Pid) {
    (pid == c.runnerPid && !s.runnerGone) || pid in s.children
  }

  predicate HasExited(c: Config, s: State, pid: Pid) {
    if pid == c.runnerPid then !Alive(s.runner)
    else pid in s.children ==> s.children[pid].Zombie?
  }

  predicate StopEnabled(c: Config, s: State, act: StopStep) {
    match act
    case ReadPidfileRunner => s.stop == Idle
    case ReadPidfile => s.stop.ReadRunner?
    case OpenTarget(ok) => s.stop.ReadBoth? && (ok ==> Exists(c, s, Target(s.stop).0))
    case SendTerm(_) => s.stop.Opened?
    case TargetExited => s.stop.Signalled? && HasExited(c, s, s.stop.target)
    case PollFails => s.stop.Signalled?
    case CheckTarget => s.stop.Exiting?
    case TimesOut => s.stop.Signalled?
    case UnlinksPidfile => s.stop.TimingOut? && s.stop.service.Some? && s.pidfile == s.stop.service
    case KillsRunner => s.stop.TimingOut? && s.stop.runner == Some(c.runnerPid)
    case UnlinksPidfileRunner => s.stop.TimingOut? && s.stop.runner.Some? && s.pidfileRunner == s.stop.runner
    case GivesUp => s.stop.TimingOut?
  }

  // The runner if its pidfile could be read, else the service.
  function Target(stop: StopCommand): (Pid, bool)
    requires stop.ReadBoth?
  {
    if stop.runner.Some? then (stop.runner.value, true)
    else if stop.service.Some? then (stop.service.value, false)
    else (0, false)
  }

  function AfterOpenTarget(s: State, ok: bool): State
    requires s.stop.ReadBoth?
  {
    if s.stop.runner.None? && s.stop.service.None? then
      // not running
      s.(stop := Done(0, false))
    else
      var (target, viaRunner) := Target(s.stop);
      s.(stop := if ok then Opened(target, viaRunner, s.stop.runner, s.stop.service) else Done(1, viaRunner))
  }

  function AfterSendTerm(c: Config, s: State, ok: bool): State
    requires s.stop.Opened?
  {
    var stop := s.stop;
    if !ok then s.(stop := Done(1, stop.viaRunner))
    else
      var t := if stop.target == c.runnerPid then Posted(s, Term) else s;
      t.(stop := Signalled(stop.target, stop.viaRunner, stop.runner, stop.service))
  }

  function AfterStop(c: Config, s: State, act: StopStep): State
    requires StopEnabled(c, s, act)
  {
    match act
    case ReadPidfileRunner => s.(stop := ReadRunner(s.pidfileRunner))
    case ReadPidfile => s.(stop := ReadBoth(s.stop.runner, s.pidfile))
    case OpenTarget(ok) => AfterOpenTarget(s, ok)
    case SendTerm(ok) => AfterSendTerm(c, s, ok)
    case TargetExited => s.(stop := Exiting(s.stop.target, s.stop.viaRunner))
    case PollFails => s.(stop := Done(1, s.stop.viaRunner))
    case CheckTarget => s.(stop := Done(if Exists(c, s, s.stop.target) then 1 else 0, s.stop.viaRunner))
    case TimesOut => s.(stop := TimingOut(s.stop.runner, s.stop.service))
    case UnlinksPidfile => s.(pidfile := None)
    case KillsRunner => Destroy(s)
    case UnlinksPidfileRunner => s.(pidfileRunner := None)
    case GivesUp => s.(stop := Done(1, s.stop.runner.Some?))
  }

  function Destroy(s: State): State {
    if Alive(s.runner) then InPhase(s, Destroyed) else s
  }

  // ---------------------------------------------------------------------------------------------
  // Runs

  predicate Enabled(c: Config, s: State, e: Event) {
    match e
    case Step(step) => StepEnabled(c, s, step)
    case Deliver(signal) => Alive(s.runner) && !s.runner.blocked && signal in s.runner.pending
    case DeliverChld => Alive(s.runner) && !s.runner.chldBlocked && s.runner.chldHandler
    case Post(_) => s.history.started && !s.runnerGone
    case ChildDoes(pid, act) => ChildEnabled(s, pid, act)
    case StopDoes(act) => StopEnabled(c, s, act)
    case ReapRunner => !Alive(s.runner)
    case KillRunner => Alive(s.runner)
  }

  function Apply(c: Config, s: State, e: Event): State
    requires Enabled(c, s, e)
  {
    match e
    case Step(step) => AfterStep(c, s, step)
    case Deliver(signal) => AfterDeliver(s, signal)
    case DeliverChld => s.(runner := s.runner.(flags := OnChild(s.runner.flags)))
    case Post(signal) => Posted(s, signal)
    case ChildDoes(pid, act) => AfterChild(s, pid, act)
    case StopDoes(act) => AfterStop(c, s, act)
    case ReapRunner => s.(runnerGone := true)
    case KillRunner => Destroy(s)
  }

  // All signals are blocked and stale runner pidfiles are gone; a stale service pidfile may exist.
  predicate Init(c: Config, s: State) {
    && c.runnerPid > 0
    && s.runner == RunnerState(WritingPidfile, Flags(false, false, false, 0), {}, true, true,
                               false, false, false, false)
    && !s.runnerGone && s.children == map[] && s.used == {c.runnerPid}
    && s.pidfileRunner == None && s.stop == Idle
    && s.history == History(false, 0, 0, [], 0, 0, 0, false, 0, NoFailure)
  }

  predicate Happens(c: Config, s: State, e: Event, t: State) {
    Enabled(c, s, e) && t == Apply(c, s, e)
  }

  // The events lead from each state of the trace to the next.
  predicate IsRun(c: Config, trace: seq<State>, events: seq<Event>) {
    && |trace| == |events| + 1
    && forall i {:trigger events[i]} :: 0 <= i < |events| ==> Happens(c, trace[i], events[i], trace[i + 1])
  }

  // Some run leads from one state to another.
  ghost predicate Leads(c: Config, s: State, t: State) {
    exists trace: seq<State>, events: seq<Event> ::
      IsRun(c, trace, events) && trace[0] == s && trace[|events|] == t
  }

  ghost predicate Reachable(c: Config, s: State) {
    exists init: State :: Init(c, init) && Leads(c, init, s)
  }

  lemma LeadsStep(c: Config, s: State, e: Event)
    requires Enabled(c, s, e)
    ensures Leads(c, s, Apply(c, s, e))
  {
    hide Enabled, Apply;
    var trace, events := [s, Apply(c, s, e)], [e];
    assert Happens(c, trace[0], events[0], trace[1]);
    assert IsRun(c, trace, events) && trace[0] == s && trace[|events|] == Apply(c, s, e);
  }

  lemma LeadsOn(c: Config, s: State, t: State, u: State)
    requires Leads(c, s, t) && Leads(c, t, u)
    ensures Leads(c, s, u)
  {
    hide Happens;
    var a, p :| IsRun(c, a, p) && a[0] == s && a[|p|] == t;
    var b, q :| IsRun(c, b, q) && b[0] == t && b[|q|] == u;
    var trace, events := a + b[1..], p + q;
    forall i | 0 <= i < |events| ensures Happens(c, trace[i], events[i], trace[i + 1]) {
      if i < |p| {
        assert p[i] == events[i];
      } else {
        assert q[i - |p|] == events[i];
      }
    }
    assert IsRun(c, trace, events) && trace[0] == s && trace[|events|] == u;
  }
}
