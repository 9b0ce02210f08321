/** The inductive invariant of the supervisor protocol. */
module SupervisorInvariant {
  import opened CStrings
  import opened RestartPolicy
  import opened Supervisor

  // ---------------------------------------------------------------------------------------------
  // The invariant

  predicate PollsForChild(r: RunnerState) {
    (r.phase == Polling || r.phase == Waiting) && r.pidEvents
  }

  predicate PollsForPipe(r: RunnerState) {
    (r.phase == Polling || r.phase == Waiting) && !r.pidEvents
  }

  // The current service process was forked and not reaped yet.
  predicate HasChild(r: RunnerState) {
    || r.phase == Installing || r.phase == Unblocking || r.phase == OpeningPidfd
    || r.phase == Aborting || r.phase == AbortWaiting || r.phase == EnteringPoll
    || PollsForChild(r)
  }

  predicate BeforeFork(r: RunnerState) {
    || r.phase == WritingPidfile || r.phase == LoopTop || r.phase == Forking
    || r.phase == Reporting || r.phase == Sleeping || PollsForPipe(r)
  }

  predicate Leaving(r: RunnerState) {
    r.phase == Unlinking || r.phase == UnlinkingRunner || r.phase == Finished
  }

  // At most one unreaped service process, the most recently forked one.
  predicate ChildInv(s: State) {
    && s.children.Keys <= {s.history.lastFork}
    && (s.runner.phase != Destroyed ==>
          if HasChild(s.runner)
          then s.children.Keys == {s.history.lastFork} && s.runner.flags.servicePid == s.history.lastFork
          else s.children.Keys == {})
  }

  // Where the stop and restart signals are blocked, and what `service_pid` is where they are not.
  predicate MaskInv(s: State) {
    var r := s.runner;
    && (BeforeFork(r) || r.phase == Installing || r.phase == Unblocking || r.phase.Deciding? ==> r.blocked)
    && (HasChild(r) && r.phase != Installing && r.phase != Unblocking ==> !r.blocked)
    && (r.phase.Blocking? ==> !r.blocked)
    && (!r.blocked ==> r.flags.servicePid == s.history.lastFork > 0)
    && (HasChild(r) ==> s.history.lastFork > 0)
    && (r.phase == Reporting || r.phase == Sleeping ==> !r.pidEvents)
  }

  predicate CleanupInv(c: Config, s: State) {
    && (s.pidfileRunner == None || s.pidfileRunner == Some(c.runnerPid))
    && (s.runner.phase == UnlinkingRunner ==> s.pidfile == None)
    && (s.runner.phase == Finished ==> s.pidfile == None && s.pidfileRunner == None)
    && (s.runnerGone ==> !Alive(s.runner))
    && c.runnerPid !in s.children
    && c.runnerPid in s.used
    && s.children.Keys <= s.used
  }

  predicate StopPending(r: RunnerState) {
    Term in r.pending || Quit in r.pending || Int in r.pending
  }

  // A child that failed before execv() and told the runner has stopped the restart loop, or its
  // signal is still to be delivered, and that happens before the child is reaped.
  predicate ToldInv(s: State) {
    && (s.history.told && s.runner.flags.running && Alive(s.runner) ==> StopPending(s.runner) && HasChild(s.runner))
    && (forall pid :: pid in s.children ==>
          var child := s.children[pid]; (child.Failing? || child.Zombie?) && child.told ==> s.history.told)
    && (s.history.told ==> s.history.started)
  }

  predicate AllContinue(policy: Policy, rounds: seq<Round>) {
    forall i :: 0 <= i < |rounds| ==> Continues(policy, rounds[i].cause, rounds[i].restartIssued)
  }

  // The flag `running` is a fold of the decision over the rounds.
  predicate DecisionInv(c: Config, s: State) {
    var h := s.history;
    && (s.runner.flags.running <==> h.started && h.stops == 0 && AllContinue(c.policy, h.rounds))
    && (s.runner.phase == Forking ==> s.runner.flags.running)
    && (s.runner.phase == WritingPidfile ==> !h.started)
    && (s.runner.phase != WritingPidfile && !Leaving(s.runner) && s.runner.phase != Destroyed ==> h.started)
    && (!h.started ==> h.forks == 0 && h.lastFork == 0 && h.stops == 0 && h.rounds == [])
  }

  predicate RoundInv(c: Config, s: State) {
    var h, r := s.history, s.runner;
    && |h.rounds| <= h.forks <= |h.rounds| + 1
    && (BeforeFork(r) ==> h.forks == |h.rounds|)
    && (HasChild(r) || r.phase.Blocking? || r.phase.Deciding? ==> h.forks == |h.rounds| + 1)
    && (h.forks > 0 ==> AllContinue(c.policy, h.rounds[..h.forks - 1]))
  }

  function Requested(rounds: seq<Round>): nat {
    if rounds == [] then 0
    else Requested(rounds[..|rounds| - 1]) + if rounds[|rounds| - 1].restartIssued then 1 else 0
  }

  function Crashes(rounds: seq<Round>): nat {
    if rounds == [] then 0
    else Crashes(rounds[..|rounds| - 1]) + if IsCrash(rounds[|rounds| - 1].cause) then 1 else 0
  }

  // Every restart request is used at most once; the reporter is started once per crash.
  predicate CountInv(c: Config, s: State) {
    var h, r := s.history, s.runner;
    && Requested(h.rounds) + (if r.flags.restartIssued then 1 else 0) <= h.restarts
    && (c.reporter ==> h.reports <= Crashes(h.rounds))
    && (c.reporter && r.phase != Destroyed ==>
          h.reports + (if r.phase == Reporting then 1 else 0) == Crashes(h.rounds))
    && (r.phase == Reporting ==> c.reporter)
    && (!c.reporter ==> h.reports == 0)
  }

  predicate StopInv(c: Config, s: State) {
    match s.stop
    case ReadRunner(runner) => runner.Some? ==> runner == Some(c.runnerPid)
    case ReadBoth(runner, _) => runner.Some? ==> runner == Some(c.runnerPid)
    case Opened(target, viaRunner, _, _) => viaRunner ==> target == c.runnerPid
    case Signalled(target, viaRunner, _, _) => viaRunner ==> target == c.runnerPid
    case Exiting(target, viaRunner) => viaRunner ==> target == c.runnerPid
    case Done(status, viaRunner) => status == 0 && viaRunner ==> s.runnerGone
    case _ => true
  }

  predicate Inv(c: Config, s: State) {
    && ChildInv(s) && MaskInv(s) && CleanupInv(c, s) && ToldInv(s)
    && DecisionInv(c, s) && RoundInv(c, s) && CountInv(c, s) && StopInv(c, s)
  }

  // ---------------------------------------------------------------------------------------------
  // It holds initially and every event keeps it

  lemma InitInv(c: Config, s: State)
    requires Init(c, s)
    ensures Inv(c, s)
  {
  }

  lemma RunnerWrittenKept(c: Config, s: State, ok: bool)
    requires Inv(c, s) && s.runner.phase == WritingPidfile
    ensures Inv(c, AfterWritePidfile(c, s, ok))
  {
    hide Continues, Requested, Crashes, IsCrash;
  }

  lemma LoopEndedKept(c: Config, s: State)
    requires Inv(c, s) && s.runner.phase == LoopTop && !s.runner.flags.running
    ensures Inv(c, InPhase(s, Unlinking))
  {
    hide AllContinue, Continues, Requested, Crashes, IsCrash;
  }

  lemma LoopFailedKept(c: Config, s: State)
    requires Inv(c, s) && s.runner.phase == LoopTop
    ensures Inv(c, InPhase(s, Unlinking).(history := s.history.(failure := PipeFailure)))
  {
    hide AllContinue, Continues, Requested, Crashes, IsCrash;
  }

  lemma LoopGoesOnKept(c: Config, s: State)
    requires Inv(c, s) && s.runner.phase == LoopTop && s.runner.flags.running
    ensures Inv(c, InPhase(s, Forking))
  {
    hide AllContinue, Continues, Requested, Crashes, IsCrash;
  }

  lemma LoopTestedKept(c: Config, s: State, pipeOk: bool)
    requires Inv(c, s) && s.runner.phase == LoopTop
    ensures Inv(c, AfterTest(c, s, pipeOk))
  {
    hide Inv, InPhase;
    if !s.runner.flags.running {
      LoopEndedKept(c, s);
    } else {
      LoopFailedKept(c, s);
      LoopGoesOnKept(c, s);
    }
  }

  lemma ForkKept(c: Config, s: State, pid: Pid)
    requires Inv(c, s) && s.runner.phase == Forking && pid > 0 && pid !in s.used
    ensures Inv(c, AfterFork(s, pid))
  {
    hide Continues, Requested, Crashes, IsCrash;
  }

  lemma ForkFailsKept(c: Config, s: State)
    requires Inv(c, s) && s.runner.phase == Forking
    ensures Inv(c, AfterForkFails(s))
  {
    hide AllContinue, Continues, Requested, Crashes, IsCrash;
  }

  lemma InstallKept(c: Config, s: State)
    requires Inv(c, s) && s.runner.phase == Installing
    ensures Inv(c, InPhase(s, Unblocking))
  {
    hide AllContinue, Continues, Requested, Crashes, IsCrash;
  }

  lemma UnblockKept(c: Config, s: State)
    requires Inv(c, s) && s.runner.phase == Unblocking
    ensures Inv(c, AfterUnblock(s))
  {
    hide AllContinue, Continues, Requested, Crashes, IsCrash;
  }

  lemma PidfdFailedKept(c: Config, s: State)
    requires Inv(c, s) && s.runner.phase == OpeningPidfd
    ensures Inv(c, AfterOpenPidfd(s, PidfdFailed))
  {
    hide AllContinue, Continues, Requested, Crashes, IsCrash;
  }

  lemma PidfdTriedKept(c: Config, s: State, pidfd: bool)
    requires Inv(c, s) && s.runner.phase == OpeningPidfd
    ensures Inv(c, s.(runner := s.runner.(phase := EnteringPoll, pidfd := pidfd)))
  {
    hide AllContinue, Continues, Requested, Crashes, IsCrash;
  }

  lemma OpenPidfdKept(c: Config, s: State, result: PidfdResult)
    requires Inv(c, s) && s.runner.phase == OpeningPidfd
    ensures Inv(c, AfterOpenPidfd(s, result))
  {
    hide Inv;
    if result == PidfdFailed {
      PidfdFailedKept(c, s);
    } else {
      PidfdTriedKept(c, s, result == PidfdOpened);
    }
  }

  lemma KillChildKept(c: Config, s: State)
    requires Inv(c, s) && s.runner.phase == Aborting
    ensures Inv(c, InPhase(s, AbortWaiting))
  {
    hide AllContinue, Continues, Requested, Crashes, IsCrash;
  }

  lemma ReapAbortedKept(c: Config, s: State)
    requires Inv(c, s) && Runnable(s.runner) && s.runner.phase == AbortWaiting
    ensures Inv(c, AfterReapAborted(s))
  {
    hide AllContinue, Continues, Requested, Crashes, IsCrash;
  }

  // Between two polls only the phase, the pipe's events and the SIGCHLD flag change.
  lemma PollMoved(c: Config, s: State, phase: Phase, pipeEvents: bool, gotSigchld: bool)
    requires Inv(c, s) && s.runner.phase == Polling && (phase == Polling || phase == Waiting)
    ensures Inv(c, s.(runner := s.runner.(phase := phase, pipeEvents := pipeEvents,
                                          flags := s.runner.flags.(gotSigchld := gotSigchld))))
  {
    hide AllContinue, Continues, Requested, Crashes, IsCrash;
  }

  lemma PollKept(c: Config, s: State, pidReady: bool, pipeHup: bool)
    requires Inv(c, s) && s.runner.phase == Polling
    ensures Inv(c, AfterPoll(s, pidReady, pipeHup))
  {
    hide Inv;
    var pipeEvents := s.runner.pipeEvents && !pipeHup;
    PollMoved(c, s, Polling, pipeEvents, s.runner.flags.gotSigchld);
    PollMoved(c, s, Waiting, pipeEvents, false);
  }

  lemma EnterPollKept(c: Config, s: State)
    requires Inv(c, s) && s.runner.phase == EnteringPoll
    ensures Inv(c, AfterEnterPoll(c, s))
  {
    hide AllContinue, Continues, Requested, Crashes, IsCrash;
  }

  lemma LeavePollKept(c: Config, s: State)
    requires Inv(c, s) && s.runner.phase == Polling && !s.runner.pidEvents
    ensures Inv(c, AfterLeavePoll(s))
  {
    hide AllContinue, Continues, Requested, Crashes, IsCrash;
  }

  lemma ReapKept(c: Config, s: State, pid: Pid)
    requires Inv(c, s) && Runnable(s.runner) && s.runner.phase == Waiting
    requires pid in s.children && s.children[pid].Zombie?
    ensures Inv(c, AfterReap(s, pid))
  {
    hide AllContinue, Continues, Requested, Crashes, IsCrash;
  }

  lemma BlockKept(c: Config, s: State)
    requires Inv(c, s) && Runnable(s.runner) && s.runner.phase.Blocking?
    ensures Inv(c, AfterBlock(s))
  {
    hide AllContinue, Continues, Requested, Crashes, IsCrash;
  }

  lemma ReapNothingKept(c: Config, s: State)
    requires Inv(c, s) && s.runner.phase == Waiting
    ensures Inv(c, InPhase(s, Polling))
  {
    hide AllContinue, Continues, Requested, Crashes, IsCrash;
  }

  lemma ReapNoChildKept(c: Config, s: State)
    requires Inv(c, s) && s.runner.phase == Waiting && NoChildToReap(s)
    ensures Inv(c, AfterReapNoChild(s))
  {
    hide AllContinue, Continues, Requested, Crashes, IsCrash;
  }

  lemma RoundAdded(policy: Policy, rounds: seq<Round>, round: Round)
    ensures AllContinue(policy, rounds + [round])
      <==> AllContinue(policy, rounds) && Continues(policy, round.cause, round.restartIssued)
    ensures Requested(rounds + [round]) == Requested(rounds) + if round.restartIssued then 1 else 0
    ensures Crashes(rounds + [round]) == Crashes(rounds) + if IsCrash(round.cause) then 1 else 0
    ensures (rounds + [round])[..|rounds|] == rounds == rounds[..|rounds|]
  {
    hide Continues, IsCrash;
    var all := rounds + [round];
    assert all[..|rounds|] == rounds && all[|rounds|] == round;
    assert forall i :: 0 <= i < |rounds| ==> all[i] == rounds[i];
  }

  lemma DecideKept(c: Config, s: State)
    requires Inv(c, s) && s.runner.phase.Deciding?
    ensures Inv(c, AfterDecide(c, s))
  {
    hide AllContinue, Continues, Requested, Crashes, IsCrash;
    RoundAdded(c.policy, s.history.rounds,
               Round(s.runner.phase.cause, s.runner.flags.restartIssued, s.history.restarts));
  }

  lemma ReportKept(c: Config, s: State)
    requires Inv(c, s) && s.runner.phase == Reporting
    ensures Inv(c, AfterReport(c, s))
  {
    hide AllContinue, Continues, Requested, Crashes, IsCrash;
  }

  lemma SleepKept(c: Config, s: State)
    requires Inv(c, s) && s.runner.phase == Sleeping
    ensures Inv(c, InPhase(s, Polling))
  {
    hide AllContinue, Continues, Requested, Crashes, IsCrash;
  }

  lemma UnlinkPidfileKept(c: Config, s: State)
    requires Inv(c, s) && s.runner.phase == Unlinking
    ensures Inv(c, AfterUnlinkPidfile(s))
  {
    hide AllContinue, Continues, Requested, Crashes, IsCrash;
  }

  lemma UnlinkPidfileRunnerKept(c: Config, s: State)
    requires Inv(c, s) && s.runner.phase == UnlinkingRunner
    ensures Inv(c, AfterUnlinkPidfileRunner(s))
  {
    hide AllContinue, Continues, Requested, Crashes, IsCrash;
  }

  lemma StopDeliverKept(c: Config, s: State, signal: Signal)
    requires signal != Usr1
    requires Inv(c, s) && Enabled(c, s, Deliver(signal))
    ensures Inv(c, AfterDeliver(s, signal))
  {
    hide AllContinue, Continues, Requested, Crashes, IsCrash;
  }

  lemma RestartDeliverKept(c: Config, s: State)
    requires Inv(c, s) && Enabled(c, s, Deliver(Usr1))
    ensures Inv(c, AfterDeliver(s, Usr1))
  {
    hide AllContinue, Continues, Requested, Crashes, IsCrash;
  }

  lemma ChldDeliverKept(c: Config, s: State)
    requires Inv(c, s)
    ensures Inv(c, s.(runner := s.runner.(flags := OnChild(s.runner.flags))))
  {
    hide AllContinue, Continues, Requested, Crashes, IsCrash;
  }

  lemma RunnerGoneKept(c: Config, s: State)
    requires Inv(c, s) && !Alive(s.runner)
    ensures Inv(c, s.(runnerGone := true))
  {
    hide AllContinue, Continues, Requested, Crashes, IsCrash;
  }

  lemma PostedKept(c: Config, s: State, signal: Signal)
    requires Inv(c, s)
    ensures Inv(c, Posted(s, signal))
  {
    hide AllContinue, Continues, Requested, Crashes, IsCrash;
  }

  lemma DestroyKept(c: Config, s: State)
    requires Inv(c, s)
    ensures Inv(c, Destroy(s))
  {
    hide AllContinue, Continues, Requested, Crashes, IsCrash;
  }

  lemma ChildMoved(c: Config, s: State, pid: Pid, child: Child)
    requires Inv(c, s) && pid in s.children
    requires (child.Failing? || child.Zombie?) && child.told ==> s.history.told
    ensures Inv(c, s.(children := s.children[pid := child]))
  {
    hide AllContinue, Continues, Requested, Crashes, IsCrash;
    assert s.children[pid := child].Keys == s.children.Keys;
  }

  lemma PidfileWritten(c: Config, s: State, pid: Pid)
    requires Inv(c, s) && pid in s.children
    ensures Inv(c, s.(pidfile := Some(pid)))
  {
    hide AllContinue, Continues, Requested, Crashes, IsCrash;
  }

  lemma OrphanReaped(c: Config, s: State, pid: Pid)
    requires Inv(c, s) && pid in s.children && !Alive(s.runner)
    ensures Inv(c, s.(children := s.children - {pid}))
  {
    hide AllContinue, Continues, Requested, Crashes, IsCrash;
  }

  // A failing child changes its own state and, if it told the runner, leaves the signal pending.
  lemma ChildFailsKept(c: Config, s: State, pid: Pid, kill: bool)
    requires Inv(c, s) && pid in s.children && !s.children[pid].Zombie?
    ensures Inv(c, AfterFails(s, pid, kill))
  {
    if kill {
      PostedKept(c, s, Term);
    }
  }

  // The stop command reads and signals; its own state is all it changes otherwise.
  lemma StopMoved(c: Config, s: State, stop: StopCommand)
    requires Inv(c, s) && StopInv(c, s.(stop := stop))
    ensures Inv(c, s.(stop := stop))
  {
    hide AllContinue, Continues, Requested, Crashes, IsCrash;
  }

  lemma PidfilesUnlinked(c: Config, s: State)
    requires Inv(c, s)
    ensures Inv(c, s.(pidfile := None)) && Inv(c, s.(pidfileRunner := None))
  {
    hide AllContinue, Continues, Requested, Crashes, IsCrash;
  }

  lemma StopInvKept(c: Config, s: State, act: StopStep)
    requires CleanupInv(c, s) && StopInv(c, s) && StopEnabled(c, s, act)
    ensures StopInv(c, AfterStop(c, s, act))
  {
  }

  lemma StopKept(c: Config, s: State, act: StopStep)
    requires Inv(c, s) && StopEnabled(c, s, act)
    ensures Inv(c, AfterStop(c, s, act))
  {
    assert CleanupInv(c, s) && StopInv(c, s);
    StopInvKept(c, s, act);
    hide Inv, StopInv, CleanupInv;
    var t := AfterStop(c, s, act);
    if act.UnlinksPidfile? || act.UnlinksPidfileRunner? {
      PidfilesUnlinked(c, s);
    } else if act.KillsRunner? {
      DestroyKept(c, s);
    } else if act.SendTerm? && act.ok && s.stop.target == c.runnerPid {
      PostedKept(c, s, Term);
      StopMoved(c, Posted(s, Term), t.stop);
    } else {
      StopMoved(c, s, t.stop);
    }
  }

  lemma StepKept(c: Config, s: State, step: RunnerStep)
    requires Inv(c, s) && StepEnabled(c, s, step)
    ensures Inv(c, AfterStep(c, s, step))
  {
    hide Inv, InPhase, AfterWritePidfile, AfterTest, AfterFork, AfterForkFails, AfterUnblock, AfterOpenPidfd;
    hide AfterReapAborted, AfterEnterPoll, AfterPoll, AfterReap, AfterReapNoChild, AfterBlock, AfterDecide, AfterReport;
    hide AfterLeavePoll, AfterUnlinkPidfile, AfterUnlinkPidfileRunner;
    hide ServiceDied, CanPoll, NothingToReap, NoChildToReap, Matches;
    match step
    case WritePidfile(ok) => RunnerWrittenKept(c, s, ok);
    case TestRunning(pipeOk) => LoopTestedKept(c, s, pipeOk);
    case Fork(pid) => ForkKept(c, s, pid);
    case ForkFails => ForkFailsKept(c, s);
    case InstallHandlers => InstallKept(c, s);
    case UnblockSignals => UnblockKept(c, s);
    case OpenPidfd(result) => OpenPidfdKept(c, s, result);
    case KillChild => KillChildKept(c, s);
    case ReapAborted => ReapAbortedKept(c, s);
    case EnterPoll => EnterPollKept(c, s);
    case Poll(pidReady, pipeHup) => PollKept(c, s, pidReady, pipeHup);
    case Reap(pid) => ReapKept(c, s, pid);
    case ReapNothing => ReapNothingKept(c, s);
    case ReapNoChild => ReapNoChildKept(c, s);
    case BlockSignals => BlockKept(c, s);
    case Decide => DecideKept(c, s);
    case Report => ReportKept(c, s);
    case Sleep => SleepKept(c, s);
    case LeavePoll => LeavePollKept(c, s);
    case UnlinkPidfile => UnlinkPidfileKept(c, s);
    case UnlinkPidfileRunner => UnlinkPidfileRunnerKept(c, s);
  }

  lemma ChildKept(c: Config, s: State, pid: Pid, act: ChildStep)
    requires Inv(c, s) && ChildEnabled(s, pid, act)
    ensures Inv(c, AfterChild(s, pid, act))
  {
    hide Inv;
    match act
    case WritesPidfile =>
      ChildMoved(c, s, pid, WrotePid);
      PidfileWritten(c, s.(children := s.children[pid := WrotePid]), pid);
    case Execs => ChildMoved(c, s, pid, Serving);
    case Fails(kill) => ChildFailsKept(c, s, pid, kill);
    case Dies(_) =>
      ToldChild(c, s, pid);
      ChildMoved(c, s, pid, AfterChild(s, pid, act).children[pid]);
    case ReapedByInit => OrphanReaped(c, s, pid);
  }

  lemma ToldChild(c: Config, s: State, pid: Pid)
    requires Inv(c, s) && pid in s.children
    ensures (s.children[pid].Failing? || s.children[pid].Zombie?) && s.children[pid].told ==> s.history.told
  {
  }

  /** Every event keeps the invariant, in every interleaving of the parties. */
  lemma InvKept(c: Config, s: State, e: Event)
    requires Inv(c, s) && Enabled(c, s, e)
    ensures Inv(c, Apply(c, s, e))
  {
    hide Inv, StepEnabled, AfterStep, ChildEnabled, AfterChild, StopEnabled, AfterStop, Posted, Destroy;
    match e
    case Step(step) => StepKept(c, s, step);
    case Deliver(signal) => if signal == Usr1 { RestartDeliverKept(c, s); } else { StopDeliverKept(c, s, signal); }
    case DeliverChld => ChldDeliverKept(c, s);
    case Post(signal) => PostedKept(c, s, signal);
    case ChildDoes(pid, act) => ChildKept(c, s, pid, act);
    case StopDoes(act) => StopKept(c, s, act);
    case ReapRunner => RunnerGoneKept(c, s);
    case KillRunner => DestroyKept(c, s);
  }

  lemma HappensInv(c: Config, s: State, e: Event, t: State)
    requires Inv(c, s) && Happens(c, s, e, t)
    ensures Inv(c, t)
  {
    hide Inv, Enabled, Apply;
    InvKept(c, s, e);
  }

  lemma {:induction false} RunInv(c: Config, trace: seq<State>, events: seq<Event>, i: nat)
    requires IsRun(c, trace, events) && i <= |events| && Inv(c, trace[0])
    ensures Inv(c, trace[i])
    decreases i
  {
    hide Inv, Happens;
    if i > 0 {
      RunInv(c, trace, events, i - 1);
      assert Happens(c, trace[i - 1], events[i - 1], trace[i]);
      HappensInv(c, trace[i - 1], events[i - 1], trace[i]);
    }
  }

  lemma LeadsInv(c: Config, s: State, t: State)
    requires Inv(c, s) && Leads(c, s, t)
    ensures Inv(c, t)
  {
    hide Inv, Happens;
    var trace, events :| IsRun(c, trace, events) && trace[0] == s && trace[|events|] == t;
    RunInv(c, trace, events, |events|);
  }

  lemma ReachableInv(c: Config, s: State)
    requires Reachable(c, s)
    ensures Inv(c, s)
  {
    hide Inv, Leads;
    var init :| Init(c, init) && Leads(c, init, s);
    InitInv(c, init);
    LeadsInv(c, init, s);
  }
}
