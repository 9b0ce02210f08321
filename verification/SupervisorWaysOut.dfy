/** The ways out of the main loop, and when a restart request that was handled stays unanswered. */
module SupervisorWaysOut {
  import opened RestartPolicy
  import opened Supervisor
  import opened SupervisorInvariant
  import opened SupervisorRequests

  // ---------------------------------------------------------------------------------------------
  // The invariant

  predicate IsAborting(r: RunnerState) {
    r.phase == Aborting || r.phase == AbortWaiting
  }

  // How many requests the last fork answered.
  predicate AnsweredInv(h: History) {
    && (h.forks == 0 ==> h.answered == 0)
    && (h.forks > 0 ==> h.forks - 1 <= |h.rounds| && h.answered == Before(h.rounds, h.forks - 1))
  }

  // What the runner looks like once it has left the main loop, for each way out.
  predicate LeftInv(r: RunnerState, h: History) {
    match h.failure
    case NoFailure => r.blocked && !r.flags.restartIssued && !r.flags.running && h.forks == |h.rounds|
    case PidfdFailure => h.forks == |h.rounds| + 1
    case _ => r.blocked && !r.flags.restartIssued && r.flags.running && h.forks == |h.rounds|
  }

  predicate FailureInv(r: RunnerState, h: History) {
    && (IsAborting(r) ==> h.failure == PidfdFailure)
    && (r.phase != Destroyed && !IsAborting(r) && !Leaving(r) ==> h.failure == NoFailure)
    && (Leaving(r) ==> LeftInv(r, h))
  }

  predicate WayOutInv(s: State) {
    && AnsweredInv(s.history)
    && (BeforeFork(s.runner) ==> !s.runner.flags.restartIssued)
    && FailureInv(s.runner, s.history)
  }

  // What the proofs need of the rest.
  predicate Context(c: Config, s: State) {
    ChildInv(s) && MaskInv(s) && DecisionInv(c, s) && RoundInv(c, s) && RequestInv(s)
  }

  // ---------------------------------------------------------------------------------------------
  // Every event keeps it

  lemma WrittenKeeps(c: Config, s: State, ok: bool)
    requires Context(c, s) && WayOutInv(s) && s.runner.phase == WritingPidfile
    ensures WayOutInv(AfterWritePidfile(c, s, ok))
  {
    hide AllContinue, Recorded;
  }

  lemma TestKeeps(c: Config, s: State, pipeOk: bool)
    requires Context(c, s) && WayOutInv(s) && s.runner.phase == LoopTop
    ensures WayOutInv(AfterTest(c, s, pipeOk))
  {
    hide AllContinue, Recorded;
  }

  lemma ForkKeeps(c: Config, s: State, pid: Pid)
    requires Context(c, s) && WayOutInv(s) && s.runner.phase == Forking
    ensures WayOutInv(AfterFork(s, pid))
  {
    hide AllContinue, Recorded;
  }

  lemma ForkFailsKeeps(c: Config, s: State)
    requires Context(c, s) && WayOutInv(s) && s.runner.phase == Forking
    ensures WayOutInv(AfterForkFails(s))
  {
    hide AllContinue, Recorded;
  }

  lemma InstallKeeps(c: Config, s: State)
    requires Context(c, s) && WayOutInv(s) && s.runner.phase == Installing
    ensures WayOutInv(InPhase(s, Unblocking))
  {
    hide AllContinue, Recorded;
  }

  lemma UnblockKeeps(c: Config, s: State)
    requires Context(c, s) && WayOutInv(s) && s.runner.phase == Unblocking
    ensures WayOutInv(AfterUnblock(s))
  {
    hide AllContinue, Recorded;
  }

  lemma OpenPidfdKeeps(c: Config, s: State, result: PidfdResult)
    requires Context(c, s) && WayOutInv(s) && s.runner.phase == OpeningPidfd
    ensures WayOutInv(AfterOpenPidfd(s, result))
  {
    hide AllContinue, Recorded;
  }

  lemma KillChildKeeps(c: Config, s: State)
    requires Context(c, s) && WayOutInv(s) && s.runner.phase == Aborting
    ensures WayOutInv(InPhase(s, AbortWaiting))
  {
    hide AllContinue, Recorded;
  }

  lemma ReapAbortedKeeps(c: Config, s: State)
    requires Context(c, s) && WayOutInv(s) && s.runner.phase == AbortWaiting
    ensures WayOutInv(AfterReapAborted(s))
  {
    hide AllContinue, Recorded;
  }

  lemma EnterPollKeeps(c: Config, s: State)
    requires Context(c, s) && WayOutInv(s) && s.runner.phase == EnteringPoll
    ensures WayOutInv(AfterEnterPoll(c, s))
  {
    hide AllContinue, Recorded;
  }

  lemma PollKeeps(c: Config, s: State, pidReady: bool, pipeHup: bool)
    requires Context(c, s) && WayOutInv(s) && s.runner.phase == Polling
    ensures WayOutInv(AfterPoll(s, pidReady, pipeHup))
  {
    hide AllContinue, Recorded;
  }

  lemma LeavePollKeeps(c: Config, s: State)
    requires Context(c, s) && WayOutInv(s) && s.runner.phase == Polling && !s.runner.pidEvents
    ensures WayOutInv(AfterLeavePoll(s))
  {
    hide AllContinue, Recorded;
  }

  lemma ReapKeeps(c: Config, s: State, pid: Pid)
    requires Context(c, s) && WayOutInv(s) && s.runner.phase == Waiting && pid in s.children && s.children[pid].Zombie?
    ensures WayOutInv(AfterReap(s, pid))
  {
    hide AllContinue, Recorded;
  }

  lemma ReapNothingKeeps(c: Config, s: State)
    requires Context(c, s) && WayOutInv(s) && s.runner.phase == Waiting
    ensures WayOutInv(InPhase(s, Polling))
  {
    hide AllContinue, Recorded;
  }

  lemma ReapNoChildKeeps(c: Config, s: State)
    requires Context(c, s) && WayOutInv(s) && s.runner.phase == Waiting && NoChildToReap(s)
    ensures WayOutInv(AfterReapNoChild(s))
  {
    hide AllContinue, Recorded;
  }

  lemma BlockKeeps(c: Config, s: State)
    requires Context(c, s) && WayOutInv(s) && s.runner.phase.Blocking?
    ensures WayOutInv(AfterBlock(s))
  {
    hide AllContinue, Recorded;
  }

  lemma DecideKeeps(c: Config, s: State)
    requires Context(c, s) && WayOutInv(s) && s.runner.phase.Deciding?
    ensures WayOutInv(AfterDecide(c, s))
  {
    hide AllContinue, Recorded, Continues, IsCrash;
  }

  lemma ReportKeeps(c: Config, s: State)
    requires Context(c, s) && WayOutInv(s) && s.runner.phase == Reporting
    ensures WayOutInv(AfterReport(c, s))
  {
    hide AllContinue, Recorded;
  }

  lemma SleepKeeps(c: Config, s: State)
    requires Context(c, s) && WayOutInv(s) && s.runner.phase == Sleeping
    ensures WayOutInv(InPhase(s, Polling))
  {
    hide AllContinue, Recorded;
  }

  lemma UnlinkKeeps(c: Config, s: State)
    requires Context(c, s) && WayOutInv(s) && s.runner.phase == Unlinking
    ensures WayOutInv(AfterUnlinkPidfile(s))
  {
    hide AllContinue, Recorded;
  }

  lemma UnlinkRunnerKeeps(c: Config, s: State)
    requires Context(c, s) && WayOutInv(s) && s.runner.phase == UnlinkingRunner
    ensures WayOutInv(AfterUnlinkPidfileRunner(s))
  {
    hide AllContinue, Recorded;
  }

  lemma StepKeepsWayOut(c: Config, s: State, step: RunnerStep)
    requires Context(c, s) && WayOutInv(s) && StepEnabled(c, s, step)
    ensures WayOutInv(AfterStep(c, s, step))
  {
    hide Context, WayOutInv, InPhase, AfterWritePidfile, AfterTest, AfterFork, AfterForkFails, AfterUnblock;
    hide AfterOpenPidfd, AfterReapAborted, AfterEnterPoll, AfterPoll, AfterReap, AfterReapNoChild, AfterBlock;
    hide AfterDecide, AfterReport, AfterLeavePoll, AfterUnlinkPidfile, AfterUnlinkPidfileRunner;
    hide ServiceDied, CanPoll, NothingToReap, NoChildToReap, Matches;
    match step
    case WritePidfile(ok) => WrittenKeeps(c, s, ok);
    case TestRunning(pipeOk) => TestKeeps(c, s, pipeOk);
    case Fork(pid) => ForkKeeps(c, s, pid);
    case ForkFails => ForkFailsKeeps(c, s);
    case InstallHandlers => InstallKeeps(c, s);
    case UnblockSignals => UnblockKeeps(c, s);
    case OpenPidfd(result) => OpenPidfdKeeps(c, s, result);
    case KillChild => KillChildKeeps(c, s);
    case ReapAborted => ReapAbortedKeeps(c, s);
    case EnterPoll => EnterPollKeeps(c, s);
    case Poll(pidReady, pipeHup) => PollKeeps(c, s, pidReady, pipeHup);
    case Reap(pid) => ReapKeeps(c, s, pid);
    case ReapNothing => ReapNothingKeeps(c, s);
    case ReapNoChild => ReapNoChildKeeps(c, s);
    case BlockSignals => BlockKeeps(c, s);
    case Decide => DecideKeeps(c, s);
    case Report => ReportKeeps(c, s);
    case Sleep => SleepKeeps(c, s);
    case LeavePoll => LeavePollKeeps(c, s);
    case UnlinkPidfile => UnlinkKeeps(c, s);
    case UnlinkPidfileRunner => UnlinkRunnerKeeps(c, s);
  }

  lemma DeliverKeeps(c: Config, s: State, signal: Signal)
    requires Context(c, s) && WayOutInv(s) && !s.runner.blocked
    ensures WayOutInv(AfterDeliver(s, signal))
  {
    hide AllContinue, Recorded;
  }

  lemma DeliverChldKeeps(c: Config, s: State)
    requires Context(c, s) && WayOutInv(s)
    ensures WayOutInv(s.(runner := s.runner.(flags := OnChild(s.runner.flags))))
  {
    hide AllContinue, Recorded;
  }

  lemma RunnerReapedKeeps(c: Config, s: State)
    requires Context(c, s) && WayOutInv(s)
    ensures WayOutInv(s.(runnerGone := true))
  {
    hide AllContinue, Recorded;
  }

  // The rest of the world changes neither the flags nor the counts.
  predicate Bystander(s: State, t: State) {
    && (t.runner.phase == Destroyed || t.runner == s.runner.(pending := t.runner.pending))
    && t.history == s.history.(told := t.history.told)
  }

  lemma BystandersKeep(s: State, t: State)
    requires WayOutInv(s) && Bystander(s, t)
    ensures WayOutInv(t)
  {
  }

  lemma PostedByBystander(s: State, signal: Signal)
    ensures Bystander(s, Posted(s, signal)) && Bystander(s, Destroy(s))
  {
  }

  lemma FailIsBystander(s: State, pid: Pid, kill: bool)
    requires pid in s.children
    ensures Bystander(s, AfterFails(s, pid, kill))
  {
    hide Posted;
    PostedByBystander(s, Term);
  }

  lemma ChildIsBystander(s: State, pid: Pid, act: ChildStep)
    requires ChildEnabled(s, pid, act)
    ensures Bystander(s, AfterChild(s, pid, act))
  {
    hide AfterFails;
    if act.Fails? {
      FailIsBystander(s, pid, act.kill);
    }
  }

  lemma StopIsBystander(c: Config, s: State, act: StopStep)
    requires StopEnabled(c, s, act)
    ensures Bystander(s, AfterStop(c, s, act))
  {
    hide Posted, Destroy, Exists, HasExited, Target;
    PostedByBystander(s, Term);
  }

  lemma OthersKeepWayOut(c: Config, s: State, e: Event)
    requires e.Post? || e.ChildDoes? || e.StopDoes? || e.KillRunner?
    requires WayOutInv(s) && Enabled(c, s, e)
    ensures WayOutInv(Apply(c, s, e))
  {
    hide WayOutInv, Bystander, StepEnabled, AfterStep, ChildEnabled, AfterChild, StopEnabled, AfterStop;
    hide Posted, Destroy;
    match e {
      case ChildDoes(pid, act) => ChildIsBystander(s, pid, act);
      case StopDoes(act) => StopIsBystander(c, s, act);
      case Post(signal) => PostedByBystander(s, signal);
      case KillRunner => PostedByBystander(s, Term);
    }
    BystandersKeep(s, Apply(c, s, e));
  }

  lemma HappensKeepsWayOut(c: Config, s: State, e: Event, t: State)
    requires Inv(c, s) && RequestInv(s) && WayOutInv(s) && Happens(c, s, e, t)
    ensures WayOutInv(t)
  {
    assert Context(c, s) by {
      hide ChildInv, MaskInv, DecisionInv, RoundInv, RequestInv;
    }
    hide Context, WayOutInv, StepEnabled, AfterStep, Inv, RequestInv, AfterDeliver, OnChild, AfterChild, AfterStop;
    hide ChildEnabled, StopEnabled, Posted, Destroy;
    match e
    case Step(step) => StepKeepsWayOut(c, s, step);
    case Deliver(signal) => DeliverKeeps(c, s, signal);
    case DeliverChld => DeliverChldKeeps(c, s);
    case ReapRunner => RunnerReapedKeeps(c, s);
    case _ => OthersKeepWayOut(c, s, e);
  }

  lemma {:induction false} RunKeepsWayOut(c: Config, trace: seq<State>, events: seq<Event>, i: nat)
    requires IsRun(c, trace, events) && i <= |events|
    requires Inv(c, trace[0]) && RequestInv(trace[0]) && WayOutInv(trace[0])
    ensures WayOutInv(trace[i])
    decreases i
  {
    hide Inv, RequestInv, WayOutInv, Happens;
    if i > 0 {
      RunKeepsWayOut(c, trace, events, i - 1);
      assert Happens(c, trace[i - 1], events[i - 1], trace[i]);
      RunInv(c, trace, events, i - 1);
      RunRecords(c, trace, events, i - 1);
      HappensKeepsWayOut(c, trace[i - 1], events[i - 1], trace[i]);
    }
  }

  lemma InitWayOut(c: Config, s: State)
    requires Init(c, s)
    ensures WayOutInv(s) && RequestInv(s)
  {
  }

  lemma ReachableWayOut(c: Config, s: State)
    requires Reachable(c, s)
    ensures WayOutInv(s)
  {
    hide Inv, RequestInv, WayOutInv, Happens;
    var init :| Init(c, init) && Leads(c, init, s);
    InitInv(c, init);
    InitWayOut(c, init);
    var trace, events :| IsRun(c, trace, events) && trace[0] == init && trace[|events|] == s;
    RunKeepsWayOut(c, trace, events, |events|);
  }

  // ---------------------------------------------------------------------------------------------
  // When a request stays unanswered

  // A restart signal was handled during the last round that was decided.
  predicate LastRequested(rounds: seq<Round>) {
    rounds != [] && rounds[|rounds| - 1].restarts > Before(rounds, |rounds| - 1)
  }

  // The service of the last round was stopped from outside, and the policy does not restart it then.
  predicate LastStopped(policy: Policy, rounds: seq<Round>) {
    rounds != [] && policy != Always && IsForeignStop(rounds[|rounds| - 1].cause)
  }

  // Why the runner left although a request was handled after its last fork.
  predicate Unanswered(policy: Policy, h: History) {
    match h.failure
    case NoFailure => LastRequested(h.rounds) && LastStopped(policy, h.rounds)
    case PidfdFailure => h.restarts > Before(h.rounds, |h.rounds|)
    case _ => LastRequested(h.rounds)
  }

  /**
   * When the runner has left its main loop without having handled a stop signal, a restart signal was
   * handled but no fork followed exactly in these cases: it came during a round that ended with the
   * service being killed by SIGQUIT, SIGINT or SIGKILL, under another policy than ALWAYS; or it came
   * during the last round and pipe() or fork() failed behind it; or it came during the round (or the
   * cleanup) that a failed pidfd_open() aborted.
   */
  lemma RequestUnanswered(c: Config, s: State)
    requires Reachable(c, s) && Leaving(s.runner) && s.history.stops == 0
    ensures s.history.restarts > s.history.answered <==> Unanswered(c.policy, s.history)
  {
    ReachableInv(c, s);
    ReachableRecords(c, s);
    ReachableWayOut(c, s);
    hide Reachable, ChildInv, MaskInv, CleanupInv, ToldInv, CountInv, StopInv;
    LeavingUnanswered(c, s);
  }

  lemma LeavingUnanswered(c: Config, s: State)
    requires DecisionInv(c, s) && RoundInv(c, s) && RequestInv(s) && WayOutInv(s)
    requires Leaving(s.runner) && s.history.stops == 0
    ensures s.history.restarts > s.history.answered <==> Unanswered(c.policy, s.history)
  {
    hide AllContinue, Recorded, Continues, IsForeignStop;
    var h := s.history;
    if h.failure == NoFailure && LastRequested(h.rounds) {
      LastRecorded(h.rounds);
      LastDecides(c.policy, h.rounds);
      RestartRequestHonoured(c.policy, h.rounds[|h.rounds| - 1].cause);
    }
  }

  /** The recorded failure is visible in the state that is left behind. */
  lemma FailuresAreExact(c: Config, s: State)
    requires Reachable(c, s) && Leaving(s.runner) && s.history.stops == 0
    ensures s.history.failure == PidfdFailure <==> s.history.forks == |s.history.rounds| + 1
    ensures s.history.failure == NoFailure ==> !s.runner.flags.running
    ensures s.history.failure == PipeFailure || s.history.failure == ForkFailure ==>
      s.runner.flags.running && s.history.forks == |s.history.rounds|
  {
    ReachableWayOut(c, s);
  }
}
