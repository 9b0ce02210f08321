/** What holds in every reachable state and along every run of the supervisor protocol. */
module SupervisorRuns {
  import opened CStrings
  import opened RestartPolicy
  import opened Supervisor
  import opened SupervisorInvariant

  // ---------------------------------------------------------------------------------------------
  // Reachable states

  /** At most one unreaped service process exists, the one that was forked last. */
  lemma OneServiceProcess(c: Config, s: State, p: Pid, q: Pid)
    requires Reachable(c, s) && p in s.children && q in s.children
    ensures p == q == s.history.lastFork
  {
    ReachableInv(c, s);
  }

  /**
   * Whenever a stop or restart signal can reach the runner, `service_pid` is the last fork's PID, so
   * no request is ignored. The process may be reaped already in two places only.
   */
  lemma RequestsAreActedOn(c: Config, s: State, signal: Signal)
    requires Reachable(c, s) && Enabled(c, s, Deliver(signal))
    ensures s.runner.flags.servicePid == s.history.lastFork > 0
    ensures signal != Usr1 ==> !Apply(c, s, Deliver(signal)).runner.flags.running
    ensures signal == Usr1 ==> Apply(c, s, Deliver(signal)).runner.flags.restartIssued
    ensures s.history.lastFork in s.children <==> !s.runner.phase.Blocking? && !Leaving(s.runner)
  {
    ReachableInv(c, s);
  }

  /** The runner that left through its own cleanup leaves no service process and no pidfile. */
  lemma CleanExit(c: Config, s: State)
    requires Reachable(c, s) && s.runner.phase == Finished
    ensures s.children == map[] && s.pidfile == None && s.pidfileRunner == None
  {
    ReachableInv(c, s);
  }

  /** And it stays that way, whatever happens next. */
  lemma CleanForever(c: Config, s: State, t: State)
    requires Reachable(c, s) && s.runner.phase == Finished && Leads(c, s, t)
    ensures t.runner.phase == Finished && t.children == map[] && t.pidfile == None && t.pidfileRunner == None
  {
    ReachableInv(c, s);
    LeadsInv(c, s, t);
    var trace, events :| IsRun(c, trace, events) && trace[0] == s && trace[|events|] == t;
    StaysFinished(c, trace, events, |events|);
  }

  lemma {:induction false} StaysFinished(c: Config, trace: seq<State>, events: seq<Event>, i: nat)
    requires IsRun(c, trace, events) && i <= |events| && trace[0].runner.phase == Finished
    ensures trace[i].runner.phase == Finished
    decreases i
  {
    if i > 0 {
      hide Enabled, Apply;
      StaysFinished(c, trace, events, i - 1);
      assert Happens(c, trace[i - 1], events[i - 1], trace[i]);
      FinishedKept(c, trace[i - 1], events[i - 1]);
    }
  }

  lemma FinishedKept(c: Config, s: State, e: Event)
    requires s.runner.phase == Finished && Enabled(c, s, e)
    ensures Apply(c, s, e).runner.phase == Finished
  {
  }

  /**
   * If `stop` found the runner and returns 0, the runner is gone; unless it was destroyed by a
   * SIGKILL, no service process is left and neither pidfile exists.
   */
  lemma StopSucceeded(c: Config, s: State)
    requires Reachable(c, s) && s.stop == Done(0, true)
    ensures s.runnerGone && !Alive(s.runner)
    ensures s.runner.phase != Destroyed ==>
      s.children == map[] && s.pidfile == None && s.pidfileRunner == None
  {
    ReachableInv(c, s);
    hide Reachable, ToldInv, DecisionInv, RoundInv, CountInv, MaskInv;
  }

  // ---------------------------------------------------------------------------------------------
  // The restart decision along a run

  /** The loop goes on exactly if no stop signal was handled and every round so far was decided that way. */
  lemma LoopChoice(c: Config, s: State)
    requires Reachable(c, s) && s.runner.phase == LoopTop && StepEnabled(c, s, TestRunning(true))
    ensures AfterStep(c, s, TestRunning(true)).runner.phase
         == if s.history.stops == 0 && AllContinue(c.policy, s.history.rounds) then Forking else Unlinking
  {
    ReachableInv(c, s);
    hide Reachable, ChildInv, MaskInv, CleanupInv, ToldInv, RoundInv, CountInv, StopInv, AllContinue;
  }

  // Each fork but the first follows a round that was decided to continue.
  lemma ForksFollowRounds(c: Config, s: State, i: nat)
    requires Reachable(c, s) && i + 1 < s.history.forks
    ensures i < |s.history.rounds|
    ensures var round := s.history.rounds[i]; Continues(c.policy, round.cause, round.restartIssued)
  {
    ReachableInv(c, s);
    RoundsContinue(c, s, i);
  }

  lemma RoundsContinue(c: Config, s: State, i: nat)
    requires RoundInv(c, s) && i + 1 < s.history.forks
    ensures i < |s.history.rounds|
    ensures var round := s.history.rounds[i]; Continues(c.policy, round.cause, round.restartIssued)
  {
    hide Continues;
    assert s.history.rounds[..s.history.forks - 1][i] == s.history.rounds[i];
  }

  /** Under NEVER every fork but the first is paid for by a restart request that was handled. */
  lemma NeverForksByRequest(c: Config, s: State)
    requires Reachable(c, s) && c.policy == Never
    ensures s.history.forks <= 1 + s.history.restarts
  {
    ReachableInv(c, s);
    NeverCount(c, s);
  }

  lemma NeverCount(c: Config, s: State)
    requires RoundInv(c, s) && CountInv(c, s) && c.policy == Never
    ensures s.history.forks <= 1 + s.history.restarts
  {
    hide AllContinue, Requested, Crashes;
    var h := s.history;
    if h.forks > 0 {
      NeverContinues(h.rounds[..h.forks - 1]);
      RequestedPrefix(h.rounds, h.forks - 1);
    }
  }

  lemma {:induction false} NeverContinues(rounds: seq<Round>)
    requires AllContinue(Never, rounds)
    ensures Requested(rounds) == |rounds|
    decreases |rounds|
  {
    if rounds != [] {
      var init := rounds[..|rounds| - 1];
      assert forall i :: 0 <= i < |init| ==> init[i] == rounds[i];
      NeverContinues(init);
    }
  }

  lemma {:induction false} RequestedPrefix(rounds: seq<Round>, n: nat)
    requires n <= |rounds|
    ensures Requested(rounds[..n]) <= Requested(rounds)
    decreases |rounds|
  {
    if n == |rounds| {
      assert rounds[..n] == rounds;
    } else {
      RequestedPrefix(rounds[..|rounds| - 1], n);
      assert rounds[..|rounds| - 1][..n] == rounds[..n];
    }
  }

  /** Under FAILURE each fork but the first follows a crash or a handled restart request. */
  lemma FailureForksByCrash(c: Config, s: State, i: nat)
    requires Reachable(c, s) && c.policy == OnFailure && i + 1 < s.history.forks
    ensures i < |s.history.rounds|
    ensures IsCrash(s.history.rounds[i].cause) || s.history.rounds[i].restartIssued
  {
    ForksFollowRounds(c, s, i);
  }

  /** With a reporter set it was started once per crash, without one never. */
  lemma ReportsMatchCrashes(c: Config, s: State)
    requires Reachable(c, s) && s.runner.phase != Reporting && s.runner.phase != Destroyed
    ensures s.history.reports == if c.reporter then Crashes(s.history.rounds) else 0
  {
    ReachableInv(c, s);
  }

  // ---------------------------------------------------------------------------------------------
  // After a stop signal

  // A stop signal is pending or was handled, or the runner has ended.
  predicate StopSeen(s: State) {
    s.history.started && (StopPending(s.runner) || !s.runner.flags.running || !Alive(s.runner))
  }

  // How many forks can still happen then: one, if the signal is blocked until behind the next fork.
  function Allowance(s: State): nat {
    var r := s.runner;
    if r.flags.running && Alive(r) && (BeforeFork(r) || r.phase.Deciding?) then 1 else 0
  }

  predicate ChangesFlags(step: RunnerStep) {
    step.WritePidfile? || step.Fork? || step.Decide?
  }

  // A step that leaves the flags alone and does not come back in front of a fork.
  predicate Onward(s: State, t: State) {
    && t.history.forks == s.history.forks && t.history.started == s.history.started
    && t.runner.flags.running == s.runner.flags.running && t.runner.pending == s.runner.pending
    && Alive(s.runner) && Allowance(t) <= Allowance(s)
  }

  lemma AllowanceOnward(s: State, t: State)
    requires StopSeen(s) && Onward(s, t)
    ensures StopSeen(t) && t.history.forks + Allowance(t) <= s.history.forks + Allowance(s)
  {
    hide BeforeFork;
  }

  lemma TestOnward(c: Config, s: State, pipeOk: bool)
    requires s.runner.phase == LoopTop
    ensures Onward(s, AfterTest(c, s, pipeOk))
  {
  }

  lemma PollOnward(s: State, pidReady: bool, pipeHup: bool)
    requires s.runner.phase == Polling
    ensures Onward(s, AfterPoll(s, pidReady, pipeHup))
  {
  }

  lemma ReportOnward(c: Config, s: State)
    requires s.runner.phase == Reporting
    ensures Onward(s, AfterReport(c, s))
  {
  }

  // Signals are blocked only when none is pending.
  lemma BlockOnward(s: State)
    requires StopSeen(s) && MaskInv(s) && Runnable(s.runner) && s.runner.phase.Blocking?
    ensures Onward(s, AfterBlock(s))
  {
  }

  lemma NoChildOnward(s: State)
    requires StopSeen(s) && MaskInv(s) && Runnable(s.runner) && s.runner.phase == Waiting
    ensures Onward(s, AfterReapNoChild(s)) && Onward(s, InPhase(s, Polling))
  {
  }

  lemma RestOnward(c: Config, s: State, step: RunnerStep)
    requires !ChangesFlags(step) && MaskInv(s) && StopSeen(s) && StepEnabled(c, s, step)
    requires !step.TestRunning? && !step.Poll? && !step.Report?
    requires !step.BlockSignals? && !step.ReapNoChild? && !step.ReapNothing?
    ensures Onward(s, AfterStep(c, s, step))
  {
    hide AfterTest, AfterPoll, AfterReport, AfterBlock, AfterWritePidfile, AfterFork, AfterDecide, AfterReapNoChild;
    hide ServiceDied, CanPoll, NothingToReap, NoChildToReap, Matches;
  }

  lemma AllowanceOfStep(c: Config, s: State, step: RunnerStep)
    requires !ChangesFlags(step)
    requires DecisionInv(c, s) && MaskInv(s) && StopSeen(s) && StepEnabled(c, s, step)
    ensures var t := AfterStep(c, s, step);
      StopSeen(t) && t.history.forks + Allowance(t) <= s.history.forks + Allowance(s)
  {
    assert Onward(s, AfterStep(c, s, step)) by {
      match step {
        case TestRunning(pipeOk) => TestOnward(c, s, pipeOk);
        case Poll(pidReady, pipeHup) => PollOnward(s, pidReady, pipeHup);
        case Report => ReportOnward(c, s);
        case BlockSignals => BlockOnward(s);
        case ReapNothing => NoChildOnward(s);
        case ReapNoChild => NoChildOnward(s);
        case _ => RestOnward(c, s, step);
      }
    }
    hide *;
    AllowanceOnward(s, AfterStep(c, s, step));
  }

  lemma AllowanceOfFlags(c: Config, s: State, step: RunnerStep)
    requires ChangesFlags(step)
    requires DecisionInv(c, s) && MaskInv(s) && StopSeen(s) && StepEnabled(c, s, step)
    ensures var t := AfterStep(c, s, step);
      StopSeen(t) && t.history.forks + Allowance(t) <= s.history.forks + Allowance(s)
  {
    hide AllContinue;
  }

  lemma AllowanceOfDelivery(c: Config, s: State, e: Event)
    requires e.Deliver? || e.DeliverChld? || e.ReapRunner?
    requires DecisionInv(c, s) && MaskInv(s) && StopSeen(s) && Enabled(c, s, e)
    ensures var t := Apply(c, s, e);
      StopSeen(t) && t.history.forks + Allowance(t) <= s.history.forks + Allowance(s)
  {
  }

  // Nobody else touches the runner but for its pending signals, unless it is destroyed.
  predicate Untouched(s: State, t: State) {
    && t.history.forks == s.history.forks && t.history.started == s.history.started
    && s.runner.pending <= t.runner.pending
    && (t.runner.phase == Destroyed || t.runner == s.runner.(pending := t.runner.pending))
  }

  lemma FailLeavesUntouched(s: State, pid: Pid, kill: bool)
    requires pid in s.children
    ensures Untouched(s, AfterFails(s, pid, kill))
  {
  }

  lemma ChildLeavesUntouched(s: State, pid: Pid, act: ChildStep)
    requires ChildEnabled(s, pid, act)
    ensures Untouched(s, AfterChild(s, pid, act))
  {
    hide AfterFails;
    if act.Fails? {
      FailLeavesUntouched(s, pid, act.kill);
    }
  }

  lemma SendTermLeavesUntouched(c: Config, s: State, ok: bool)
    requires s.stop.Opened?
    ensures Untouched(s, AfterSendTerm(c, s, ok))
  {
  }

  lemma OpenTargetLeavesUntouched(s: State, ok: bool)
    requires s.stop.ReadBoth?
    ensures Untouched(s, AfterOpenTarget(s, ok))
  {
  }

  lemma OwnStateLeavesUntouched(s: State, stop: StopCommand)
    ensures Untouched(s, s.(stop := stop))
  {
  }

  lemma PidfilesLeaveUntouched(s: State)
    ensures Untouched(s, s.(pidfile := None)) && Untouched(s, s.(pidfileRunner := None))
  {
  }

  lemma DestroyLeavesUntouched(s: State)
    ensures Untouched(s, Destroy(s))
  {
  }

  lemma StopLeavesUntouched(c: Config, s: State, act: StopStep)
    requires StopEnabled(c, s, act)
    ensures Untouched(s, AfterStop(c, s, act))
  {
    hide Untouched, AfterSendTerm, AfterOpenTarget, Destroy, Exists, HasExited, Target;
    match act
    case OpenTarget(ok) => OpenTargetLeavesUntouched(s, ok);
    case SendTerm(ok) => SendTermLeavesUntouched(c, s, ok);
    case KillsRunner => DestroyLeavesUntouched(s);
    case UnlinksPidfile => PidfilesLeaveUntouched(s);
    case UnlinksPidfileRunner => PidfilesLeaveUntouched(s);
    case _ => OwnStateLeavesUntouched(s, AfterStop(c, s, act).stop);
  }

  lemma OthersLeaveUntouched(c: Config, s: State, e: Event)
    requires e.Post? || e.ChildDoes? || e.StopDoes? || e.KillRunner?
    requires Enabled(c, s, e)
    ensures Untouched(s, Apply(c, s, e))
  {
    hide StopEnabled, AfterStop, ChildEnabled, AfterChild, StepEnabled, AfterStep;
    if e.ChildDoes? {
      ChildLeavesUntouched(s, e.pid, e.childStep);
    } else if e.StopDoes? {
      StopLeavesUntouched(c, s, e.stopStep);
    }
  }

  lemma AllowanceOfOthers(s: State, t: State)
    requires StopSeen(s) && Untouched(s, t)
    ensures StopSeen(t) && t.history.forks + Allowance(t) <= s.history.forks + Allowance(s)
  {
  }

  lemma AllowanceKept(c: Config, s: State, e: Event)
    requires Inv(c, s) && StopSeen(s) && Enabled(c, s, e)
    ensures var t := Apply(c, s, e);
      StopSeen(t) && t.history.forks + Allowance(t) <= s.history.forks + Allowance(s)
  {
    hide ChildInv, MaskInv, CleanupInv, ToldInv, DecisionInv, RoundInv, CountInv, StopInv;
    hide StopSeen, Allowance, AfterStep, StepEnabled, ChangesFlags;
    if e.Step? {
      if ChangesFlags(e.step) {
        AllowanceOfFlags(c, s, e.step);
      } else {
        AllowanceOfStep(c, s, e.step);
      }
    } else if e.Deliver? || e.DeliverChld? || e.ReapRunner? {
      AllowanceOfDelivery(c, s, e);
    } else {
      OthersLeaveUntouched(c, s, e);
      AllowanceOfOthers(s, Apply(c, s, e));
    }
  }

  lemma AllowanceHappens(c: Config, s: State, e: Event, t: State)
    requires Inv(c, s) && StopSeen(s) && Happens(c, s, e, t)
    ensures StopSeen(t) && s.history.forks <= t.history.forks
    ensures t.history.forks + Allowance(t) <= s.history.forks + Allowance(s)
  {
    hide Inv, StopSeen, Allowance, Enabled, Apply;
    AllowanceKept(c, s, e);
    ForksOnlyGrow(c, s, e);
  }

  lemma {:induction false} AllowanceBoundsForks(c: Config, trace: seq<State>, events: seq<Event>, i: nat)
    requires IsRun(c, trace, events) && i <= |events| && Inv(c, trace[0]) && StopSeen(trace[0])
    ensures StopSeen(trace[i])
    ensures trace[0].history.forks <= trace[i].history.forks
    ensures trace[i].history.forks + Allowance(trace[i]) <= trace[0].history.forks + Allowance(trace[0])
    decreases i
  {
    hide Inv, StopSeen, Allowance, Happens;
    if i > 0 {
      AllowanceBoundsForks(c, trace, events, i - 1);
      assert Happens(c, trace[i - 1], events[i - 1], trace[i]);
      RunInv(c, trace, events, i - 1);
      AllowanceHappens(c, trace[i - 1], events[i - 1], trace[i]);
    }
  }

  // How many forks a run can still contain.
  lemma ForksAhead(c: Config, s: State, t: State)
    requires Inv(c, s) && StopSeen(s) && Leads(c, s, t)
    ensures s.history.forks <= t.history.forks <= s.history.forks + Allowance(s)
  {
    hide Inv, StopSeen, Happens;
    var trace, events :| IsRun(c, trace, events) && trace[0] == s && trace[|events|] == t;
    AllowanceBoundsForks(c, trace, events, |events|);
  }

  lemma StepForks(c: Config, s: State, step: RunnerStep)
    requires StepEnabled(c, s, step)
    ensures s.history.forks <= AfterStep(c, s, step).history.forks
  {
    hide Runnable, SleepOrPoll, Continues, IsCrash, ServiceDied, CanPoll, NothingToReap, NoChildToReap, Matches;
  }

  lemma ForksOnlyGrow(c: Config, s: State, e: Event)
    requires Enabled(c, s, e)
    ensures s.history.forks <= Apply(c, s, e).history.forks
  {
    hide StepEnabled, AfterStep, StopEnabled, AfterStop, ChildEnabled, AfterChild, Posted, Destroy;
    if e.Step? {
      StepForks(c, s, e.step);
    } else if e.Post? || e.ChildDoes? || e.StopDoes? || e.KillRunner? {
      OthersLeaveUntouched(c, s, e);
    }
  }

  /** After a stop signal was posted at most one more service process is forked, whatever happens. */
  lemma AtMostOneMoreFork(c: Config, s: State, signal: Signal, t: State)
    requires Reachable(c, s) && signal in STOP_SIGNALS && Enabled(c, s, Post(signal)) && Alive(s.runner)
    requires Leads(c, Apply(c, s, Post(signal)), t)
    ensures s.history.forks <= t.history.forks <= s.history.forks + 1
  {
    ReachableInv(c, s);
    PostedKept(c, s, signal);
    ForksAhead(c, Apply(c, s, Post(signal)), t);
  }

  /** Once a stop signal was handled, no service process is forked any more. */
  lemma NoForkAfterStop(c: Config, s: State, t: State)
    requires Reachable(c, s) && s.history.stops > 0 && Leads(c, s, t)
    ensures t.history.forks == s.history.forks
  {
    hide Leads, Reachable;
    ReachableInv(c, s);
    ForksAhead(c, s, t);
  }

  // The bound is tight: a stop signal posted at the top of the loop comes too late for the next fork.
  lemma OneForkCanHappen(c: Config, s: State, pid: Pid)
    requires Reachable(c, s) && s.runner.phase == LoopTop && s.runner.flags.running && Enabled(c, s, Post(Term))
    requires pid > 0 && pid !in s.used
    ensures exists t :: Leads(c, Apply(c, s, Post(Term)), t) && t.history.forks == s.history.forks + 1
  {
    ReachableInv(c, s);
    hide Leads;
    var s1 := Apply(c, s, Post(Term));
    var s2 := Apply(c, s1, Step(TestRunning(true)));
    var s3 := Apply(c, s2, Step(Fork(pid)));
    LeadsStep(c, s1, Step(TestRunning(true)));
    LeadsStep(c, s2, Step(Fork(pid)));
    LeadsOn(c, s1, s2, s3);
  }

  // ---------------------------------------------------------------------------------------------
  // After a premature exit

  lemma ToldIsSeen(c: Config, s: State)
    requires Inv(c, s) && s.history.told
    ensures StopSeen(s) && Allowance(s) == 0
  {
    hide ChildInv, MaskInv, CleanupInv, DecisionInv, RoundInv, CountInv, StopInv;
  }

  /** A child that failed before execv() and signalled the runner is the last one, even under ALWAYS. */
  lemma ToldRunnerForksNoMore(c: Config, s: State, t: State)
    requires Reachable(c, s) && s.history.told && Leads(c, s, t)
    ensures t.history.forks == s.history.forks
  {
    hide Leads, Reachable;
    ReachableInv(c, s);
    ForksAhead(c, s, t);
  }

  /** That is so from the moment the signal was sent. */
  lemma FailedChildIsTheLast(c: Config, s: State, pid: Pid, t: State)
    requires Reachable(c, s) && Alive(s.runner)
    requires Enabled(c, s, ChildDoes(pid, Fails(true)))
    requires Leads(c, Apply(c, s, ChildDoes(pid, Fails(true))), t)
    ensures t.history.forks == s.history.forks
  {
    hide Leads, Reachable, Inv, StopSeen, Allowance;
    var e := ChildDoes(pid, Fails(true));
    ReachableInv(c, s);
    InvKept(c, s, e);
    ToldIsSeen(c, Apply(c, s, e));
    ForksAhead(c, Apply(c, s, e), t);
  }
}
