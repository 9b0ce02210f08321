/** The poll loop of the runner: the death of the service is noticed, and the log pipe is read to its end. */
module SupervisorPolling {
  import opened RestartPolicy
  import opened Supervisor
  import opened SupervisorInvariant
  import opened SupervisorRuns

  // ---------------------------------------------------------------------------------------------
  // The death of the service is noticed

  // While the runner waits for its service, a pidfd or the SIGCHLD handler can wake it.
  predicate WatchInv(r: RunnerState) {
    PollsForChild(r) ==> !r.chldBlocked && (r.pidfd || r.chldHandler)
  }

  lemma TestWatches(c: Config, s: State, ok: bool)
    requires s.runner.phase == LoopTop
    ensures WatchInv(AfterTest(c, s, ok).runner)
  {
  }

  lemma StartWatches(c: Config, s: State, ok: bool)
    requires s.runner.phase == WritingPidfile
    ensures WatchInv(AfterWritePidfile(c, s, ok).runner)
  {
  }

  lemma PollWatches(s: State, pidReady: bool, pipeHup: bool)
    requires WatchInv(s.runner) && s.runner.phase == Polling
    ensures WatchInv(AfterPoll(s, pidReady, pipeHup).runner)
  {
  }

  lemma EnterPollWatches(c: Config, s: State)
    ensures WatchInv(AfterEnterPoll(c, s).runner)
  {
  }

  lemma PhaseWatches(s: State, phase: Phase)
    requires WatchInv(s.runner)
    requires phase == Polling ==> s.runner.phase == Waiting || !s.runner.pidEvents
    requires phase != Waiting
    ensures WatchInv(InPhase(s, phase).runner)
  {
  }

  lemma DecideWatches(c: Config, s: State)
    requires s.runner.phase.Deciding?
    ensures WatchInv(AfterDecide(c, s).runner)
  {
  }

  lemma ReportWatches(c: Config, s: State)
    requires !s.runner.pidEvents
    ensures WatchInv(AfterReport(c, s).runner)
  {
  }

  lemma RestWatches(c: Config, s: State, step: RunnerStep)
    requires StepEnabled(c, s, step)
    requires step.Fork? || step.ForkFails? || step.UnblockSignals? || step.OpenPidfd? || step.ReapAborted?
      || step.Reap? || step.ReapNoChild? || step.BlockSignals? || step.LeavePoll?
      || step.UnlinkPidfile? || step.UnlinkPidfileRunner?
    ensures WatchInv(AfterStep(c, s, step).runner)
  {
    hide Runnable, ServiceDied, CanPoll, NothingToReap, NoChildToReap, Matches;
    hide AfterTest, AfterPoll, AfterEnterPoll, AfterDecide, AfterReport, AfterWritePidfile;
  }

  lemma StepWatches(c: Config, s: State, step: RunnerStep)
    requires MaskInv(s) && WatchInv(s.runner) && StepEnabled(c, s, step)
    ensures WatchInv(AfterStep(c, s, step).runner)
  {
    hide WatchInv, InPhase, AfterWritePidfile, AfterTest, AfterFork, AfterForkFails, AfterUnblock, AfterOpenPidfd;
    hide AfterReapAborted, AfterEnterPoll, AfterPoll, AfterReap, AfterReapNoChild, AfterBlock, AfterDecide, AfterReport;
    hide AfterLeavePoll, AfterUnlinkPidfile, AfterUnlinkPidfileRunner;
    hide Runnable, ServiceDied, CanPoll, NothingToReap, NoChildToReap, Matches;
    match step
    case WritePidfile(ok) => StartWatches(c, s, ok);
    case TestRunning(pipeOk) => TestWatches(c, s, pipeOk);
    case InstallHandlers => PhaseWatches(s, Unblocking);
    case KillChild => PhaseWatches(s, AbortWaiting);
    case EnterPoll => EnterPollWatches(c, s);
    case Poll(pidReady, pipeHup) => PollWatches(s, pidReady, pipeHup);
    case ReapNothing => PhaseWatches(s, Polling);
    case Decide => DecideWatches(c, s);
    case Report => ReportWatches(c, s);
    case Sleep => PhaseWatches(s, Polling);
    case _ => RestWatches(c, s, step);
  }

  lemma DeliveryWatches(c: Config, s: State, e: Event)
    requires e.Deliver? || e.DeliverChld? || e.ReapRunner?
    requires WatchInv(s.runner) && Enabled(c, s, e)
    ensures WatchInv(Apply(c, s, e).runner)
  {
    hide OnSignal;
  }

  lemma UntouchedWatches(s: State, t: State)
    requires WatchInv(s.runner) && Untouched(s, t)
    ensures WatchInv(t.runner)
  {
  }

  lemma HappensWatches(c: Config, s: State, e: Event, t: State)
    requires Inv(c, s) && WatchInv(s.runner) && Happens(c, s, e, t)
    ensures WatchInv(t.runner)
  {
    assert MaskInv(s) by {
      hide ChildInv, MaskInv, CleanupInv, ToldInv, DecisionInv, RoundInv, CountInv, StopInv;
    }
    hide Inv, MaskInv, WatchInv, Untouched, StepEnabled, AfterStep, ChildEnabled, AfterChild, StopEnabled, AfterStop;
    hide AfterDeliver, OnChild, Posted, Destroy;
    match e
    case Step(step) => StepWatches(c, s, step);
    case Deliver(_) => DeliveryWatches(c, s, e);
    case DeliverChld => DeliveryWatches(c, s, e);
    case ReapRunner => DeliveryWatches(c, s, e);
    case _ =>
      OthersLeaveUntouched(c, s, e);
      UntouchedWatches(s, t);
  }

  lemma {:induction false} RunWatches(c: Config, trace: seq<State>, events: seq<Event>, i: nat)
    requires IsRun(c, trace, events) && i <= |events| && Inv(c, trace[0]) && WatchInv(trace[0].runner)
    ensures WatchInv(trace[i].runner)
    decreases i
  {
    hide Inv, WatchInv, Happens;
    if i > 0 {
      RunWatches(c, trace, events, i - 1);
      assert Happens(c, trace[i - 1], events[i - 1], trace[i]);
      RunInv(c, trace, events, i - 1);
      HappensWatches(c, trace[i - 1], events[i - 1], trace[i]);
    }
  }

  lemma ReachableWatches(c: Config, s: State)
    requires Reachable(c, s)
    ensures WatchInv(s.runner)
  {
    hide Inv, Happens;
    var init :| Init(c, init) && Leads(c, init, s);
    InitInv(c, init);
    var trace, events :| IsRun(c, trace, events) && trace[0] == init && trace[|events|] == s;
    RunWatches(c, trace, events, |events|);
  }

  /**
   * Whenever the runner polls for a service process that has died, something can wake it, and then it reaps
   * the process: the pidfd, or else SIGCHLD, which is neither blocked nor without its handler.
   */
  lemma DeadServiceIsNoticed(c: Config, s: State)
    requires Reachable(c, s) && Runnable(s.runner) && s.runner.phase == Polling && s.runner.pidEvents
    requires s.history.lastFork in s.children && s.children[s.history.lastFork].Zombie?
    ensures exists t :: Leads(c, s, t) && t.runner.phase == Blocking(s.children[s.history.lastFork].cause)
                        && t.children == map[]
  {
    ReachableInv(c, s);
    ReachableWatches(c, s);
    assert s.runner.flags.servicePid == s.history.lastFork && s.children.Keys == {s.history.lastFork};
    hide Reachable, Inv, Leads;
    var pid := s.history.lastFork;
    if s.runner.pidfd {
      LeadsStep(c, s, Step(Poll(true, false)));
      var t := Apply(c, s, Step(Poll(true, false)));
      Reaped(c, t, pid);
      LeadsOn(c, s, t, Apply(c, t, Step(Reap(pid))));
    } else {
      LeadsStep(c, s, DeliverChld);
      var t := Apply(c, s, DeliverChld);
      LeadsStep(c, t, Step(Poll(false, false)));
      var u := Apply(c, t, Step(Poll(false, false)));
      LeadsOn(c, s, t, u);
      Reaped(c, u, pid);
      LeadsOn(c, s, u, Apply(c, u, Step(Reap(pid))));
    }
  }

  lemma Reaped(c: Config, s: State, pid: Pid)
    requires s.runner.phase == Waiting && Runnable(s.runner) && s.runner.flags.servicePid == pid
    requires s.children.Keys == {pid} && s.children[pid].Zombie?
    ensures Enabled(c, s, Step(Reap(pid)))
    ensures var t := Apply(c, s, Step(Reap(pid)));
      Leads(c, s, t) && t.runner.phase == Blocking(s.children[pid].cause) && t.children == map[]
  {
    hide Leads;
    LeadsStep(c, s, Step(Reap(pid)));
    assert (s.children - {pid}).Keys == {};
  }

  // ---------------------------------------------------------------------------------------------
  // The log pipe is read to its end

  // The runner is inside its poll loop and waits for the log pipe.
  predicate Draining(r: RunnerState) {
    && r.pipeEvents
    && (|| r.phase == Polling || r.phase == Waiting || r.phase.Blocking? || r.phase.Deciding?
        || r.phase == Reporting || r.phase == Sleeping)
  }

  /** With a log pipe, that is so from the beginning of every round. */
  lemma DrainingBegins(c: Config, s: State)
    requires StepEnabled(c, s, EnterPoll)
    ensures Draining(AfterStep(c, s, EnterPoll).runner) <==> c.doPipe
  {
  }

  lemma StepDrains(c: Config, s: State, step: RunnerStep)
    requires Draining(s.runner) && StepEnabled(c, s, step) && (step.Poll? ==> !step.pipeHup)
    ensures Draining(AfterStep(c, s, step).runner)
  {
    hide Runnable, ServiceDied, CanPoll, NothingToReap, NoChildToReap, Matches, OnReap, IsCrash;
    hide AfterTest, AfterEnterPoll, AfterWritePidfile, AfterFork, AfterForkFails, AfterUnblock, AfterOpenPidfd;
    hide AfterReapAborted, AfterLeavePoll, AfterUnlinkPidfile, AfterUnlinkPidfileRunner;
  }

  lemma DeliveryDrains(c: Config, s: State, e: Event)
    requires e.Deliver? || e.DeliverChld? || e.ReapRunner?
    requires Draining(s.runner) && Enabled(c, s, e)
    ensures Draining(Apply(c, s, e).runner)
  {
    hide OnSignal;
  }

  lemma HappensDrains(c: Config, s: State, e: Event, t: State)
    requires Draining(s.runner) && Happens(c, s, e, t) && !(e.Step? && e.step.Poll? && e.step.pipeHup)
    ensures Draining(t.runner) || t.runner.phase == Destroyed
  {
    hide StepEnabled, AfterStep, ChildEnabled, AfterChild, StopEnabled, AfterStop, AfterDeliver, OnChild, Posted;
    hide Destroy;
    match e
    case Step(step) => StepDrains(c, s, step);
    case Deliver(_) => DeliveryDrains(c, s, e);
    case DeliverChld => DeliveryDrains(c, s, e);
    case ReapRunner => DeliveryDrains(c, s, e);
    case _ => OthersLeaveUntouched(c, s, e);
  }

  lemma DestroyedKept(c: Config, s: State, e: Event)
    requires s.runner.phase == Destroyed && Enabled(c, s, e)
    ensures Apply(c, s, e).runner.phase == Destroyed
  {
  }

  /**
   * As long as the pipe has not been hung up, the runner stays in its poll loop, whatever becomes of the
   * service: the death of the service alone does not end the reading of its output.
   */
  lemma {:induction false} PipeKeepsPolling(c: Config, trace: seq<State>, events: seq<Event>, i: nat)
    requires IsRun(c, trace, events) && i <= |events| && Draining(trace[0].runner)
    requires forall pidReady :: Step(Poll(pidReady, true)) !in events
    ensures Draining(trace[i].runner) || trace[i].runner.phase == Destroyed
    decreases i
  {
    if i > 0 {
      hide Draining, Enabled, Apply;
      PipeKeepsPolling(c, trace, events, i - 1);
      var e := events[i - 1];
      assert Happens(c, trace[i - 1], e, trace[i]);
      assert e in events;
      if trace[i - 1].runner.phase == Destroyed {
        DestroyedKept(c, trace[i - 1], e);
      } else {
        HappensDrains(c, trace[i - 1], e, trace[i]);
      }
    }
  }
}
