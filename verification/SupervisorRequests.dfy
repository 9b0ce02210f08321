/** What becomes of a restart request that the runner handled, and of a SIGCHLD. */
module SupervisorRequests {
  import opened RestartPolicy
  import opened Supervisor
  import opened SupervisorInvariant

  // ---------------------------------------------------------------------------------------------
  // Every handled request is recorded with the round it belongs to

  // How many restart signals were handled before round i.
  function Before(rounds: seq<Round>, i: nat): nat
    requires i <= |rounds|
  {
    if i == 0 then 0 else rounds[i - 1].restarts
  }

  predicate Recorded(rounds: seq<Round>) {
    forall i :: 0 <= i < |rounds| ==> (rounds[i].restartIssued <==> rounds[i].restarts > Before(rounds, i))
  }

  predicate RequestInv(s: State) {
    var h := s.history;
    && Recorded(h.rounds)
    && Before(h.rounds, |h.rounds|) <= h.restarts
    && (s.runner.flags.restartIssued <==> h.restarts > Before(h.rounds, |h.rounds|))
  }

  predicate SameRequests(s: State, t: State) {
    && t.history.rounds == s.history.rounds && t.history.restarts == s.history.restarts
    && t.runner.flags.restartIssued == s.runner.flags.restartIssued
  }

  lemma QuietStep(c: Config, s: State, step: RunnerStep)
    requires StepEnabled(c, s, step) && !step.Decide?
    ensures SameRequests(s, AfterStep(c, s, step))
  {
    hide SameRequests, Runnable, ServiceDied, CanPoll, NothingToReap, NoChildToReap, Matches;
    hide InPhase, AfterWritePidfile, AfterTest, AfterFork, AfterForkFails, AfterUnblock, AfterOpenPidfd;
    hide AfterReapAborted, AfterEnterPoll, AfterPoll, AfterReap, AfterReapNoChild, AfterBlock, AfterDecide, AfterReport;
    hide AfterLeavePoll, AfterUnlinkPidfile, AfterUnlinkPidfileRunner;
    match step
    case WritePidfile(ok) => QuietStart(c, s, ok);
    case TestRunning(pipeOk) => QuietStart(c, s, pipeOk);
    case Fork(pid) => QuietFork(s, pid);
    case OpenPidfd(result) => QuietOpenPidfd(s, result);
    case Poll(pidReady, pipeHup) => QuietPoll(s, pidReady, pipeHup);
    case Reap(pid) => QuietReap(s, pid);
    case BlockSignals => QuietBlock(s);
    case InstallHandlers => QuietPhase(s, Unblocking);
    case KillChild => QuietPhase(s, AbortWaiting);
    case ReapNothing => QuietPhase(s, Polling);
    case Sleep => QuietPhase(s, Polling);
    case _ => QuietRest(c, s);
  }

  lemma QuietStart(c: Config, s: State, ok: bool)
    ensures SameRequests(s, AfterWritePidfile(c, s, ok)) && SameRequests(s, AfterTest(c, s, ok))
  {
  }

  lemma QuietPhase(s: State, phase: Phase)
    ensures SameRequests(s, InPhase(s, phase))
  {
  }

  lemma QuietBlock(s: State)
    requires s.runner.phase.Blocking?
    ensures SameRequests(s, AfterBlock(s))
  {
  }

  lemma QuietRest(c: Config, s: State)
    ensures SameRequests(s, AfterForkFails(s)) && SameRequests(s, AfterUnblock(s))
    ensures SameRequests(s, AfterReapAborted(s)) && SameRequests(s, AfterEnterPoll(c, s))
    ensures SameRequests(s, AfterReapNoChild(s)) && SameRequests(s, AfterReport(c, s))
    ensures SameRequests(s, AfterLeavePoll(s)) && SameRequests(s, AfterUnlinkPidfile(s))
    ensures SameRequests(s, AfterUnlinkPidfileRunner(s))
  {
  }

  lemma QuietFork(s: State, pid: Pid)
    ensures SameRequests(s, AfterFork(s, pid))
  {
  }

  lemma QuietOpenPidfd(s: State, result: PidfdResult)
    ensures SameRequests(s, AfterOpenPidfd(s, result))
  {
  }

  lemma QuietPoll(s: State, pidReady: bool, pipeHup: bool)
    ensures SameRequests(s, AfterPoll(s, pidReady, pipeHup))
  {
  }

  lemma QuietReap(s: State, pid: Pid)
    requires pid in s.children && s.children[pid].Zombie?
    ensures SameRequests(s, AfterReap(s, pid))
  {
  }

  lemma QuietPost(s: State, signal: Signal)
    ensures SameRequests(s, Posted(s, signal)) && SameRequests(s, Destroy(s))
  {
  }

  lemma QuietChild(s: State, pid: Pid, act: ChildStep)
    requires ChildEnabled(s, pid, act)
    ensures SameRequests(s, AfterChild(s, pid, act))
  {
    hide Posted;
    QuietPost(s, Term);
  }

  lemma QuietStop(c: Config, s: State, act: StopStep)
    requires StopEnabled(c, s, act)
    ensures SameRequests(s, AfterStop(c, s, act))
  {
    hide Posted, Destroy, Exists, HasExited, Target;
    QuietPost(s, Term);
  }

  lemma QuietEvent(c: Config, s: State, e: Event)
    requires Enabled(c, s, e) && !e.Step? && e != Deliver(Usr1)
    ensures SameRequests(s, Apply(c, s, e))
  {
    hide StepEnabled, AfterStep, ChildEnabled, AfterChild, StopEnabled, AfterStop, Posted, Destroy;
    match e
    case ChildDoes(pid, act) => QuietChild(s, pid, act);
    case StopDoes(act) => QuietStop(c, s, act);
    case Post(signal) => QuietPost(s, signal);
    case KillRunner => QuietPost(s, Term);
    case _ =>
  }

  lemma RecordedNext(rounds: seq<Round>, round: Round)
    requires Recorded(rounds) && (round.restartIssued <==> round.restarts > Before(rounds, |rounds|))
    ensures Recorded(rounds + [round]) && Before(rounds + [round], |rounds| + 1) == round.restarts
  {
    var all := rounds + [round];
    forall i | 0 <= i < |all| ensures all[i].restartIssued <==> all[i].restarts > Before(all, i) {
      assert i < |rounds| ==> all[i] == rounds[i];
      assert 0 < i ==> all[i - 1] == rounds[i - 1];
    }
  }

  lemma DecideRecords(c: Config, s: State)
    requires RequestInv(s) && s.runner.phase.Deciding?
    ensures RequestInv(AfterDecide(c, s))
  {
    hide Recorded, Continues, IsCrash;
    RecordedNext(s.history.rounds, Round(s.runner.phase.cause, s.runner.flags.restartIssued, s.history.restarts));
  }

  lemma RestartRecords(c: Config, s: State)
    requires MaskInv(s) && RequestInv(s) && Enabled(c, s, Deliver(Usr1))
    ensures RequestInv(AfterDeliver(s, Usr1))
  {
    hide Recorded;
  }

  lemma SameRecords(s: State, t: State)
    requires RequestInv(s) && SameRequests(s, t)
    ensures RequestInv(t)
  {
    hide Recorded;
  }

  lemma HappensRecords(c: Config, s: State, e: Event, t: State)
    requires Inv(c, s) && RequestInv(s) && Happens(c, s, e, t)
    ensures RequestInv(t)
  {
    hide ChildInv, MaskInv, CleanupInv, ToldInv, DecisionInv, RoundInv, CountInv, StopInv, RequestInv, SameRequests;
    if e == Deliver(Usr1) {
      RestartRecords(c, s);
    } else if e == Step(Decide) {
      DecideRecords(c, s);
    } else {
      hide StepEnabled, AfterStep;
      if e.Step? {
        QuietStep(c, s, e.step);
      } else {
        QuietEvent(c, s, e);
      }
      SameRecords(s, t);
    }
  }

  lemma {:induction false} RunRecords(c: Config, trace: seq<State>, events: seq<Event>, i: nat)
    requires IsRun(c, trace, events) && i <= |events| && Inv(c, trace[0]) && RequestInv(trace[0])
    ensures RequestInv(trace[i])
    decreases i
  {
    hide Inv, RequestInv, Happens;
    if i > 0 {
      RunRecords(c, trace, events, i - 1);
      assert Happens(c, trace[i - 1], events[i - 1], trace[i]);
      RunInv(c, trace, events, i - 1);
      HappensRecords(c, trace[i - 1], events[i - 1], trace[i]);
    }
  }

  lemma ReachableRecords(c: Config, s: State)
    requires Reachable(c, s)
    ensures RequestInv(s)
  {
    hide Inv, Happens;
    var init :| Init(c, init) && Leads(c, init, s);
    InitInv(c, init);
    var trace, events :| IsRun(c, trace, events) && trace[0] == init && trace[|events|] == s;
    RunRecords(c, trace, events, |events|);
  }

  /** A round counts as one with a restart request exactly if a restart signal was handled during it. */
  lemma RequestsRecorded(c: Config, s: State, i: nat)
    requires Reachable(c, s) && i < |s.history.rounds|
    ensures s.history.rounds[i].restartIssued <==> s.history.rounds[i].restarts > Before(s.history.rounds, i)
  {
    ReachableRecords(c, s);
  }

  // ---------------------------------------------------------------------------------------------
  // What a handled request is worth

  /**
   * If a restart signal was handled since the last decision, the runner goes on after this one
   * exactly under ALWAYS or if the service was not killed by SIGQUIT, SIGINT or SIGKILL.
   */
  lemma RequestDecides(c: Config, s: State)
    requires Reachable(c, s) && StepEnabled(c, s, Decide) && s.runner.flags.running
    requires s.history.restarts > Before(s.history.rounds, |s.history.rounds|)
    ensures AfterStep(c, s, Decide).runner.flags.running
      <==> c.policy == Always || !IsForeignStop(s.runner.phase.cause)
  {
    ReachableRecords(c, s);
    RestartRequestHonoured(c.policy, s.runner.phase.cause);
  }

  /** And so it does when it comes to the loop test: it forks again, unless pipe() fails, or leaves. */
  lemma RequestedRoundGoesOn(c: Config, s: State, pipeOk: bool)
    requires Reachable(c, s) && s.runner.phase == LoopTop && StepEnabled(c, s, TestRunning(pipeOk))
    requires s.history.stops == 0 && s.history.rounds != []
    requires var n := |s.history.rounds| - 1; s.history.rounds[n].restarts > Before(s.history.rounds, n)
    ensures AfterStep(c, s, TestRunning(pipeOk)).runner.phase ==
      if c.policy != Always && IsForeignStop(s.history.rounds[|s.history.rounds| - 1].cause) then Unlinking
      else if c.doPipe && !pipeOk then Unlinking
      else Forking
  {
    ReachableInv(c, s);
    ReachableRecords(c, s);
    hide Reachable, ChildInv, MaskInv, CleanupInv, ToldInv, CountInv, StopInv, Recorded, AllContinue, Continues;
    hide IsForeignStop, Runnable;
    var rounds := s.history.rounds;
    var n := |rounds| - 1;
    LastRecorded(rounds);
    RestartRequestHonoured(c.policy, rounds[n].cause);
    LastDecides(c.policy, rounds);
  }

  lemma LastRecorded(rounds: seq<Round>)
    requires Recorded(rounds) && rounds != []
    ensures var n := |rounds| - 1; rounds[n].restartIssued <==> rounds[n].restarts > Before(rounds, n)
  {
  }

  lemma LastDecides(policy: Policy, rounds: seq<Round>)
    requires rounds != [] && AllContinue(policy, rounds[..|rounds| - 1])
    ensures var last := rounds[|rounds| - 1];
      AllContinue(policy, rounds) <==> Continues(policy, last.cause, last.restartIssued)
  {
    hide Continues;
    var front := rounds[..|rounds| - 1];
    assert forall i :: 0 <= i < |front| ==> front[i] == rounds[i];
  }

  // ---------------------------------------------------------------------------------------------
  // SIGCHLD

  /**
   * The flag that handle_child() sets is enough: the next poll, whatever it reports, is followed by a
   * waitpid() that can take exactly the service process, if that has died.
   */
  lemma SignalledChildIsReaped(c: Config, s: State, pidReady: bool, pipeHup: bool, pid: Pid)
    requires Reachable(c, s) && Enabled(c, s, DeliverChld)
    requires var t := Apply(c, s, DeliverChld); StepEnabled(c, t, Poll(pidReady, pipeHup))
    ensures var u := AfterStep(c, Apply(c, s, DeliverChld), Poll(pidReady, pipeHup));
      && u.runner.phase == Waiting && !u.runner.flags.gotSigchld
      && (StepEnabled(c, u, Reap(pid)) <==> pid == s.history.lastFork && pid in s.children && s.children[pid].Zombie?)
  {
    ReachableInv(c, s);
    hide Reachable, DecisionInv, RoundInv, CountInv, ToldInv, StopInv, CleanupInv, ServiceDied;
  }
}
