/** The restart decision, cause by cause: at the decision, at the loop test, and over whole runs. */
module SupervisorDecisions {
  import opened RestartPolicy
  import opened Supervisor
  import opened SupervisorInvariant
  import opened SupervisorRequests
  import opened SupervisorRuns
  import opened SupervisorWaysOut

  // ---------------------------------------------------------------------------------------------
  // One decision

  /**
   * FAILURE restarts after an error status and a core dump, and after a signal other than SIGINT, SIGQUIT,
   * SIGKILL and SIGTERM; a request adds the normal exit and SIGTERM. ALWAYS restarts. NEVER restarts on
   * request only, and not if the service was killed by SIGINT, SIGQUIT or SIGKILL.
   */
  lemma DecidedByCause(c: Config, s: State)
    requires StepEnabled(c, s, Decide) && s.runner.flags.running
    ensures var requested, on := s.runner.flags.restartIssued, AfterStep(c, s, Decide).runner.flags.running;
      match c.policy
      case Always => on
      case OnFailure =>
        (match s.runner.phase.cause
         case Exited(code) => on <==> code != 0 || requested
         case Dumped(_) => on
         case Killed(signal) => on <==> signal !in {2, 3, 9, 15} || (signal == 15 && requested))
      case Never =>
        (match s.runner.phase.cause
         case Killed(signal) => on <==> requested && signal !in {2, 3, 9}
         case _ => on <==> requested)
    ensures var flags := AfterStep(c, s, Decide).runner.flags; flags.servicePid == -1 && !flags.restartIssued
  {
  }

  /**
   * A crash, and nothing else, starts the reporter; then the runner sleeps if it is to go on, and with a
   * pause configured.
   */
  lemma CrashIsFollowedUp(c: Config, s: State)
    requires StepEnabled(c, s, Decide)
    ensures var t := AfterStep(c, s, Decide);
      var crash := match s.runner.phase.cause
        case Exited(code) => code != 0
        case Dumped(_) => true
        case Killed(signal) => signal !in {2, 3, 9, 15};
      var pause := t.runner.flags.running && c.sleeps;
      && (t.runner.phase == Reporting <==> crash && c.reporter)
      && (t.runner.phase == Sleeping <==> crash && !c.reporter && pause)
      && (crash && c.reporter ==>
            AfterReport(c, t).runner.phase == if pause then Sleeping else Polling)
  {
  }

  // ---------------------------------------------------------------------------------------------
  // The loop test

  // The decision about a round, by cause.
  predicate AnotherRound(policy: Policy, round: Round) {
    match policy
    case Always => true
    case OnFailure =>
      (match round.cause
       case Exited(code) => code != 0 || round.restartIssued
       case Dumped(_) => true
       case Killed(signal) => signal !in {2, 3, 9, 15} || (signal == 15 && round.restartIssued))
    case Never => round.restartIssued && !(round.cause.Killed? && round.cause.signal in {2, 3, 9})
  }

  lemma RoundByCause(policy: Policy, round: Round)
    ensures Continues(policy, round.cause, round.restartIssued) <==> AnotherRound(policy, round)
  {
  }

  /** At the top of the loop, with no stop signal handled, the last round alone decides, by its cause. */
  lemma LoopTestByCause(c: Config, s: State)
    requires Reachable(c, s) && s.runner.phase == LoopTop && StepEnabled(c, s, TestRunning(true))
    ensures var rounds := s.history.rounds;
      AfterStep(c, s, TestRunning(true)).runner.phase ==
        if s.history.stops == 0 && (rounds == [] || AnotherRound(c.policy, rounds[|rounds| - 1]))
        then Forking else Unlinking
  {
    ReachableInv(c, s);
    hide Reachable, ChildInv, MaskInv, CleanupInv, ToldInv, CountInv, StopInv, AllContinue, Continues;
    hide AnotherRound, Runnable;
    var rounds := s.history.rounds;
    assert rounds != [] ==> AllContinue(c.policy, rounds[..|rounds| - 1]);
    LoopChoice(c, s);
    hide Inv, DecisionInv, RoundInv, AfterStep, StepEnabled;
    if rounds == [] {
      NothingDecided(c.policy);
    } else {
      LastDecides(c.policy, rounds);
      RoundByCause(c.policy, rounds[|rounds| - 1]);
    }
  }

  lemma NothingDecided(policy: Policy)
    ensures AllContinue(policy, [])
  {
  }

  // ---------------------------------------------------------------------------------------------
  // Whole runs

  /** Every round that was followed by another fork was decided that way. */
  lemma ForksByCause(c: Config, s: State, i: nat)
    requires Reachable(c, s) && i + 1 < s.history.forks
    ensures i < |s.history.rounds| && AnotherRound(c.policy, s.history.rounds[i])
  {
    ForksFollowRounds(c, s, i);
    RoundByCause(c.policy, s.history.rounds[i]);
  }

  /**
   * And a runner that has left its loop, with no stop signal handled and no system call failed, has left it
   * because of its last round.
   */
  lemma LeftByCause(c: Config, s: State)
    requires Reachable(c, s) && Leaving(s.runner) && s.history.started
    requires s.history.stops == 0 && s.history.failure == NoFailure
    ensures s.history.rounds != [] && !AnotherRound(c.policy, s.history.rounds[|s.history.rounds| - 1])
  {
    ReachableInv(c, s);
    FailuresAreExact(c, s);
    hide Reachable, ChildInv, MaskInv, CleanupInv, ToldInv, CountInv, StopInv, AllContinue, Continues;
    hide AnotherRound;
    var rounds := s.history.rounds;
    NothingDecided(c.policy);
    if rounds != [] {
      ForksCover(c, s);
      LastDecides(c.policy, rounds);
      RoundByCause(c.policy, rounds[|rounds| - 1]);
    }
  }

  lemma ForksCover(c: Config, s: State)
    requires RoundInv(c, s) && s.history.rounds != []
    ensures AllContinue(c.policy, s.history.rounds[..|s.history.rounds| - 1])
  {
    hide Continues;
    var h := s.history;
    var n := |h.rounds| - 1;
    assert forall i :: 0 <= i < n ==> h.rounds[..n][i] == h.rounds[..h.forks - 1][i];
  }

  // The rounds that ended in a crash.
  function CrashRounds(rounds: seq<Round>): set<int> {
    set i | 0 <= i < |rounds| && match rounds[i].cause
      case Exited(code) => code != 0
      case Dumped(_) => true
      case Killed(signal) => signal !in {2, 3, 9, 15}
  }

  lemma {:induction false} CrashesCounted(rounds: seq<Round>)
    ensures Crashes(rounds) == |CrashRounds(rounds)|
    decreases |rounds|
  {
    if rounds != [] {
      var n := |rounds| - 1;
      CrashesCounted(rounds[..n]);
      OneMoreRound(rounds);
    }
  }

  lemma OneMoreRound(rounds: seq<Round>)
    requires rounds != []
    ensures var n := |rounds| - 1;
      CrashRounds(rounds) == (if IsCrash(rounds[n].cause) then {n} else {}) + CrashRounds(rounds[..n])
    ensures |rounds| - 1 !in CrashRounds(rounds[..|rounds| - 1])
  {
    var n := |rounds| - 1;
    assert forall i :: 0 <= i < n ==> rounds[..n][i] == rounds[i];
  }

  /** The reporter was started once for each error status, core dump and unusual signal, if there is one. */
  lemma ReportsByCause(c: Config, s: State)
    requires Reachable(c, s) && s.runner.phase != Reporting && s.runner.phase != Destroyed
    ensures s.history.reports == if c.reporter then |CrashRounds(s.history.rounds)| else 0
  {
    ReportsMatchCrashes(c, s);
    CrashesCounted(s.history.rounds);
  }
}
