/** Runs that exist: a complete life of a service from start to a successful stop, a stop signal that
    comes too late for the next fork, and two restart requests that come to nothing. */
module SupervisorScenario {
  import opened CStrings
  import opened RestartPolicy
  import opened Supervisor
  import opened SupervisorRuns

  // ---------------------------------------------------------------------------------------------
  // Stations of the run; `p` is the PID of the service process

  // Everything is blocked, nothing is written.
  function Fresh(c: Config): State {
    State(RunnerState(WritingPidfile, Flags(false, false, false, 0), {}, true, true, false, false, false, false),
          false, map[], {c.runnerPid}, None, None, Idle, History(false, 0, 0, [], 0, 0, 0, false, 0, NoFailure))
  }

  // The service process has been forked.
  function Forked(c: Config, p: Pid): State {
    State(RunnerState(Installing, Flags(true, false, false, p), {}, true, true, false, false, false, false),
          false, map[p := Starting], {c.runnerPid, p}, None, Some(c.runnerPid), Idle,
          History(true, 1, p, [], 0, 0, 0, false, 0, NoFailure))
  }

  // The signals can be delivered.
  function Unblocked(c: Config, p: Pid): State {
    Forked(c, p).(runner := Forked(c, p).runner.(phase := OpeningPidfd, blocked := false))
  }

  // The runner polls, the service process has not begun.
  function Launched(c: Config, p: Pid): State {
    State(RunnerState(Polling, Flags(true, false, false, p), {}, false, false, false, true, true, c.doPipe),
          false, map[p := Starting], {c.runnerPid, p}, None, Some(c.runnerPid), Idle,
          History(true, 1, p, [], 0, 0, 0, false, 0, NoFailure))
  }

  // The service runs.
  function Running(c: Config, p: Pid): State {
    State(RunnerState(Polling, Flags(true, false, false, p), {}, false, false, false, true, true, c.doPipe),
          false, map[p := Serving], {c.runnerPid, p}, Some(p), Some(c.runnerPid), Idle,
          History(true, 1, p, [], 0, 0, 0, false, 0, NoFailure))
  }

  // The stop command has read the pidfiles.
  function Found(c: Config, p: Pid): State {
    Running(c, p).(stop := ReadBoth(Some(c.runnerPid), Some(p)))
  }

  // The stop command has sent its signal.
  function Stopping(c: Config, p: Pid): State {
    State(RunnerState(Polling, Flags(true, false, false, p), {Term}, false, false, false, true, true, c.doPipe),
          false, map[p := Serving], {c.runnerPid, p}, Some(p), Some(c.runnerPid),
          Signalled(c.runnerPid, true, Some(c.runnerPid), Some(p)),
          History(true, 1, p, [], 0, 0, 0, false, 0, NoFailure))
  }

  // The handler has run and the service was killed by the forwarded signal.
  function Stopped(c: Config, p: Pid): State {
    State(RunnerState(Polling, Flags(false, false, false, p), {}, false, false, false, true, true, c.doPipe),
          false, map[p := Zombie(Killed(SIGTERM), false)], {c.runnerPid, p}, Some(p), Some(c.runnerPid),
          Signalled(c.runnerPid, true, Some(c.runnerPid), Some(p)),
          History(true, 1, p, [], 1, 0, 0, false, 0, NoFailure))
  }

  // The service process has been reaped.
  function Reaped(c: Config, p: Pid): State {
    State(RunnerState(Blocking(Killed(SIGTERM)), Flags(false, false, false, p), {},
                      false, false, false, true, true, false),
          false, map[], {c.runnerPid, p}, Some(p), Some(c.runnerPid),
          Signalled(c.runnerPid, true, Some(c.runnerPid), Some(p)),
          History(true, 1, p, [], 1, 0, 0, false, 0, NoFailure))
  }

  // The runner has decided to end.
  function Decided(c: Config, p: Pid): State {
    State(RunnerState(Polling, Flags(false, false, false, -1), {}, true, true, false, true, false, false),
          false, map[], {c.runnerPid, p}, Some(p), Some(c.runnerPid),
          Signalled(c.runnerPid, true, Some(c.runnerPid), Some(p)),
          History(true, 1, p, [Round(Killed(SIGTERM), false, 0)], 1, 0, 0, false, 0, NoFailure))
  }

  // The main loop has been left.
  function Left(c: Config, p: Pid): State {
    Decided(c, p).(runner := Decided(c, p).runner.(phase := Unlinking, pidfd := false))
  }

  // The runner has ended.
  function Ended(c: Config, p: Pid): State {
    State(RunnerState(Finished, Flags(false, false, false, -1), {}, true, true, false, false, false, false),
          false, map[], {c.runnerPid, p}, None, None,
          Signalled(c.runnerPid, true, Some(c.runnerPid), Some(p)),
          History(true, 1, p, [Round(Killed(SIGTERM), false, 0)], 1, 0, 0, false, 0, NoFailure))
  }

  // The stop command has seen it go.
  function Gone(c: Config, p: Pid): State {
    State(RunnerState(Finished, Flags(false, false, false, -1), {}, true, true, false, false, false, false),
          true, map[], {c.runnerPid, p}, None, None, Done(0, true),
          History(true, 1, p, [Round(Killed(SIGTERM), false, 0)], 1, 0, 0, false, 0, NoFailure))
  }

  // ---------------------------------------------------------------------------------------------
  // From one to the next

  lemma ToForked(c: Config, p: Pid)
    requires p > 0 && p != c.runnerPid
    ensures Leads(c, Fresh(c), Forked(c, p))
  {
    hide Leads;
    var s0 := Fresh(c);
    LeadsStep(c, s0, Step(WritePidfile(true)));
    var s1 := Apply(c, s0, Step(WritePidfile(true)));
    LeadsStep(c, s1, Step(TestRunning(true)));
    LeadsOn(c, s0, s1, Apply(c, s1, Step(TestRunning(true))));
    var s2 := Apply(c, s1, Step(TestRunning(true)));
    LeadsStep(c, s2, Step(Fork(p)));
    var s3 := Apply(c, s2, Step(Fork(p)));
    LeadsOn(c, s0, s2, s3);
    var end := Forked(c, p);
    assert s3.children == end.children && s3.used == end.used;
    assert s3.runner.pending == end.runner.pending && s3.history.rounds == end.history.rounds;
  }

  lemma ToUnblocked(c: Config, p: Pid)
    requires p > 0 && p != c.runnerPid
    ensures Leads(c, Forked(c, p), Unblocked(c, p))
  {
    hide Leads;
    var s0 := Forked(c, p);
    LeadsStep(c, s0, Step(InstallHandlers));
    var s1 := Apply(c, s0, Step(InstallHandlers));
    LeadsStep(c, s1, Step(UnblockSignals));
    var s2 := Apply(c, s1, Step(UnblockSignals));
    LeadsOn(c, s0, s1, s2);
    var end := Unblocked(c, p);
    assert s2.children == end.children && s2.used == end.used;
    assert s2.runner.pending == end.runner.pending && s2.history.rounds == end.history.rounds;
  }

  lemma ToLaunched(c: Config, p: Pid)
    requires p > 0 && p != c.runnerPid
    ensures Leads(c, Unblocked(c, p), Launched(c, p))
  {
    hide Leads;
    var s0 := Unblocked(c, p);
    LeadsStep(c, s0, Step(OpenPidfd(PidfdOpened)));
    var s1 := Apply(c, s0, Step(OpenPidfd(PidfdOpened)));
    LeadsStep(c, s1, Step(EnterPoll));
    var s2 := Apply(c, s1, Step(EnterPoll));
    LeadsOn(c, s0, s1, s2);
    var end := Launched(c, p);
    assert s2.children == end.children && s2.used == end.used;
    assert s2.runner.pending == end.runner.pending && s2.history.rounds == end.history.rounds;
  }

  lemma ToRunning(c: Config, p: Pid)
    requires p > 0 && p != c.runnerPid
    ensures Leads(c, Launched(c, p), Running(c, p))
  {
    hide Leads;
    var s0 := Launched(c, p);
    LeadsStep(c, s0, ChildDoes(p, WritesPidfile));
    var s1 := Apply(c, s0, ChildDoes(p, WritesPidfile));
    LeadsStep(c, s1, ChildDoes(p, Execs));
    var s2 := Apply(c, s1, ChildDoes(p, Execs));
    LeadsOn(c, s0, s1, s2);
    var end := Running(c, p);
    assert s2.children == end.children && s2.used == end.used;
    assert s2.runner.pending == end.runner.pending && s2.history.rounds == end.history.rounds;
  }

  lemma ToFound(c: Config, p: Pid)
    requires p > 0 && p != c.runnerPid
    ensures Leads(c, Running(c, p), Found(c, p))
  {
    hide Leads;
    var s0 := Running(c, p);
    LeadsStep(c, s0, StopDoes(ReadPidfileRunner));
    var s1 := Apply(c, s0, StopDoes(ReadPidfileRunner));
    LeadsStep(c, s1, StopDoes(ReadPidfile));
    var s2 := Apply(c, s1, StopDoes(ReadPidfile));
    LeadsOn(c, s0, s1, s2);
    var end := Found(c, p);
    assert s2.children == end.children && s2.used == end.used;
    assert s2.runner.pending == end.runner.pending && s2.history.rounds == end.history.rounds;
  }

  lemma ToStopping(c: Config, p: Pid)
    requires p > 0 && p != c.runnerPid
    ensures Leads(c, Found(c, p), Stopping(c, p))
  {
    hide Leads;
    var s0 := Found(c, p);
    LeadsStep(c, s0, StopDoes(OpenTarget(true)));
    var s1 := Apply(c, s0, StopDoes(OpenTarget(true)));
    LeadsStep(c, s1, StopDoes(SendTerm(true)));
    var s2 := Apply(c, s1, StopDoes(SendTerm(true)));
    LeadsOn(c, s0, s1, s2);
    var end := Stopping(c, p);
    assert s2.children == end.children && s2.used == end.used;
    assert s2.runner.pending == end.runner.pending && s2.history.rounds == end.history.rounds;
  }

  lemma ToStopped(c: Config, p: Pid)
    requires p > 0 && p != c.runnerPid
    ensures Leads(c, Stopping(c, p), Stopped(c, p))
  {
    hide Leads;
    var s0 := Stopping(c, p);
    LeadsStep(c, s0, Deliver(Term));
    var s1 := Apply(c, s0, Deliver(Term));
    LeadsStep(c, s1, ChildDoes(p, Dies(Killed(SIGTERM))));
    var s2 := Apply(c, s1, ChildDoes(p, Dies(Killed(SIGTERM))));
    LeadsOn(c, s0, s1, s2);
    var end := Stopped(c, p);
    assert s2.children == end.children && s2.used == end.used;
    assert s2.runner.pending == end.runner.pending && s2.history.rounds == end.history.rounds;
  }

  lemma ToReaped(c: Config, p: Pid)
    requires p > 0 && p != c.runnerPid
    ensures Leads(c, Stopped(c, p), Reaped(c, p))
  {
    hide Leads;
    var s0 := Stopped(c, p);
    LeadsStep(c, s0, Step(Poll(true, c.doPipe)));
    var s1 := Apply(c, s0, Step(Poll(true, c.doPipe)));
    LeadsStep(c, s1, Step(Reap(p)));
    var s2 := Apply(c, s1, Step(Reap(p)));
    LeadsOn(c, s0, s1, s2);
    var end := Reaped(c, p);
    assert s2.children == end.children && s2.used == end.used;
    assert s2.runner.pending == end.runner.pending && s2.history.rounds == end.history.rounds;
  }

  lemma ToDecided(c: Config, p: Pid)
    requires p > 0 && p != c.runnerPid
    ensures Leads(c, Reaped(c, p), Decided(c, p))
  {
    hide Leads;
    var s0 := Reaped(c, p);
    LeadsStep(c, s0, Step(BlockSignals));
    var s1 := Apply(c, s0, Step(BlockSignals));
    LeadsStep(c, s1, Step(Decide));
    var s2 := Apply(c, s1, Step(Decide));
    LeadsOn(c, s0, s1, s2);
    var end := Decided(c, p);
    assert s2.children == end.children && s2.used == end.used;
    assert s2.runner.pending == end.runner.pending && s2.history.rounds == end.history.rounds;
  }

  lemma ToLeft(c: Config, p: Pid)
    requires p > 0 && p != c.runnerPid
    ensures Leads(c, Decided(c, p), Left(c, p))
  {
    hide Leads;
    var s0 := Decided(c, p);
    LeadsStep(c, s0, Step(LeavePoll));
    var s1 := Apply(c, s0, Step(LeavePoll));
    LeadsStep(c, s1, Step(TestRunning(true)));
    LeadsOn(c, s0, s1, Apply(c, s1, Step(TestRunning(true))));
  }

  lemma ToEnded(c: Config, p: Pid)
    requires p > 0 && p != c.runnerPid
    ensures Leads(c, Left(c, p), Ended(c, p))
  {
    hide Leads;
    var s0 := Left(c, p);
    LeadsStep(c, s0, Step(UnlinkPidfile));
    var s1 := Apply(c, s0, Step(UnlinkPidfile));
    LeadsStep(c, s1, Step(UnlinkPidfileRunner));
    LeadsOn(c, s0, s1, Apply(c, s1, Step(UnlinkPidfileRunner)));
  }

  lemma ToGone(c: Config, p: Pid)
    requires p > 0 && p != c.runnerPid
    ensures Leads(c, Ended(c, p), Gone(c, p))
  {
    hide Leads;
    var s0 := Ended(c, p);
    LeadsStep(c, s0, StopDoes(TargetExited));
    var s1 := Apply(c, s0, StopDoes(TargetExited));
    LeadsStep(c, s1, ReapRunner);
    LeadsOn(c, s0, s1, Apply(c, s1, ReapRunner));
    var s2 := Apply(c, s1, ReapRunner);
    LeadsStep(c, s2, StopDoes(CheckTarget));
    var s3 := Apply(c, s2, StopDoes(CheckTarget));
    LeadsOn(c, s0, s2, s3);
    var end := Gone(c, p);
    assert s3.children == end.children && s3.used == end.used;
    assert s3.runner.pending == end.runner.pending && s3.history.rounds == end.history.rounds;
  }

  /** The stop command can find the runner, stop it and see it gone. */
  lemma StopCanSucceed(c: Config, p: Pid)
    requires c.runnerPid > 0 && p > 0 && p != c.runnerPid
    ensures Reachable(c, Gone(c, p)) && Gone(c, p).stop == Done(0, true) && Gone(c, p).runner.phase == Finished
  {
    hide Leads, Forked, Unblocked, Launched, Running, Found, Stopping, Stopped, Reaped, Decided, Left, Ended;
    var start := Fresh(c);
    ToForked(c, p);
    ToUnblocked(c, p);
    LeadsOn(c, start, Forked(c, p), Unblocked(c, p));
    ToLaunched(c, p);
    LeadsOn(c, start, Unblocked(c, p), Launched(c, p));
    ToRunning(c, p);
    LeadsOn(c, start, Launched(c, p), Running(c, p));
    ToFound(c, p);
    LeadsOn(c, start, Running(c, p), Found(c, p));
    ToStopping(c, p);
    LeadsOn(c, start, Found(c, p), Stopping(c, p));
    ToStopped(c, p);
    LeadsOn(c, start, Stopping(c, p), Stopped(c, p));
    ToReaped(c, p);
    LeadsOn(c, start, Stopped(c, p), Reaped(c, p));
    ToDecided(c, p);
    LeadsOn(c, start, Reaped(c, p), Decided(c, p));
    ToLeft(c, p);
    LeadsOn(c, start, Decided(c, p), Left(c, p));
    ToEnded(c, p);
    LeadsOn(c, start, Left(c, p), Ended(c, p));
    ToGone(c, p);
    LeadsOn(c, start, Ended(c, p), Gone(c, p));
    assert Init(c, start);
  }

  // ---------------------------------------------------------------------------------------------
  // A stop signal that comes too late

  // The runner is about to test `running` for the first time.
  function AtLoop(c: Config): State {
    State(RunnerState(LoopTop, Flags(true, false, false, 0), {}, true, true, false, false, false, false),
          false, map[], {c.runnerPid}, None, Some(c.runnerPid), Idle,
          History(true, 0, 0, [], 0, 0, 0, false, 0, NoFailure))
  }

  /** The bound of one more fork is met in a reachable state. */
  lemma StopCanComeLate(c: Config, p: Pid)
    requires c.runnerPid > 0 && p > 0 && p != c.runnerPid
    ensures Reachable(c, AtLoop(c)) && Enabled(c, AtLoop(c), Post(Term))
    ensures exists t :: Leads(c, Apply(c, AtLoop(c), Post(Term)), t) && t.history.forks == AtLoop(c).history.forks + 1
  {
    var start := Fresh(c);
    assert Init(c, start);
    LeadsStep(c, start, Step(WritePidfile(true)));
    assert Apply(c, start, Step(WritePidfile(true))) == AtLoop(c);
    assert Reachable(c, AtLoop(c));
    OneForkCanHappen(c, AtLoop(c), p);
  }

  // ---------------------------------------------------------------------------------------------
  // A restart request that comes to nothing

  // A restart signal was handled.
  function Restarting(c: Config, p: Pid): State {
    State(RunnerState(Polling, Flags(true, true, false, p), {}, false, false, false, true, true, c.doPipe),
          false, map[p := Serving], {c.runnerPid, p}, Some(p), Some(c.runnerPid), Idle,
          History(true, 1, p, [], 0, 1, 0, false, 0, NoFailure))
  }

  // A SIGKILL came first.
  function Shot(c: Config, p: Pid): State {
    Restarting(c, p).(children := map[p := Zombie(Killed(SIGKILL), false)])
  }

  // The service was killed before it could follow the SIGTERM of the handler.
  function KilledFirst(c: Config, p: Pid): State {
    State(RunnerState(Blocking(Killed(SIGKILL)), Flags(true, true, false, p), {},
                      false, false, false, true, true, false),
          false, map[], {c.runnerPid, p}, Some(p), Some(c.runnerPid), Idle,
          History(true, 1, p, [], 0, 1, 0, false, 0, NoFailure))
  }

  // The runner has decided to end although a restart was requested.
  function DecidedAgainst(c: Config, p: Pid): State {
    GivenUp(c, p).(runner := GivenUp(c, p).runner.(phase := Polling, pidfd := true))
  }

  // The runner removes its pidfiles.
  function GivenUp(c: Config, p: Pid): State {
    State(RunnerState(Unlinking, Flags(false, false, false, -1), {}, true, true, false, false, false, false),
          false, map[], {c.runnerPid, p}, Some(p), Some(c.runnerPid), Idle,
          History(true, 1, p, [Round(Killed(SIGKILL), true, 1)], 0, 1, 0, false, 0, NoFailure))
  }

  lemma ToRestarting(c: Config, p: Pid)
    requires p > 0 && p != c.runnerPid
    ensures Leads(c, Running(c, p), Restarting(c, p))
  {
    hide Leads;
    var s0 := Running(c, p);
    LeadsStep(c, s0, Post(Usr1));
    var s1 := Apply(c, s0, Post(Usr1));
    LeadsStep(c, s1, Deliver(Usr1));
    var s2 := Apply(c, s1, Deliver(Usr1));
    LeadsOn(c, s0, s1, s2);
    var end := Restarting(c, p);
    assert s2.children == end.children && s2.used == end.used;
    assert s2.runner.pending == end.runner.pending && s2.history.rounds == end.history.rounds;
  }

  lemma ToShot(c: Config, p: Pid)
    requires p > 0 && p != c.runnerPid
    ensures Leads(c, Restarting(c, p), Shot(c, p))
  {
    hide Leads;
    var s0 := Restarting(c, p);
    LeadsStep(c, s0, ChildDoes(p, Dies(Killed(SIGKILL))));
    var s1 := Apply(c, s0, ChildDoes(p, Dies(Killed(SIGKILL))));
    var end := Shot(c, p);
    assert s1.children == end.children && s1.used == end.used;
    assert s1.runner.pending == end.runner.pending && s1.history.rounds == end.history.rounds;
  }

  lemma ToKilledFirst(c: Config, p: Pid)
    requires p > 0 && p != c.runnerPid
    ensures Leads(c, Shot(c, p), KilledFirst(c, p))
  {
    hide Leads;
    var s0 := Shot(c, p);
    LeadsStep(c, s0, Step(Poll(true, c.doPipe)));
    var s1 := Apply(c, s0, Step(Poll(true, c.doPipe)));
    LeadsStep(c, s1, Step(Reap(p)));
    var s2 := Apply(c, s1, Step(Reap(p)));
    LeadsOn(c, s0, s1, s2);
    var end := KilledFirst(c, p);
    assert s2.children == end.children && s2.used == end.used;
    assert s2.runner.pending == end.runner.pending && s2.history.rounds == end.history.rounds;
  }

  lemma ToDecidedAgainst(c: Config, p: Pid)
    requires p > 0 && p != c.runnerPid && c.policy != Always
    ensures Leads(c, KilledFirst(c, p), DecidedAgainst(c, p))
  {
    hide Leads;
    var s0 := KilledFirst(c, p);
    LeadsStep(c, s0, Step(BlockSignals));
    var s1 := Apply(c, s0, Step(BlockSignals));
    LeadsStep(c, s1, Step(Decide));
    var s2 := Apply(c, s1, Step(Decide));
    LeadsOn(c, s0, s1, s2);
    var end := DecidedAgainst(c, p);
    assert s2.children == end.children && s2.used == end.used;
    assert s2.runner.pending == end.runner.pending && s2.history.rounds == end.history.rounds;
  }

  lemma ToGivenUp(c: Config, p: Pid)
    requires p > 0 && p != c.runnerPid
    ensures Leads(c, DecidedAgainst(c, p), GivenUp(c, p))
  {
    hide Leads;
    var s0 := DecidedAgainst(c, p);
    LeadsStep(c, s0, Step(LeavePoll));
    var s1 := Apply(c, s0, Step(LeavePoll));
    LeadsStep(c, s1, Step(TestRunning(true)));
    var s2 := Apply(c, s1, Step(TestRunning(true)));
    LeadsOn(c, s0, s1, s2);
    var end := GivenUp(c, p);
    assert s2.children == end.children && s2.used == end.used;
    assert s2.runner.pending == end.runner.pending && s2.history.rounds == end.history.rounds;
  }

  /** Unless the policy is ALWAYS, a restart request can end the runner, although nobody asked it to stop. */
  lemma RestartCanBeLost(c: Config, p: Pid)
    requires c.runnerPid > 0 && p > 0 && p != c.runnerPid && c.policy != Always
    ensures Reachable(c, GivenUp(c, p)) && GivenUp(c, p).runner.phase == Unlinking
    ensures GivenUp(c, p).history.restarts == 1 && GivenUp(c, p).history.stops == 0
  {
    hide Leads, Forked, Unblocked, Launched, Running, Restarting, Shot, KilledFirst, DecidedAgainst;
    var start := Fresh(c);
    ToForked(c, p);
    ToUnblocked(c, p);
    LeadsOn(c, start, Forked(c, p), Unblocked(c, p));
    ToLaunched(c, p);
    LeadsOn(c, start, Unblocked(c, p), Launched(c, p));
    ToRunning(c, p);
    LeadsOn(c, start, Launched(c, p), Running(c, p));
    ToRestarting(c, p);
    LeadsOn(c, start, Running(c, p), Restarting(c, p));
    ToShot(c, p);
    LeadsOn(c, start, Restarting(c, p), Shot(c, p));
    ToKilledFirst(c, p);
    LeadsOn(c, start, Shot(c, p), KilledFirst(c, p));
    ToDecidedAgainst(c, p);
    LeadsOn(c, start, KilledFirst(c, p), DecidedAgainst(c, p));
    ToGivenUp(c, p);
    LeadsOn(c, start, DecidedAgainst(c, p), GivenUp(c, p));
    assert Init(c, start);
  }

  // ---------------------------------------------------------------------------------------------
  // A restart request in a round that is aborted

  // pidfd_open() has failed and a restart signal was handled.
  function Aborted(c: Config, p: Pid): State {
    var s := Unblocked(c, p);
    s.(runner := s.runner.(phase := Aborting, flags := Flags(true, true, false, p)),
       history := s.history.(restarts := 1, failure := PidfdFailure))
  }

  // The runner removes its pidfiles; it would have gone on.
  function GivenUpEarly(c: Config, p: Pid): State {
    var s := Aborted(c, p);
    s.(runner := s.runner.(phase := Unlinking), children := map[])
  }

  lemma ToAbortStarted(c: Config, p: Pid)
    requires p > 0 && p != c.runnerPid
    ensures Leads(c, Unblocked(c, p), Aborted(c, p))
  {
    hide Leads;
    var s0 := Unblocked(c, p);
    LeadsStep(c, s0, Step(OpenPidfd(PidfdFailed)));
    var s1 := Apply(c, s0, Step(OpenPidfd(PidfdFailed)));
    LeadsStep(c, s1, Post(Usr1));
    var s2 := Apply(c, s1, Post(Usr1));
    LeadsOn(c, s0, s1, s2);
    LeadsStep(c, s2, Deliver(Usr1));
    var s3 := Apply(c, s2, Deliver(Usr1));
    LeadsOn(c, s0, s2, s3);
    var end := Aborted(c, p);
    assert s3.children == end.children && s3.used == end.used;
    assert s3.runner.pending == end.runner.pending && s3.history.rounds == end.history.rounds;
  }

  lemma ToGivenUpEarly(c: Config, p: Pid)
    requires p > 0 && p != c.runnerPid
    ensures Leads(c, Aborted(c, p), GivenUpEarly(c, p))
  {
    hide Leads;
    var s0 := Aborted(c, p);
    LeadsStep(c, s0, Step(KillChild));
    var s1 := Apply(c, s0, Step(KillChild));
    LeadsStep(c, s1, ChildDoes(p, Dies(Killed(SIGTERM))));
    var s2 := Apply(c, s1, ChildDoes(p, Dies(Killed(SIGTERM))));
    LeadsOn(c, s0, s1, s2);
    LeadsStep(c, s2, Step(ReapAborted));
    var s3 := Apply(c, s2, Step(ReapAborted));
    LeadsOn(c, s0, s2, s3);
    var end := GivenUpEarly(c, p);
    assert s3.children == end.children && s3.used == end.used;
    assert s3.runner.pending == end.runner.pending && s3.history.rounds == end.history.rounds;
  }

  /** Under every policy, ALWAYS included, a request is lost that comes when pidfd_open() has failed. */
  lemma RestartCanBeAborted(c: Config, p: Pid)
    requires c.runnerPid > 0 && p > 0 && p != c.runnerPid
    ensures Reachable(c, GivenUpEarly(c, p)) && GivenUpEarly(c, p).runner.phase == Unlinking
    ensures var h := GivenUpEarly(c, p).history; h.restarts == 1 && h.answered == 0 && h.stops == 0 && h.rounds == []
  {
    hide Leads, Forked, Unblocked, Aborted;
    var start := Fresh(c);
    ToForked(c, p);
    ToUnblocked(c, p);
    LeadsOn(c, start, Forked(c, p), Unblocked(c, p));
    ToAbortStarted(c, p);
    LeadsOn(c, start, Unblocked(c, p), Aborted(c, p));
    ToGivenUpEarly(c, p);
    LeadsOn(c, start, Aborted(c, p), GivenUpEarly(c, p));
    assert Init(c, start);
    GivenUpEarlyHistory(c, p);
  }

  lemma GivenUpEarlyHistory(c: Config, p: Pid)
    ensures var h := GivenUpEarly(c, p).history; h.restarts == 1 && h.answered == 0 && h.stops == 0 && h.rounds == []
  {
  }
}
