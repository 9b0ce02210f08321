/** What a child's exit and the signal handlers do to the runner's flags. */
module RestartPolicy {

  datatype Signal = Term | Quit | Int | Usr1

  datatype Policy = Never | Always | OnFailure

  // How waitpid() says the service ended.
  datatype Cause = Exited(code: nat) | Killed(signal: nat) | Dumped(signal: nat)

  const SIGINT := 2
  const SIGQUIT := 3
  const SIGKILL := 9
  const SIGTERM := 15

  const STOP_SIGNALS: set<Signal> := {Term, Quit, Int}

  // The static variables the handlers and the main loop share.
  datatype Flags = Flags(running: bool, restartIssued: bool, gotSigchld: bool, servicePid: int)

  // ---------------------------------------------------------------------------------------------
  // The decision, as the documentation puts it

  // An exit with an error status, a core dump, or a signal other than the ones used to stop a service.
  predicate IsCrash(cause: Cause) {
    match cause
    case Exited(code) => code != 0
    case Dumped(_) => true
    case Killed(signal) => signal !in {SIGTERM, SIGQUIT, SIGINT, SIGKILL}
  }

  // The service was stopped from outside, not by the runner's own SIGTERM.
  predicate IsForeignStop(cause: Cause) {
    cause.Killed? && cause.signal in {SIGQUIT, SIGINT, SIGKILL}
  }

  // Does the service get another round?
  predicate Continues(policy: Policy, cause: Cause, restartIssued: bool) {
    || policy == Always
    || (policy == OnFailure && IsCrash(cause))
    || (restartIssued && !IsForeignStop(cause))
  }

  function OnStop(flags: Flags): Flags {
    if flags.servicePid == 0 then flags else flags.(running := false)
  }

  function OnRestart(flags: Flags): Flags {
    if flags.servicePid == 0 then flags else flags.(restartIssued := true)
  }

  function OnSignal(flags: Flags, signal: Signal): Flags {
    if signal == Usr1 then OnRestart(flags) else OnStop(flags)
  }

  function OnChild(flags: Flags): Flags {
    flags.(gotSigchld := true)
  }

  function OnReap(policy: Policy, flags: Flags, cause: Cause): Flags {
    flags.(running := flags.running && Continues(policy, cause, flags.restartIssued),
           restartIssued := false,
           servicePid := -1)
  }

  // The handlers that can interrupt the main loop.
  datatype Interrupt = Stopped(signal: Signal) | Restarted | ChildDied

  function OnInterrupt(flags: Flags, interrupt: Interrupt): Flags {
    match interrupt
    case Stopped(signal) => OnStop(flags)
    case Restarted => OnRestart(flags)
    case ChildDied => OnChild(flags)
  }

  function OnInterrupts(flags: Flags, interrupts: seq<Interrupt>): Flags {
    if interrupts == [] then flags
    else OnInterrupt(OnInterrupts(flags, interrupts[..|interrupts| - 1]), interrupts[|interrupts| - 1])
  }

  predicate HasStop(interrupts: seq<Interrupt>) {
    exists i :: 0 <= i < |interrupts| && interrupts[i].Stopped?
  }

  lemma HasStopNext(interrupts: seq<Interrupt>, last: Interrupt)
    ensures HasStop(interrupts + [last]) <==> HasStop(interrupts) || last.Stopped?
  {
    var all := interrupts + [last];
    if HasStop(interrupts) {
      var i :| 0 <= i < |interrupts| && interrupts[i].Stopped?;
      assert all[i].Stopped?;
    }
    assert all[|interrupts|] == last;
  }

  /** It does not matter in which order the handlers run or how often, only which of them run. */
  lemma {:induction false} HandlersCommute(flags: Flags, interrupts: seq<Interrupt>)
    ensures OnInterrupts(flags, interrupts) == Flags(
      flags.running && !(flags.servicePid != 0 && HasStop(interrupts)),
      flags.restartIssued || (flags.servicePid != 0 && Restarted in interrupts),
      flags.gotSigchld || ChildDied in interrupts,
      flags.servicePid)
    decreases |interrupts|
  {
    if interrupts != [] {
      var init, last := interrupts[..|interrupts| - 1], interrupts[|interrupts| - 1];
      HandlersCommute(flags, init);
      HasStopNext(init, last);
      assert interrupts == init + [last];
    }
  }

  // What the decision is worth to an explicit restart request.
  lemma RestartRequestHonoured(policy: Policy, cause: Cause)
    ensures Continues(policy, cause, true) <==> policy == Always || !IsForeignStop(cause)
  {
  }

  // ---------------------------------------------------------------------------------------------
  // The code

  class Runner {
    var running: bool
    var restartIssued: bool
    var gotSigchld: bool
    var servicePid: int
    // Signals sent to the service, with the PID they were sent to.
    var forwarded: seq<(int, Signal)>

    constructor ()
      ensures CurrentFlags() == Flags(false, false, false, 0) && forwarded == []
    {
      running, restartIssued, gotSigchld, servicePid, forwarded := false, false, false, 0, [];
    }

    function CurrentFlags(): Flags
      reads this
    {
      Flags(running, restartIssued, gotSigchld, servicePid)
    }

    method Forward(signal: Signal)
      modifies this`forwarded
      ensures forwarded == old(forwarded) + [(servicePid, signal)]
    {
      forwarded := forwarded + [(servicePid, signal)];
    }

    method HandleStopSignal(signal: Signal)
      requires signal in STOP_SIGNALS
      modifies this
      ensures CurrentFlags() == OnSignal(old(CurrentFlags()), signal)
      ensures forwarded == old(forwarded) + if servicePid == 0 then [] else [(servicePid, signal)]
    {
      if servicePid == 0 {
        return;
      }
      running := false;
      Forward(signal);
    }

    method HandleRestartSignal()
      modifies this
      ensures CurrentFlags() == OnSignal(old(CurrentFlags()), Usr1)
      ensures forwarded == old(forwarded) + if servicePid == 0 then [] else [(servicePid, Term)]
    {
      if servicePid == 0 {
        return;
      }
      restartIssued := true;
      Forward(Term);
    }

    method HandleChild()
      modifies this
      ensures CurrentFlags() == OnChild(old(CurrentFlags())) && forwarded == old(forwarded)
    {
      gotSigchld := true;
    }

    // The pending signals that are not blocked are handled before the main loop goes on.
    method HandlePending(interrupts: seq<Interrupt>)
      requires forall i :: i in interrupts && i.Stopped? ==> i.signal in STOP_SIGNALS
      modifies this
      ensures CurrentFlags() == OnInterrupts(old(CurrentFlags()), interrupts)
    {
      var k := 0;
      while k < |interrupts|
        invariant 0 <= k <= |interrupts|
        invariant CurrentFlags() == OnInterrupts(old(CurrentFlags()), interrupts[..k])
      {
        assert interrupts[..k + 1][..k] == interrupts[..k];
        match interrupts[k] {
          case Stopped(signal) => HandleStopSignal(signal);
          case Restarted => HandleRestartSignal();
          case ChildDied => HandleChild();
        }
        k := k + 1;
      }
      assert interrupts[..k] == interrupts;
    }

    // What happens between a successful waitpid() and the start of the crash reporter.
    method ServiceEnded(cause: Cause, policy: Policy) returns (crash: bool)
      modifies this
      ensures CurrentFlags() == OnReap(policy, old(CurrentFlags()), cause)
      ensures crash <==> match cause
        case Exited(code) => code != 0
        case Dumped(_) => true
        case Killed(signal) => signal !in {2, 3, 9, 15}
      ensures running <==> old(running) && match policy
        case Always => true
        case OnFailure => crash || (old(restartIssued) && (cause.Killed? ==> cause.signal == 15))
        case Never => old(restartIssued) && (cause.Killed? ==> cause.signal !in {2, 3, 9})
      ensures !restartIssued && servicePid == -1 && forwarded == old(forwarded)
    {
      crash := false;
      match cause {
      case Exited(code) =>
        if code == 0 {
          if !restartIssued && policy != Always {
            running := false;
          }
        } else {
          crash := true;
          if !restartIssued && policy == Never {
            running := false;
          }
        }
      case Dumped(_) =>
        crash := true;
        if !restartIssued && policy == Never {
          running := false;
        }
      case Killed(signal) =>
        if signal == SIGTERM && restartIssued {
          // killed by the SIGTERM of the restart handler
        } else if signal == SIGTERM || signal == SIGQUIT || signal == SIGINT || signal == SIGKILL {
          if policy != Always {
            running := false;
          }
        } else {
          crash := true;
          if !restartIssued && policy == Never {
            running := false;
          }
        }
      }
      restartIssued := false;
      servicePid := -1;
    }
  }
}
