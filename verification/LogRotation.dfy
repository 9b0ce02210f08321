/** Where the log pump puts the output: which file is open when, under which name, and for how long. */
module LogRotation {
  import opened CStrings
  import opened LogPump

  // ---------------------------------------------------------------------------------------------
  // One turn

  /**
   * With a file name pattern another file is opened exactly if there is output or a rotation was asked for,
   * the name could be formatted, and it is another one than last time. The flag is never reset.
   */
  lemma OpensUnderNewName(f: Flow, turn: Turn)
    requires PossibleTurn(true, f, turn)
    ensures var g := AfterTurn(true, f, turn);
      && g.logrotateIssued == f.logrotateIssued
      && if (turn.hasLogdata || f.logrotateIssued) && turn.newName.Some? && turn.newName.value != f.path
         then && g.path == turn.newName.value && g.fdOpen == turn.openOk
              && (turn.openOk ==> g.older == f.older + [f.current] && g.current.name == turn.newName.value)
              && (!turn.openOk ==> g.older == f.older && g.current == f.current)
         else && g.path == f.path && g.fdOpen == f.fdOpen
              && g.older == f.older && g.current.name == f.current.name && f.current.content <= g.current.content
  {
  }

  /** Without one the same file is opened again exactly if a rotation was asked for, which is then done with. */
  lemma ReopensOnRequest(f: Flow, turn: Turn)
    requires PossibleTurn(false, f, turn)
    ensures var g := AfterTurn(false, f, turn);
      && g.path == f.path && !g.logrotateIssued
      && if f.logrotateIssued
         then && g.fdOpen == turn.openOk
              && (turn.openOk ==> g.older == f.older + [f.current] && g.current.name == f.path)
              && (!turn.openOk ==> g.older == f.older && g.current == f.current)
         else && g.fdOpen == f.fdOpen
              && g.older == f.older && g.current.name == f.current.name && f.current.content <= g.current.content
  {
  }

  // How many bytes write() took.
  function Accepted(writes: seq<WriteResult>): nat {
    if writes == [] then 0 else (if writes[0].Wrote? then writes[0].count else 0) + Accepted(writes[1..])
  }

  lemma {:induction false} LostIsTheRest(left: nat, writes: seq<WriteResult>)
    requires Finishes(left, writes)
    ensures Accepted(writes) == left - Lost(left, writes)
    decreases |writes|
  {
    if left > 0 {
      match writes[0]
      case Wrote(count) => LostIsTheRest(left - count, writes[1..]);
      case WriteInterrupted => LostIsTheRest(left, writes[1..]);
      case WriteFailed =>
        assert writes[1..] == [];
        assert Accepted([]) == 0;
    }
  }

  /**
   * What a turn moves: what splice() says, or what read() says if splice() does not work, of which the files
   * get what write() says. A failed read() is the only thing that makes the runner leave the loop, and a
   * hangup is the end of the pipe unless that happens.
   */
  lemma MovesWhatTheCallsSay(pattern: bool, f: Flow, turn: Turn)
    requires PossibleTurn(pattern, f, turn)
    ensures var g := AfterTurn(pattern, f, turn);
      var taken := if !turn.hasLogdata then 0
                   else if turn.splice.Moved? then turn.splice.count
                   else if turn.splice.SpliceUnsupported? && turn.read.ReadBytes? then turn.read.count
                   else 0;
      var kept := if turn.hasLogdata && turn.splice.SpliceUnsupported? && turn.read.ReadBytes?
                  then Accepted(turn.writes) else taken;
      && kept <= taken <= |f.pipe|
      && g.pipe == f.pipe[taken..] && Written(g) == Written(f) + f.pipe[..kept]
      && (g.left <==> turn.hasLogdata && turn.splice.SpliceUnsupported? && turn.read.ReadFailed?)
      && (g.pipeEvents <==> f.pipeEvents && (g.left || !turn.hangup))
  {
    hide Written, Finishes, Lost, Accepted, AfterRotation;
    TurnWrites(pattern, f, turn);
    NoRotation(pattern, f, turn);
    if turn.read.ReadBytes? {
      LostIsTheRest(turn.read.count, turn.writes);
    }
  }

  // ---------------------------------------------------------------------------------------------
  // All files

  // The log files in the order in which they were opened.
  function Files(f: Flow): seq<File<Byte>> {
    f.older + [f.current]
  }

  // The descriptor, if there is one, is that of the file the path names.
  predicate NamesTheOpenFile(f: Flow) {
    f.fdOpen ==> f.current.name == f.path
  }

  lemma TurnNames(pattern: bool, f: Flow, turn: Turn)
    requires Taken(turn) <= |f.pipe| && NamesTheOpenFile(f)
    ensures NamesTheOpenFile(AfterTurn(pattern, f, turn))
  {
    hide Taken, LostIn, Leaves;
  }

  lemma {:induction false} PathNamesTheOpenFile(pattern: bool, f: Flow, events: seq<Event>)
    requires PossibleAll(pattern, f, events) && NamesTheOpenFile(f)
    ensures NamesTheOpenFile(AfterAll(pattern, f, events))
    decreases |events|
  {
    if events != [] {
      hide AfterTurn, PossibleTurn, NamesTheOpenFile;
      var e := events[0];
      if e.Poll? {
        TakenFits(pattern, f, e.turn);
        TurnNames(pattern, f, e.turn);
      } else {
        OthersKeepFiles(pattern, f, e);
      }
      PathNamesTheOpenFile(pattern, After(pattern, f, e), events[1..]);
    }
  }

  // Files are only added at the end, and only the last one grows.
  predicate Grown(f: Flow, g: Flow) {
    && |Files(f)| <= |Files(g)|
    && (forall k :: 0 <= k < |f.older| ==> Files(g)[k] == f.older[k])
    && Files(g)[|f.older|].name == f.current.name && f.current.content <= Files(g)[|f.older|].content
  }

  lemma TurnGrows(pattern: bool, f: Flow, turn: Turn)
    requires Taken(turn) <= |f.pipe|
    ensures Grown(f, AfterTurn(pattern, f, turn))
  {
    hide Taken, LostIn, Leaves;
  }

  lemma GrownOn(f: Flow, g: Flow, h: Flow)
    requires Grown(f, g) && Grown(g, h)
    ensures Grown(f, h)
  {
    assert |f.older| < |g.older| ==> Files(h)[|f.older|] == Files(g)[|f.older|];
    assert forall k :: 0 <= k < |f.older| ==> Files(g)[k] == f.older[k];
  }

  lemma OthersKeepFiles(pattern: bool, f: Flow, e: Event)
    requires Possible(pattern, f, e) && !e.Poll?
    ensures Grown(f, After(pattern, f, e)) && Files(After(pattern, f, e)) == Files(f)
    ensures NamesTheOpenFile(After(pattern, f, e)) <==> NamesTheOpenFile(f)
    ensures After(pattern, f, e).fdOpen == f.fdOpen && After(pattern, f, e).path == f.path
  {
  }

  /** What is in a file stays there, under its name. */
  lemma {:induction false} FilesGrow(pattern: bool, f: Flow, events: seq<Event>)
    requires PossibleAll(pattern, f, events)
    ensures Grown(f, AfterAll(pattern, f, events))
    decreases |events|
  {
    hide AfterTurn, PossibleTurn;
    if events != [] {
      hide Grown;
      var e := events[0];
      if e.Poll? {
        TakenFits(pattern, f, e.turn);
        TurnGrows(pattern, f, e.turn);
      } else {
        OthersKeepFiles(pattern, f, e);
      }
      FilesGrow(pattern, After(pattern, f, e), events[1..]);
      GrownOn(f, After(pattern, f, e), AfterAll(pattern, f, events));
    }
  }

  // The file has the name and holds the bytes from some position on.
  predicate HoldsAt(file: File<Byte>, name: string, start: nat, bytes: seq<Byte>) {
    file.name == name && start + |bytes| <= |file.content| && file.content[start..start + |bytes|] == bytes
  }

  /**
   * Output that a turn writes is, whatever happens afterwards, in a file that was opened under the name the
   * pattern gave at that turn.
   */
  lemma OutputUnderItsName(f: Flow, turn: Turn, rest: seq<Event>, name: string)
    requires PossibleAll(true, f, [Poll(turn)] + rest) && NamesTheOpenFile(f)
    requires turn.hasLogdata && turn.newName == Some(name)
    ensures var g := AfterAll(true, f, [Poll(turn)] + rest);
      var bytes := f.pipe[..Taken(turn) - LostIn(turn)];
      bytes == [] || exists k, start :: 0 <= k < |Files(g)| && HoldsAt(Files(g)[k], name, start, bytes)
  {
    hide PossibleTurn, Taken, LostIn, AfterTurn, NamesTheOpenFile;
    FirstTurn(true, f, turn, rest);
    TakenFits(true, f, turn);
    var m := AfterTurn(true, f, turn);
    var bytes := f.pipe[..Taken(turn) - LostIn(turn)];
    if bytes != [] {
      var start := WrittenByTurn(f, turn, name);
      FilesGrow(true, m, rest);
      StaysInFile(m, AfterAll(true, m, rest), name, start, bytes);
    }
  }

  lemma FirstTurn(pattern: bool, f: Flow, turn: Turn, rest: seq<Event>)
    requires PossibleAll(pattern, f, [Poll(turn)] + rest)
    ensures PossibleTurn(pattern, f, turn) && Taken(turn) <= |f.pipe|
    ensures PossibleAll(pattern, AfterTurn(pattern, f, turn), rest)
    ensures AfterAll(pattern, f, [Poll(turn)] + rest) == AfterAll(pattern, AfterTurn(pattern, f, turn), rest)
  {
    hide AfterTurn;
    var events := [Poll(turn)] + rest;
    assert events[0] == Poll(turn) && events[1..] == rest;
  }

  lemma WrittenByTurn(f: Flow, turn: Turn, name: string) returns (start: nat)
    requires PossibleTurn(true, f, turn) && NamesTheOpenFile(f)
    requires turn.hasLogdata && turn.newName == Some(name) && Taken(turn) > LostIn(turn)
    ensures HoldsAt(AfterTurn(true, f, turn).current, name, start, f.pipe[..Taken(turn) - LostIn(turn)])
  {
    hide Finishes, Lost;
    var g := AfterRotation(true, f, turn);
    start := |g.current.content|;
  }

  lemma StaysInFile(f: Flow, g: Flow, name: string, start: nat, bytes: seq<Byte>)
    requires Grown(f, g) && HoldsAt(f.current, name, start, bytes)
    ensures exists k, start :: 0 <= k < |Files(g)| && HoldsAt(Files(g)[k], name, start, bytes)
  {
    var file := Files(g)[|f.older|];
    assert file.content[..|f.current.content|] == f.current.content;
    assert file.content[start..start + |bytes|] == file.content[..|f.current.content|][start..start + |bytes|];
    assert HoldsAt(file, name, start, bytes);
  }

  // ---------------------------------------------------------------------------------------------
  // Neighbouring files

  predicate NeighboursDiffer(files: seq<File<Byte>>) {
    forall k :: 0 < k < |files| ==> files[k - 1].name != files[k].name
  }

  predicate NoOpenFails(events: seq<Event>) {
    forall e :: e in events && e.Poll? ==> e.turn.openOk
  }

  lemma TurnOpensAnother(f: Flow, turn: Turn)
    requires Taken(turn) <= |f.pipe| && turn.openOk
    requires NeighboursDiffer(Files(f)) && f.current.name == f.path
    ensures var g := AfterTurn(true, f, turn); NeighboursDiffer(Files(g)) && g.current.name == g.path
  {
    hide Taken, LostIn, Leaves;
    var g := AfterTurn(true, f, turn);
    forall k | 0 < k < |Files(g)| ensures Files(g)[k - 1].name != Files(g)[k].name {
      assert k < |Files(f)| ==> Files(g)[k - 1].name == Files(f)[k - 1].name && Files(g)[k].name == Files(f)[k].name;
    }
  }

  /** With a pattern, neighbouring files have different names, if no file failed to open. */
  lemma {:induction false} PatternChangesNames(f: Flow, events: seq<Event>)
    requires PossibleAll(true, f, events) && NoOpenFails(events)
    requires NeighboursDiffer(Files(f)) && f.current.name == f.path
    ensures NeighboursDiffer(Files(AfterAll(true, f, events)))
    decreases |events|
  {
    if events != [] {
      hide AfterTurn, PossibleTurn, NeighboursDiffer;
      var e := events[0];
      assert e in events;
      assert NoOpenFails(events[1..]);
      if e.Poll? {
        TakenFits(true, f, e.turn);
        TurnOpensAnother(f, e.turn);
      } else {
        OthersKeepFiles(true, f, e);
      }
      PatternChangesNames(After(true, f, e), events[1..]);
    }
  }

  // Two turns: opening the second file fails, and then the name changes back.
  const FAILED_OPEN: seq<Event> :=
    [Poll(Turn(true, false, Some("b"), false, SpliceFailed, ReadFailed, [])),
     Poll(Turn(true, false, Some("a"), true, SpliceInterrupted, ReadFailed, []))]

  /** Else they need not: the code takes the name for the current one although the file is not open. */
  lemma FailedOpenRepeatsName()
    ensures var f := Flow([], [], File("a", []), "a", true, false, true, false);
      && PossibleAll(true, f, FAILED_OPEN)
      && Files(AfterAll(true, f, FAILED_OPEN)) == [File("a", []), File("a", [])]
  {
    var f := Flow([], [], File("a", []), "a", true, false, true, false);
    var g := After(true, f, FAILED_OPEN[0]);
    assert g == f.(path := "b", fdOpen := false);
    assert FAILED_OPEN[1..][0] == FAILED_OPEN[1] && FAILED_OPEN[1..][1..] == [];
    var h := After(true, g, FAILED_OPEN[1]);
    assert PossibleAll(true, h, []) && AfterAll(true, h, []) == h;
    assert PossibleAll(true, g, FAILED_OPEN[1..]) && AfterAll(true, g, FAILED_OPEN[1..]) == h;
  }

  predicate AllNamed(files: seq<File<Byte>>, name: string) {
    forall k :: 0 <= k < |files| ==> files[k].name == name
  }

  lemma TurnKeepsName(f: Flow, turn: Turn)
    requires Taken(turn) <= |f.pipe| && AllNamed(Files(f), f.path)
    ensures var g := AfterTurn(false, f, turn); g.path == f.path && AllNamed(Files(g), f.path)
  {
    hide Taken, LostIn, Leaves;
    assert f.current == Files(f)[|f.older|];
    assert forall k :: 0 <= k < |f.older| ==> f.older[k] == Files(f)[k];
  }

  /** Without a pattern all files have the one name. */
  lemma {:induction false} OneNameWithoutPattern(f: Flow, events: seq<Event>)
    requires PossibleAll(false, f, events)
    requires AllNamed(Files(f), f.path)
    ensures var g := AfterAll(false, f, events); g.path == f.path && AllNamed(Files(g), f.path)
    decreases |events|
  {
    if events != [] {
      var e := events[0];
      hide PossibleTurn, AfterTurn, AllNamed;
      if e.Poll? {
        TakenFits(false, f, e.turn);
        TurnKeepsName(f, e.turn);
      } else {
        OthersKeepFiles(false, f, e);
      }
      OneNameWithoutPattern(After(false, f, e), events[1..]);
    }
  }

  // ---------------------------------------------------------------------------------------------
  // How long the pipe is read

  predicate ReadFails(e: Event) {
    && e.Poll? && e.turn.hasLogdata && e.turn.splice.SpliceUnsupported? && e.turn.read.ReadFailed?
  }

  predicate HangsUp(e: Event) {
    e.Poll? && e.turn.hangup && !ReadFails(e)
  }

  /** The loop is left exactly if a read() failed, and the pipe is read up to the first hangup. */
  lemma {:induction false} ReadToTheEnd(pattern: bool, f: Flow, events: seq<Event>)
    requires PossibleAll(pattern, f, events)
    ensures var g := AfterAll(pattern, f, events);
      && (g.left <==> f.left || exists e :: e in events && ReadFails(e))
      && (g.pipeEvents <==> f.pipeEvents && forall e :: e in events ==> !HangsUp(e))
    decreases |events|
  {
    if events != [] {
      hide AfterTurn, PossibleTurn, ReadFails, HangsUp;
      var e := events[0];
      EventReads(pattern, f, e);
      ReadToTheEnd(pattern, After(pattern, f, e), events[1..]);
      assert events == [e] + events[1..];
    }
  }

  lemma EventReads(pattern: bool, f: Flow, e: Event)
    requires Possible(pattern, f, e)
    ensures var g := After(pattern, f, e);
      (g.left <==> f.left || ReadFails(e)) && (g.pipeEvents <==> f.pipeEvents && !HangsUp(e))
  {
    hide AfterTurn, AfterRotation, Written, Taken, Leaves;
    if e.Poll? {
      MovesWhatTheCallsSay(pattern, f, e.turn);
    }
  }
}
