/** The log pump of the poll loop: service output moves from the pipe into rotated log files. */
module LogPump {
  import opened CStrings

  type Byte = b: int | 0 <= b < 0x100

  const SPLICE_SIZE: nat := 2 * 1024 * 1024 * 1024
  const BUFSIZ: nat := 8192

  // ---------------------------------------------------------------------------------------------
  // Outcomes of the system calls

  datatype SpliceResult = Moved(count: nat) | SpliceInterrupted | SpliceUnsupported | SpliceFailed
  datatype ReadResult = ReadBytes(count: nat) | ReadFailed
  datatype WriteResult = Wrote(count: nat) | WriteInterrupted | WriteFailed

  // The write() calls of one copy: as many as it takes for `left` bytes, or up to one that fails.
  predicate Finishes(left: nat, writes: seq<WriteResult>)
    decreases |writes|
  {
    if left == 0 then writes == []
    else
      && writes != []
      && match writes[0]
         case Wrote(count) => count <= left && Finishes(left - count, writes[1..])
         case WriteInterrupted => Finishes(left, writes[1..])
         case WriteFailed => writes == [WriteFailed]
  }

  // What was still to be written when a write() failed.
  function Lost(left: nat, writes: seq<WriteResult>): (lost: nat)
    ensures lost <= left
    decreases |writes|
  {
    if left == 0 || writes == [] then 0
    else match writes[0]
      case Wrote(count) => if count <= left then Lost(left - count, writes[1..]) else 0
      case WriteInterrupted => Lost(left, writes[1..])
      case WriteFailed => left
  }

  /** A copy loses bytes exactly if one of its write() calls failed. */
  lemma {:induction false} LostExactly(left: nat, writes: seq<WriteResult>)
    requires Finishes(left, writes)
    ensures Lost(left, writes) > 0 <==> WriteFailed in writes
    decreases |writes|
  {
    if left > 0 {
      assert writes == [writes[0]] + writes[1..];
      match writes[0]
      case Wrote(count) => LostExactly(left - count, writes[1..]);
      case WriteInterrupted => LostExactly(left, writes[1..]);
      case WriteFailed =>
    }
  }

  // ---------------------------------------------------------------------------------------------
  // One round of the poll loop, as a state and what happens to it

  // A file, with the name it was opened under.
  datatype File<T> = File(name: string, content: seq<T>)

  // The pipe and the service output in the log files: those rotated away, oldest first, and the one
  // opened last. `path` and `fdOpen` are what the code knows of the latter; the rest is about the poll loop.
  datatype Flow = Flow(pipe: seq<Byte>, older: seq<File<Byte>>, current: File<Byte>, path: string, fdOpen: bool,
                       logrotateIssued: bool, pipeEvents: bool, left: bool)

  // One turn of the poll loop. `newName` is the file name the pattern gives at the current time, None
  // if formatting it failed.
  datatype Turn = Turn(hasLogdata: bool, hangup: bool, newName: Option<string>, openOk: bool,
                       splice: SpliceResult, read: ReadResult, writes: seq<WriteResult>)

  datatype Event =
    | ServiceWrites(bytes: seq<Byte>)
    | RunnerLogs(text: string)
    | LogrotateSignal
    | Poll(turn: Turn)

  function Concat(files: seq<File<Byte>>): seq<Byte> {
    if files == [] then [] else Concat(files[..|files| - 1]) + files[|files| - 1].content
  }

  // The service output in the log files, in the order of rotation.
  function Written(f: Flow): seq<Byte> {
    Concat(f.older) + f.current.content
  }

  // Does a turn (re-)open the log file? `pattern` says that its name is one.
  predicate Rotates(pattern: bool, f: Flow, turn: Turn) {
    && (turn.hasLogdata || f.logrotateIssued)
    && if pattern then turn.newName.Some? && turn.newName.value != f.path else f.logrotateIssued
  }

  function AfterRotation(pattern: bool, f: Flow, turn: Turn): Flow {
    var g := f.(logrotateIssued := pattern && f.logrotateIssued);
    if !Rotates(pattern, f, turn) then g
    else
      var named := g.(path := if pattern then turn.newName.value else f.path, fdOpen := turn.openOk);
      if turn.openOk then named.(older := f.older + [f.current], current := File(named.path, [])) else named
  }

  // How many bytes a turn takes out of the pipe, and how many of them it loses.
  function Taken(turn: Turn): nat {
    if !turn.hasLogdata then 0
    else match turn.splice
      case Moved(count) => count
      case SpliceUnsupported => if turn.read.ReadBytes? then turn.read.count else 0
      case _ => 0
  }

  function LostIn(turn: Turn): (lost: nat)
    ensures lost <= Taken(turn)
  {
    if turn.hasLogdata && turn.splice.SpliceUnsupported? && turn.read.ReadBytes? then Lost(turn.read.count, turn.writes)
    else 0
  }

  predicate Leaves(turn: Turn) {
    turn.hasLogdata && turn.splice.SpliceUnsupported? && turn.read.ReadFailed?
  }

  // What the system calls can answer; a closed descriptor makes splice() fail.
  predicate PossibleTurn(pattern: bool, f: Flow, turn: Turn) {
    && !f.left
    && (turn.hasLogdata || turn.hangup ==> f.pipeEvents)
    && Taken(turn) <= |f.pipe|
    && (turn.splice.Moved? ==> turn.splice.count <= SPLICE_SIZE)
    && (turn.read.ReadBytes? ==> turn.read.count <= BUFSIZ && Finishes(turn.read.count, turn.writes))
    && (turn.hasLogdata && !AfterRotation(pattern, f, turn).fdOpen ==> turn.splice.SpliceFailed?)
  }

  function Extended<T>(file: File<T>, more: seq<T>): File<T> {
    file.(content := file.content + more)
  }

  function AfterTurn(pattern: bool, f: Flow, turn: Turn): Flow
    requires Taken(turn) <= |f.pipe|
  {
    var g := AfterRotation(pattern, f, turn);
    var n := Taken(turn);
    g.(pipe := f.pipe[n..],
       current := Extended(g.current, f.pipe[..n - LostIn(turn)]),
       left := f.left || Leaves(turn),
       pipeEvents := f.pipeEvents && (Leaves(turn) || !turn.hangup))
  }

  predicate Possible(pattern: bool, f: Flow, e: Event) {
    e.Poll? ==> PossibleTurn(pattern, f, e.turn)
  }

  function After(pattern: bool, f: Flow, e: Event): Flow
    requires Possible(pattern, f, e)
  {
    match e
    case ServiceWrites(bytes) => f.(pipe := f.pipe + bytes)
    case RunnerLogs(_) => f
    case LogrotateSignal => f.(logrotateIssued := true)
    case Poll(turn) => AfterTurn(pattern, f, turn)
  }

  predicate PossibleAll(pattern: bool, f: Flow, events: seq<Event>)
    decreases |events|
  {
    events == [] || (Possible(pattern, f, events[0]) && PossibleAll(pattern, After(pattern, f, events[0]), events[1..]))
  }

  function AfterAll(pattern: bool, f: Flow, events: seq<Event>): Flow
    requires PossibleAll(pattern, f, events)
    decreases |events|
  {
    if events == [] then f else AfterAll(pattern, After(pattern, f, events[0]), events[1..])
  }

  // What the service wrote during the events.
  function Produced(events: seq<Event>): seq<Byte> {
    if events == [] then []
    else (if events[0].ServiceWrites? then events[0].bytes else []) + Produced(events[1..])
  }

  // How many bytes the turns lost.
  function TotalLost(events: seq<Event>): nat {
    if events == [] then 0 else (if events[0].Poll? then LostIn(events[0].turn) else 0) + TotalLost(events[1..])
  }

  // ---------------------------------------------------------------------------------------------
  // Conservation

  // Some elements of `b`, in their order.
  predicate IsSubsequence(a: seq<Byte>, b: seq<Byte>) {
    if a == [] then true
    else if b == [] then false
    else
      var m, n := |a| - 1, |b| - 1;
      (a[m] == b[n] && IsSubsequence(a[..m], b[..n])) || IsSubsequence(a, b[..n])
  }

  lemma {:induction false} SubsequenceAppend(a: seq<Byte>, b: seq<Byte>, c: seq<Byte>)
    requires IsSubsequence(a, b)
    ensures IsSubsequence(a + c, b + c)
    decreases |c|
  {
    if c == [] {
      assert a + c == a && b + c == b;
    } else {
      var k := |c| - 1;
      SubsequenceAppend(a, b, c[..k]);
      assert (a + c)[..|a| + k] == a + c[..k] && (b + c)[..|b| + k] == b + c[..k];
    }
  }

  lemma {:induction false} SubsequenceSkip(a: seq<Byte>, b: seq<Byte>, c: seq<Byte>)
    requires IsSubsequence(a, b)
    ensures IsSubsequence(a, b + c)
    decreases |c|
  {
    if c == [] {
      assert b + c == b;
    } else {
      var k := |c| - 1;
      SubsequenceSkip(a, b, c[..k]);
      assert (b + c)[..|b| + k] == b + c[..k];
    }
  }

  lemma {:induction false} SubsequenceLength(a: seq<Byte>, b: seq<Byte>)
    requires IsSubsequence(a, b)
    ensures |a| <= |b| && (|a| == |b| ==> a == b)
    decreases |b|
  {
    if a != [] {
      var m, n := |a| - 1, |b| - 1;
      if a[m] == b[n] && IsSubsequence(a[..m], b[..n]) {
        SubsequenceLength(a[..m], b[..n]);
        assert a == a[..m] + [a[m]] && b == b[..n] + [b[n]];
      } else {
        SubsequenceLength(a, b[..n]);
      }
    }
  }

  lemma {:induction false} SubsequenceSelf(a: seq<Byte>)
    ensures IsSubsequence(a, a)
    decreases |a|
  {
    if a != [] {
      SubsequenceSelf(a[..|a| - 1]);
    }
  }

  // Of the output `given` so far, `settled` was taken out of the pipe and the rest is still in it; all
  // but `lost` bytes of what was taken out are in the log files.
  ghost predicate Settled(f: Flow, given: seq<Byte>, settled: seq<Byte>, lost: nat) {
    && given == settled + f.pipe
    && IsSubsequence(Written(f), settled)
    && |settled| == |Written(f)| + lost
  }

  lemma RotationKeeps(pattern: bool, f: Flow, turn: Turn)
    ensures var g := AfterRotation(pattern, f, turn); Written(g) == Written(f) && g.pipe == f.pipe
  {
    assert (f.older + [f.current])[..|f.older|] == f.older;
    assert Concat(f.older + [f.current]) + [] == Concat(f.older) + f.current.content;
  }

  lemma TurnWrites(pattern: bool, f: Flow, turn: Turn)
    requires Taken(turn) <= |f.pipe|
    ensures Written(AfterTurn(pattern, f, turn)) == Written(f) + f.pipe[..Taken(turn) - LostIn(turn)]
    ensures AfterTurn(pattern, f, turn).pipe == f.pipe[Taken(turn)..]
  {
    hide Concat, Taken, LostIn, AfterRotation;
    var g := AfterRotation(pattern, f, turn);
    RotationKeeps(pattern, f, turn);
    var kept := f.pipe[..Taken(turn) - LostIn(turn)];
    assert Concat(g.older) + (g.current.content + kept) == Concat(g.older) + g.current.content + kept;
  }

  lemma TurnSettles(pattern: bool, f: Flow, turn: Turn, given: seq<Byte>, settled: seq<Byte>, lost: nat)
    requires Taken(turn) <= |f.pipe| && Settled(f, given, settled, lost)
    ensures Settled(AfterTurn(pattern, f, turn), given, settled + f.pipe[..Taken(turn)], lost + LostIn(turn))
  {
    hide IsSubsequence, AfterTurn, Written, Taken, LostIn;
    TurnWrites(pattern, f, turn);
    var n := Taken(turn);
    var kept, gone := f.pipe[..n - LostIn(turn)], f.pipe[n - LostIn(turn)..n];
    SubsequenceAppend(Written(f), settled, kept);
    SubsequenceSkip(Written(f) + kept, settled + kept, gone);
    assert settled + f.pipe[..n] == settled + kept + gone;
    assert settled + f.pipe == settled + f.pipe[..n] + f.pipe[n..];
  }

  lemma EventSettles(pattern: bool, f: Flow, e: Event, given: seq<Byte>, settled: seq<Byte>, lost: nat)
      returns (done: seq<Byte>)
    requires Possible(pattern, f, e) && Settled(f, given, settled, lost)
    ensures Settled(After(pattern, f, e), given + Produced([e]), done, lost + TotalLost([e]))
  {
    hide IsSubsequence, Written, AfterTurn, LostIn, PossibleTurn;
    OneEvent(e, []);
    done := settled;
    if e.Poll? {
      TakenFits(pattern, f, e.turn);
      TurnSettles(pattern, f, e.turn, given, settled, lost);
      done := settled + f.pipe[..Taken(e.turn)];
      assert given + [] == given;
    } else {
      SameOutput(f, After(pattern, f, e));
      var more := if e.ServiceWrites? then e.bytes else [];
      assert given + more == settled + (f.pipe + more) && f.pipe + [] == f.pipe;
    }
  }

  lemma OneEvent(e: Event, rest: seq<Event>)
    ensures Produced([e] + rest) == (if e.ServiceWrites? then e.bytes else []) + Produced(rest)
    ensures TotalLost([e] + rest) == (if e.Poll? then LostIn(e.turn) else 0) + TotalLost(rest)
    ensures Produced([e]) == if e.ServiceWrites? then e.bytes else []
    ensures TotalLost([e]) == if e.Poll? then LostIn(e.turn) else 0
  {
    hide LostIn;
    assert ([e] + rest)[1..] == rest && [e][1..] == [];
  }

  lemma {:induction false} RunSettles(pattern: bool, f: Flow, events: seq<Event>, given: seq<Byte>,
                                      settled: seq<Byte>, lost: nat)
      returns (done: seq<Byte>)
    requires PossibleAll(pattern, f, events) && Settled(f, given, settled, lost)
    ensures Settled(AfterAll(pattern, f, events), given + Produced(events), done, lost + TotalLost(events))
    decreases |events|
  {
    hide Settled, After, Possible;
    if events == [] {
      done := settled;
      assert given + [] == given;
    } else {
      var e, rest := events[0], events[1..];
      var next := EventSettles(pattern, f, e, given, settled, lost);
      done := RunSettles(pattern, After(pattern, f, e), rest, given + Produced([e]), next, lost + TotalLost([e]));
      assert events == [e] + rest;
      OneEvent(e, rest);
      assert given + Produced([e]) + Produced(rest) == given + (Produced([e]) + Produced(rest));
    }
  }

  lemma TakenFits(pattern: bool, f: Flow, turn: Turn)
    requires PossibleTurn(pattern, f, turn)
    ensures Taken(turn) <= |f.pipe|
  {
    hide Taken, AfterRotation, Finishes;
  }

  lemma SameOutput(f: Flow, g: Flow)
    requires f.older == g.older && f.current == g.current
    ensures Written(f) == Written(g)
  {
  }

  /**
   * Over any run of the poll loop the log files, in the order of rotation, and the pipe hold what
   * they held before and what the service wrote since, in that order and without repetition. They
   * hold all of it exactly if no turn lost bytes, and else all but as many as the turns lost.
   */
  lemma Conservation(pattern: bool, f: Flow, events: seq<Event>)
    requires PossibleAll(pattern, f, events)
    ensures var g := AfterAll(pattern, f, events);
      var given := Written(f) + f.pipe + Produced(events);
      && IsSubsequence(Written(g) + g.pipe, given)
      && |given| == |Written(g) + g.pipe| + TotalLost(events)
      && (Written(g) + g.pipe == given <==> TotalLost(events) == 0)
  {
    hide IsSubsequence, Written, AfterAll, PossibleAll, TotalLost, Produced;
    SubsequenceSelf(Written(f));
    var done := RunSettles(pattern, f, events, Written(f) + f.pipe, Written(f), 0);
    var g := AfterAll(pattern, f, events);
    SubsequenceAppend(Written(g), done, g.pipe);
    SubsequenceLength(Written(g) + g.pipe, done + g.pipe);
  }

  // A turn on the path through the buffer one of whose write() calls failed.
  predicate FailsToWrite(e: Event) {
    && e.Poll? && e.turn.hasLogdata && e.turn.splice.SpliceUnsupported? && e.turn.read.ReadBytes?
    && WriteFailed in e.turn.writes
  }

  /** Bytes are lost exactly if a write() failed in some copy through the buffer. */
  lemma {:induction false} LossExactly(pattern: bool, f: Flow, events: seq<Event>)
    requires PossibleAll(pattern, f, events)
    ensures TotalLost(events) > 0 <==> exists e :: e in events && FailsToWrite(e)
    decreases |events|
  {
    if events != [] {
      hide AfterTurn, Lost, Finishes, Taken, AfterRotation;
      var e := events[0];
      LossExactly(pattern, After(pattern, f, e), events[1..]);
      assert events == [e] + events[1..];
      if e.Poll? && e.turn.read.ReadBytes? {
        LostExactly(e.turn.read.count, e.turn.writes);
      }
      assert (e.Poll? && LostIn(e.turn) > 0) <==> FailsToWrite(e);
    }
  }

  /** It happens: a chunk of which a part is written before write() fails. */
  lemma FailedWriteLoses(bytes: seq<Byte>, written: nat)
    requires written < |bytes| <= BUFSIZ
    ensures var f := Flow(bytes, [], File("log", []), "log", true, false, true, false);
      var turn := Turn(true, false, None, true, SpliceUnsupported, ReadBytes(|bytes|), [Wrote(written), WriteFailed]);
      && PossibleTurn(false, f, turn) && LostIn(turn) == |bytes| - written
      && AfterTurn(false, f, turn).current.content == bytes[..written] && AfterTurn(false, f, turn).pipe == []
  {
    var writes := [Wrote(written), WriteFailed];
    assert writes[1..] == [WriteFailed];
    assert Lost(|bytes|, writes) == |bytes| - written && Finishes(|bytes|, writes);
    hide Lost, Finishes;
    assert [] + bytes[..written] == bytes[..written];
  }

  // ---------------------------------------------------------------------------------------------
  // The code

  // A log file receives the output of the service and the runner's own messages.
  datatype Entry = Service(byte: Byte) | Runner(text: string)

  function Tagged(bytes: seq<Byte>): (log: seq<Entry>)
    ensures |log| == |bytes|
  {
    seq(|bytes|, i requires 0 <= i < |bytes| => Service(bytes[i]))
  }

  function ServiceBytes(log: seq<Entry>): seq<Byte> {
    if log == [] then []
    else
      var last := log[|log| - 1];
      ServiceBytes(log[..|log| - 1]) + if last.Service? then [last.byte] else []
  }

  function ServiceFile(file: File<Entry>): File<Byte> {
    File(file.name, ServiceBytes(file.content))
  }

  function ServiceFiles(files: seq<File<Entry>>): seq<File<Byte>> {
    if files == [] then [] else ServiceFiles(files[..|files| - 1]) + [ServiceFile(files[|files| - 1])]
  }

  lemma {:induction false} ServiceBytesTagged(log: seq<Entry>, bytes: seq<Byte>)
    ensures ServiceBytes(log + Tagged(bytes)) == ServiceBytes(log) + bytes
    decreases |bytes|
  {
    var all := log + Tagged(bytes);
    if bytes == [] {
      assert all == log;
    } else {
      var init := bytes[..|bytes| - 1];
      assert all[..|all| - 1] == log + Tagged(init);
      ServiceBytesTagged(log, init);
      assert bytes == init + [bytes[|bytes| - 1]];
    }
  }

  lemma ServiceBytesRunner(log: seq<Entry>, text: string)
    ensures ServiceBytes(log + [Runner(text)]) == ServiceBytes(log)
  {
    assert (log + [Runner(text)])[..|log|] == log;
  }

  lemma ServiceFilesNext(files: seq<File<Entry>>, file: File<Entry>)
    ensures ServiceFiles(files + [file]) == ServiceFiles(files) + [ServiceFile(file)]
  {
    assert (files + [file])[..|files|] == files;
  }

  lemma NoRotation(pattern: bool, f: Flow, turn: Turn)
    ensures !turn.hasLogdata && !f.logrotateIssued ==> AfterRotation(pattern, f, turn) == f
    ensures var g := AfterRotation(pattern, f, turn);
      g.pipe == f.pipe && g.pipeEvents == f.pipeEvents && g.left == f.left
  {
  }

  // What is left of a copy after its first write() call.
  lemma WriteStep(left: nat, writes: seq<WriteResult>)
    requires left > 0 && Finishes(left, writes)
    ensures writes != []
    ensures var rest := writes[1..];
      match writes[0]
      case Wrote(n) => n <= left && Finishes(left - n, rest) && Lost(left, writes) == Lost(left - n, rest)
      case WriteInterrupted => Finishes(left, rest) && Lost(left, writes) == Lost(left, rest)
      case WriteFailed => Lost(left, writes) == left
  {
  }

  lemma WrittenSoFar(file: seq<Byte>, chunk: seq<Byte>, offset: nat, count: nat)
    requires offset + count <= |chunk|
    ensures file + chunk[..offset] + chunk[offset..offset + count] == file + chunk[..offset + count]
  {
  }

  lemma WritesDone(writes: seq<WriteResult>)
    ensures Lost(0, writes) == 0
  {
  }

  // One round of the main loop: from the creation of the pipe to its end.
  class Pump {
    const pattern: bool             // the log file name is a pattern

    var pipe: seq<Byte>             // written by the service, not taken out yet
    var older: seq<File<Entry>>     // log files that were rotated away, oldest first
    var current: File<Entry>        // what this round appended to the log file opened last
    var path: string
    var fdOpen: bool                // opening the current log file succeeded
    var logrotateIssued: bool
    var pipeEvents: bool
    var left: bool                  // the poll loop was left because of a failed read()

    function State(): Flow
      reads this
    {
      Flow(pipe, ServiceFiles(older), ServiceFile(current), path, fdOpen, logrotateIssued, pipeEvents, left)
    }

    constructor (pattern: bool, path: string)
      ensures this.pattern == pattern
      ensures State() == Flow([], [], File(path, []), path, true, false, true, false)
    {
      this.pattern, this.path := pattern, path;
      pipe, older, current := [], [], File(path, []);
      fdOpen, logrotateIssued, pipeEvents, left := true, false, true, false;
    }

    // The runner's own messages go to the open log file.
    method Log(text: string)
      modifies this`current
      ensures State() == old(State()) && current == Extended(old(current), [Runner(text)])
    {
      hide ServiceBytes, ServiceFiles;
      ServiceBytesRunner(current.content, text);
      current := Extended(current, [Runner(text)]);
    }

    method Append(bytes: seq<Byte>)
      modifies this`current
      ensures State() == old(State()).(current := Extended(old(State()).current, bytes))
    {
      hide ServiceBytes, ServiceFiles;
      ServiceBytesTagged(current.content, bytes);
      current := Extended(current, Tagged(bytes));
    }

    // (Re-)opening the log file under a new or the same name.
    method Reopen(newPath: string, openOk: bool)
      modifies this`older, this`current, this`path, this`fdOpen
      ensures path == newPath && older == if openOk then old(older) + [old(current)] else old(older)
      ensures current == if openOk then File(newPath, []) else old(current)
      ensures var f := old(State()).(path := newPath, fdOpen := openOk);
        State() == if openOk then f.(older := f.older + [f.current], current := File(newPath, [])) else f
    {
      if openOk {
        ServiceFilesNext(older, current);
        older := older + [current];
        current := File(newPath, []);
      }
      fdOpen := openOk;
      path := newPath;
    }

    // The part of a turn that opens another log file.
    method Rotate(turn: Turn)
      requires turn.hasLogdata || logrotateIssued
      modifies this`older, this`current, this`path, this`fdOpen, this`logrotateIssued
      ensures State() == AfterRotation(pattern, old(State()), turn)
      ensures pattern && turn.newName.Some? ==> path == turn.newName.value
      ensures turn.openOk && (if pattern then path != old(path) else old(logrotateIssued)) ==>
        older == old(older) + [old(current)] && current == File(path, [])
      ensures !(if pattern then path != old(path) else old(logrotateIssued)) ==>
        older == old(older) && current == old(current) && path == old(path)
      ensures logrotateIssued == (pattern && old(logrotateIssued))
    {
      hide ServiceBytes, ServiceFiles;
      if pattern {
        if turn.newName.Some? && turn.newName.value != path {
          Reopen(turn.newName.value, turn.openOk);
        }
      } else if logrotateIssued {
        logrotateIssued := false;
        Reopen(path, turn.openOk);
      }
    }

    // read() from the pipe into a buffer.
    method Read(count: nat) returns (buf: array<Byte>)
      requires count <= |pipe| && count <= BUFSIZ
      modifies this`pipe
      ensures fresh(buf) && buf.Length == BUFSIZ && buf[..count] == old(pipe)[..count]
      ensures pipe == old(pipe)[count..]
    {
      var bytes := pipe;
      buf := new Byte[BUFSIZ](i => if 0 <= i < count then bytes[i] else 0);
      pipe := pipe[count..];
    }

    // write() of `count` bytes at an offset of the buffer, whose contents in front of it are in the file.
    method WriteFrom(buf: array<Byte>, offset: nat, count: nat, ghost chunk: seq<Byte>, ghost file: File<Byte>)
      requires offset + count <= |chunk| <= buf.Length && buf[..|chunk|] == chunk
      requires State().current == Extended(file, chunk[..offset])
      modifies this`current
      ensures State() == old(State()).(current := Extended(file, chunk[..offset + count]))
    {
      hide ServiceBytes, ServiceFiles;
      ghost var part := buf[..|chunk|][offset..offset + count];
      assert forall i :: 0 <= i < |part| ==> part[i] == buf[offset + i];
      assert buf[offset..offset + count] == part;
      Append(buf[offset..offset + count]);
      WrittenSoFar(file.content, chunk, offset, count);
    }

    // read() into the buffer, then write() from it until it is used up or a write() fails.
    method CopyThroughBuffer(count: nat, writes: seq<WriteResult>)
      requires count <= |pipe| && count <= BUFSIZ && Finishes(count, writes)
      modifies this`pipe, this`current
      ensures var f := old(State());
        State() == f.(pipe := f.pipe[count..],
                      current := Extended(f.current, f.pipe[..count - Lost(count, writes)]))
    {
      hide ServiceBytes, ServiceFiles, Lost, Finishes;
      ghost var f := State();
      ghost var chunk := pipe[..count];
      var buf := Read(count);
      var rcount := count;
      var offset, k := 0, 0;
      assert writes[0..] == writes && chunk[..0] == [] && f.current.content + [] == f.current.content;
      while offset < rcount
        invariant 0 <= offset <= rcount == count && 0 <= k <= |writes| && buf[..rcount] == chunk
        invariant Finishes(rcount - offset, writes[k..])
        invariant Lost(rcount - offset, writes[k..]) == Lost(count, writes)
        invariant State() == f.(pipe := f.pipe[count..], current := Extended(f.current, chunk[..offset]))
        decreases |writes| - k
      {
        WriteStep(rcount - offset, writes[k..]);
        var wcount := writes[k];
        assert writes[k..][1..] == writes[k + 1..];
        k := k + 1;
        if wcount.WriteInterrupted? {
          continue;
        }
        if wcount.WriteFailed? {
          break;
        }
        WriteFrom(buf, offset, wcount.count, chunk, f.current);
        offset := offset + wcount.count;
      }
      WritesDone(writes[k..]);
      assert chunk[..offset] == f.pipe[..offset];
    }

    // The part of a turn that moves log data; returns whether the poll loop is left.
    method Take(turn: Turn) returns (leave: bool)
      requires turn.hasLogdata && Taken(turn) <= |pipe|
      requires turn.read.ReadBytes? ==> turn.read.count <= BUFSIZ && Finishes(turn.read.count, turn.writes)
      modifies this`pipe, this`current
      ensures var f := old(State()); var n := Taken(turn);
        State() == f.(pipe := f.pipe[n..], current := Extended(f.current, f.pipe[..n - LostIn(turn)]))
      ensures leave <==> Leaves(turn)
    {
      hide ServiceBytes, ServiceFiles, Lost, Finishes;
      leave := false;
      ghost var f := State();
      assert f.pipe[0..] == f.pipe && f.current.content + f.pipe[..0] == f.current.content;
      match turn.splice {
        case Moved(count) =>
          Append(pipe[..count]);
          pipe := pipe[count..];
        case SpliceInterrupted =>
        case SpliceFailed =>
          Log("splice");
        case SpliceUnsupported =>
          if turn.read.ReadFailed? {
            leave := true;
          } else {
            CopyThroughBuffer(turn.read.count, turn.writes);
          }
      }
    }

    /** One turn of the poll loop. */
    method OnPoll(turn: Turn)
      requires PossibleTurn(pattern, State(), turn)
      modifies this
      ensures State() == AfterTurn(pattern, old(State()), turn)
    {
      hide ServiceBytes, ServiceFiles, Lost, Finishes, AfterRotation;
      var leave := false;
      ghost var f := State();
      NoRotation(pattern, f, turn);
      if turn.hasLogdata || logrotateIssued {
        Rotate(turn);
        if turn.hasLogdata {
          leave := Take(turn);
        }
      }
      assert f.pipe[0..] == f.pipe && State().current.content + [] == State().current.content;
      if leave {
        left := true;
      } else if turn.hangup {
        pipeEvents := false;
      }
    }

    method Handle(e: Event)
      requires Possible(pattern, State(), e)
      modifies this
      ensures State() == After(pattern, old(State()), e)
    {
      hide ServiceBytes, ServiceFiles, PossibleTurn, AfterTurn;
      match e {
        case ServiceWrites(bytes) => pipe := pipe + bytes;
        case RunnerLogs(text) => Log(text);
        case LogrotateSignal => logrotateIssued := true;
        case Poll(turn) => OnPoll(turn);
      }
    }

    /** The poll loop, with what the service and the signal handler do between its turns. */
    method PollLoop(events: seq<Event>)
      requires PossibleAll(pattern, State(), events)
      modifies this
      ensures State() == AfterAll(pattern, old(State()), events)
      ensures var given := old(Written(State()) + State().pipe) + Produced(events);
        && IsSubsequence(Written(State()) + State().pipe, given)
        && (Written(State()) + State().pipe == given <==> forall e :: e in events ==> !FailsToWrite(e))
    {
      hide State, After, Possible, Written, Produced, IsSubsequence, FailsToWrite;
      ghost var f := State();
      var i := 0;
      assert events[0..] == events;
      while i < |events|
        invariant 0 <= i <= |events|
        invariant PossibleAll(pattern, State(), events[i..])
        invariant AfterAll(pattern, State(), events[i..]) == AfterAll(pattern, f, events)
      {
        assert events[i..][1..] == events[i + 1..];
        Handle(events[i]);
        i := i + 1;
      }
      Conservation(pattern, f, events);
      LossExactly(pattern, f, events);
    }
  }
}
