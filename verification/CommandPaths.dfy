/** How `command_start` turns --chroot, --chdir and the command into the path that is executed. */
module CommandPaths {
  import opened CStrings
  import opened NormPath
  import opened JoinPath
  import opened PathLaws

  // `workDir` and `command` are what the child passes to chdir() and execv(); `checked` is the path
  // whose permissions are checked before the child is started.
  datatype Exec = Exec(workDir: Option<string>, command: string, checked: string)

  datatype Resolution = Accepted(exec: Exec) | Rejected

  // ---------------------------------------------------------------------------------------------
  // What the paths mean inside the new root

  function DirStack(chdir: Option<string>): seq<string> {
    if chdir.None? then [] else Stack(chdir.value)
  }

  function CommandStack(chdir: Option<string>, command: string): seq<string> {
    if IsAbsolute(command) then Stack(command) else PushAll(DirStack(chdir), Split(command))
  }

  function Inside(stack: seq<string>): string {
    "/" + JoinSlash(stack)
  }

  // ---------------------------------------------------------------------------------------------
  // Strings in, strings out

  predicate NulFree(segments: seq<string>) {
    forall segment :: segment in segments ==> '\0' !in segment
  }

  lemma {:induction false} SplitNulFree(p: CString)
    ensures NulFree(Split(p))
    decreases |p|
  {
    var k := SegmentLength(p);
    if k < |p| {
      SplitNulFree(p[k + 1..]);
    }
  }

  lemma {:induction false} PushAllNulFree(stack: seq<string>, segments: seq<string>)
    requires NulFree(stack) && NulFree(segments)
    ensures NulFree(PushAll(stack, segments))
    decreases |segments|
  {
    if segments != [] {
      assert segments[0] in segments;
      PushAllNulFree(Push(stack, segments[0]), segments[1..]);
    }
  }

  lemma {:induction false} JoinSlashNulFree(stack: seq<string>)
    requires NulFree(stack)
    ensures '\0' !in JoinSlash(stack)
    decreases |stack|
  {
    if |stack| > 1 {
      JoinSlashNulFree(stack[..|stack| - 1]);
    }
  }

  lemma NormalizeNulFree(p: CString)
    ensures '\0' !in Normalize(p)
  {
    SplitNulFree(p);
    PushAllNulFree([], Split(p));
    JoinSlashNulFree(Stack(p));
  }

  method Norm(p: CString) returns (r: CString)
    ensures r == Normalize(p) && (p != "" ==> |r| <= |p|)
  {
    hide Normalize;
    var buf := NormPathNoEscape(p, true);
    NormalizeNulFree(p);
    r := buf[..buf.Length - 1];
  }

  method Join2(a: CString, b: CString) returns (r: Option<CString>)
    requires |a| + |b| + 2 <= SIZE_MAX
    ensures a == "" || b == "" ==> r.None?
    ensures a != "" && b != "" ==> r == Some(Join(a, b))
  {
    if a != "" && b != "" {
      JoinOne(a, b);
    }
    hide JoinAll;
    var joined := JoinPathv(a, [b]);
    if joined.Err? {
      return None;
    }
    var buf := joined.value;
    assert buf[..buf.Length - 1] == Join(a, b);
    r := Some(buf[..buf.Length - 1]);
  }

  lemma JoinOne(a: string, b: string)
    requires a != "" && b != ""
    ensures NonEmpty([b]) && JoinAll(a, [b]) == Join(a, b)
  {
    JoinAllSnoc(a, [], b);
    assert [] + [b] == [b];
  }

  // ---------------------------------------------------------------------------------------------
  // The chroot case

  lemma NormalizedDir(chdir: string)
    requires chdir != ""
    ensures Normalize(if chdir[0] != '/' then Join("/", chdir) else chdir) == Inside(Stack(chdir))
  {
    hide JoinSlash, Split, PushAll;
    if chdir[0] != '/' {
      StackOfJoin("/", chdir);
      EmptyStacks();
    }
  }

  lemma NormalizedCommand(chdir: Option<string>, command: string)
    requires command != "" && !IsAbsolute(command)
    ensures Inside(DirStack(chdir)) != ""
    ensures Normalize(Join(Inside(DirStack(chdir)), command)) == Inside(CommandStack(chdir, command))
  {
    hide JoinSlash, Split, PushAll, Stack;
    var stack := DirStack(chdir);
    if chdir.Some? {
      StackIsClean(chdir.value);
    }
    StackOfRender(true, stack);
    assert Inside(stack) == Render(true, stack);
    StackOfJoin(Inside(stack), command);
  }

  lemma InsideJoined(chroot: string, stack: seq<string>)
    requires chroot != ""
    ensures Inside(stack) != "" && Join(chroot, Inside(stack)) == chroot + Inside(stack)
  {
  }

  method ResolveWorkDir(chroot: CString, chdir: CString, canList: string -> bool) returns (r: Option<CString>)
    requires chroot != "" && |chroot| + |chdir| + 4 <= SIZE_MAX
    ensures r.Some? <==> chdir != "" && canList(chroot + Inside(Stack(chdir)))
    ensures r.Some? ==> r.value == Inside(Stack(chdir)) && |r.value| <= |chdir| + 1
  {
    hide JoinSlash, Split, PushAll, Stack, Normalize, Inside;
    var path := chdir;
    if At(chdir, 0) != '/' {
      var joined := Join2("/", chdir);
      if joined.None? {
        return None;
      }
      path := joined.value;
    }
    NormalizedDir(chdir);
    InsideJoined(chroot, Stack(chdir));
    var dir := Norm(path);
    var listed := Join2(chroot, dir);
    if listed.None? || !canList(listed.value) {
      return None;
    }
    r := Some(dir);
  }

  method ResolveCommand(ghost chdir: Option<CString>, dir: CString, command: CString) returns (r: Option<CString>)
    requires dir == Inside(DirStack(chdir)) && |dir| + |command| + 2 <= SIZE_MAX
    ensures r.Some? <==> command != ""
    ensures r.Some? ==> r.value == Inside(CommandStack(chdir, command)) && |r.value| <= |dir| + 1 + |command|
  {
    InsideJoined("/", DirStack(chdir));
    hide JoinSlash, Split, PushAll, Stack, Normalize, Inside, DirStack;
    if At(command, 0) != '/' {
      var joined := Join2(dir, command);
      if joined.None? {
        return None;
      }
      NormalizedCommand(chdir, command);
      var executed := Norm(joined.value);
      r := Some(executed);
    } else {
      NormalizedAbsolute(command);
      var executed := Norm(command);
      r := Some(executed);
    }
  }

  lemma NormalizedAbsolute(command: string)
    requires IsAbsolute(command)
    ensures Normalize(command) == Inside(Stack(command))
  {
  }

  lemma InsideSpelled(chdir: Option<string>, command: string)
    ensures chdir.Some? ==> Inside(DirStack(chdir)) == Normalize("/" + chdir.value)
    ensures command != "" ==>
      (Inside(CommandStack(chdir, command))
       == Normalize(if command[0] == '/' then command
                    else "/" + (if chdir.None? then "" else chdir.value) + "/" + command))
  {
    hide JoinSlash, Split, PushAll, Stack;
    EmptyStacks();
    var dir := if chdir.None? then "" else chdir.value;
    StackOfSlash("", dir);
    StackOfSlash("/" + dir, command);
    OneSegment(dir);
    assert "" + "/" + dir == "/" + dir;
  }

  /**
   * The path that is checked is the new root followed by the path that is executed inside it, and
   * the executed path has no "." or ".." left that could mean something else after chroot().
   */
  method ResolveInChroot(chroot: CString, chdir: Option<CString>, command: CString,
                         canList: string -> bool, canExecute: string -> bool)
    returns (r: Resolution)
    requires chroot != ""
    requires |chroot| + (if chdir.Some? then |chdir.value| else 0) + |command| + 8 <= SIZE_MAX
    ensures r.Accepted? <==>
      && canList(chroot)
      && (chdir.Some? ==> chdir.value != "" && canList(chroot + Normalize("/" + chdir.value)))
      && command != ""
      && canExecute(chroot + Normalize(if command[0] == '/' then command
                                       else "/" + (if chdir.None? then "" else chdir.value) + "/" + command))
    ensures r.Accepted? ==>
      && r.exec.workDir == (if chdir.None? then None else Some(Normalize("/" + chdir.value)))
      && r.exec.command == Normalize(if command[0] == '/' then command
                                     else "/" + (if chdir.None? then "" else chdir.value) + "/" + command)
      && r.exec.checked == chroot + r.exec.command
      && canList(chroot) && canExecute(r.exec.checked)
      && (chdir.Some? ==> canList(chroot + r.exec.workDir.value))
  {
    hide JoinSlash, Split, PushAll, Stack, CommandStack;
    InsideSpelled(chdir, command);
    if !canList(chroot) {
      return Rejected;
    }
    var dir: CString := "/";
    var workDir: Option<CString> := None;
    if chdir.Some? {
      workDir := ResolveWorkDir(chroot, chdir.value, canList);
      if workDir.None? {
        return Rejected;
      }
      dir := workDir.value;
    } else {
      JoinSlashEmpty();
    }
    hide Inside;
    var executed := ResolveCommand(chdir, dir, command);
    if executed.None? {
      return Rejected;
    }
    InsideJoined(chroot, CommandStack(chdir, command));
    var checked := Join2(chroot, executed.value);
    if checked.None? || !canExecute(checked.value) {
      return Rejected;
    }
    r := Accepted(Exec(workDir, executed.value, checked.value));
  }

  /** Nothing in the executed path is left for the kernel to interpret. */
  lemma ExecutedPathIsClean(chdir: Option<string>, command: string)
    ensures AllClean(DirStack(chdir)) && AllClean(CommandStack(chdir, command))
    ensures Canonical(Inside(CommandStack(chdir, command)))
  {
    if chdir.Some? {
      StackIsClean(chdir.value);
    }
    StackIsClean(command);
    SplitIsSlashFree(command);
    PushAllKeepsClean(DirStack(chdir), Split(command));
    assert Render(true, CommandStack(chdir, command)) == Inside(CommandStack(chdir, command));
  }
}
