/** `normpath_no_escape`: lexical path normalisation in one pass over two moving pointers. */
module NormPath {
  import opened CStrings

  // ---------------------------------------------------------------------------------------------
  // The reference definition: split on '/', let every segment act on a stack, join again.

  function SegmentLength(p: string): (k: nat)
    ensures k <= |p|
    ensures forall i :: 0 <= i < k ==> p[i] != '/'
    ensures k < |p| ==> p[k] == '/'
  {
    if p == "" || p[0] == '/' then 0 else 1 + SegmentLength(p[1..])
  }

  function Split(p: string): (segments: seq<string>)
    decreases |p|
  {
    var k := SegmentLength(p);
    if k == |p| then [p] else [p[..k]] + Split(p[k + 1..])
  }

  function JoinSlash(segments: seq<string>): string {
    if segments == [] then ""
    else if |segments| == 1 then segments[0]
    else JoinSlash(segments[..|segments| - 1]) + "/" + segments[|segments| - 1]
  }

  // Empty and "." segments do nothing, ".." pops if there is something to pop.
  function Push(stack: seq<string>, segment: string): seq<string> {
    if segment == "" || segment == "." then stack
    else if segment == ".." then (if stack == [] then [] else stack[..|stack| - 1])
    else stack + [segment]
  }

  function PushAll(stack: seq<string>, segments: seq<string>): seq<string>
    decreases |segments|
  {
    if segments == [] then stack else PushAll(Push(stack, segments[0]), segments[1..])
  }

  predicate IsAbsolute(p: string) {
    p != "" && p[0] == '/'
  }

  function Render(absolute: bool, stack: seq<string>): string {
    if absolute then "/" + JoinSlash(stack)
    else if stack == [] then "."
    else JoinSlash(stack)
  }

  function Stack(p: string): seq<string> {
    PushAll([], Split(p))
  }

  function Normalize(p: string): string {
    Render(IsAbsolute(p), Stack(p))
  }

  // ---------------------------------------------------------------------------------------------
  // Facts about splitting

  lemma SegmentEnds(p: string, k: nat)
    requires k <= |p| && '/' !in p[..k] && (k < |p| ==> p[k] == '/')
    ensures SegmentLength(p) == k
  {
    hide SegmentLength;
    assert forall i :: 0 <= i < k ==> p[i] == p[..k][i];
  }

  lemma SplitHere(p: string, k: nat)
    requires k <= |p| && '/' !in p[..k] && (k < |p| ==> p[k] == '/')
    ensures Split(p) == if k == |p| then [p] else [p[..k]] + Split(p[k + 1..])
  {
    hide SegmentLength;
    SegmentEnds(p, k);
  }

  lemma {:induction false} SplitAtSlash(a: string, b: string)
    ensures Split(a + "/" + b) == Split(a) + Split(b)
    decreases |a|
  {
    hide Split, SegmentLength;
    var p, k := a + "/" + b, SegmentLength(a);
    assert p[..k] == a[..k];
    SplitHere(p, k);
    SplitHere(a, k);
    if k == |a| {
      assert p[k + 1..] == b && a[..k] == a;
    } else {
      SplitAtSlash(a[k + 1..], b);
      assert p[k + 1..] == a[k + 1..] + "/" + b;
    }
  }

  lemma {:induction false} PushAllAppend(stack: seq<string>, s: seq<string>, t: seq<string>)
    ensures PushAll(stack, s + t) == PushAll(PushAll(stack, s), t)
    decreases |s|
  {
    if s == [] {
      assert s + t == t;
    } else {
      assert (s + t)[1..] == s[1..] + t;
      PushAllAppend(Push(stack, s[0]), s[1..], t);
    }
  }

  // Consuming one '/' of the rest of a path changes nothing.
  lemma SkipSlash(stack: seq<string>, p: string)
    requires p != "" && p[0] == '/'
    ensures PushAll(stack, Split(p)) == PushAll(stack, Split(p[1..]))
  {
    hide Split, SegmentLength;
    SplitHere(p, 0);
    PushFirst(stack, "", Split(p[1..]));
    assert p[..0] == "";
  }

  lemma PushFirst(stack: seq<string>, segment: string, rest: seq<string>)
    ensures PushAll(stack, [segment] + rest) == PushAll(Push(stack, segment), rest)
  {
    assert ([segment] + rest)[1..] == rest;
  }

  lemma ReadBack(stack: seq<string>, path: string, src: nat)
    requires src < |path| && path[src] == '/'
    ensures PushAll(stack, Split(path[src..])) == PushAll(stack, Split(path[src + 1..]))
  {
    SkipSlash(stack, path[src..]);
    assert path[src..][1..] == path[src + 1..];
  }

  // Consuming one whole segment pushes it.
  lemma TakeSegment(stack: seq<string>, p: string, k: nat)
    requires k <= |p| && '/' !in p[..k]
    requires k < |p| ==> p[k] == '/'
    ensures PushAll(stack, Split(p)) == PushAll(Push(stack, p[..k]), Split(p[k..]))
  {
    hide Split, SegmentLength;
    SplitHere(p, k);
    if k == |p| {
      assert p[..k] == p && p[k..] == "";
      SplitHere("", 0);
      PushFirst(stack, p, []);
      PushFirst(Push(stack, p), "", []);
    } else {
      PushFirst(stack, p[..k], Split(p[k + 1..]));
      SkipSlash(Push(stack, p[..k]), p[k..]);
      assert p[k..][1..] == p[k + 1..];
    }
  }

  // ---------------------------------------------------------------------------------------------
  // What the output buffer holds for a stack of segments

  // A segment the stack may hold.
  predicate Clean(segment: string) {
    segment != "" && segment != "." && segment != ".." && '/' !in segment
  }

  predicate AllClean(stack: seq<string>) {
    forall segment :: segment in stack ==> Clean(segment)
  }

  function Root(absolute: bool): string {
    if absolute then "/" else ""
  }

  // The last segment is complete, no separator follows it yet.
  function Closed(absolute: bool, stack: seq<string>): string {
    Root(absolute) + JoinSlash(stack)
  }

  // The buffer is ready to take the next segment.
  function Open(absolute: bool, stack: seq<string>): string {
    if stack == [] then Root(absolute) else Closed(absolute, stack) + "/"
  }

  lemma CloseSegment(absolute: bool, stack: seq<string>, segment: string)
    ensures Closed(absolute, stack + [segment]) == Open(absolute, stack) + segment
  {
    assert (stack + [segment])[..|stack|] == stack;
  }

  lemma JoinSlashNonEmpty(stack: seq<string>)
    requires AllClean(stack) && stack != []
    ensures JoinSlash(stack) != ""
  {
    assert Clean(stack[|stack| - 1]);
  }

  // Dropping the last segment of an open buffer leaves the open buffer of the shorter stack.
  lemma OpenTop(absolute: bool, stack: seq<string>)
    requires AllClean(stack) && stack != []
    ensures var n := |stack| - 1; Open(absolute, stack) == Open(absolute, stack[..n]) + stack[n] + "/"
    ensures stack[|stack| - 1] != "" && '/' !in stack[|stack| - 1]
    ensures AllClean(stack[..|stack| - 1])
    ensures |Open(absolute, stack)| > 1
    ensures |stack| > 1 ==> |Open(absolute, stack[..|stack| - 1])| > 1
  {
    var n := |stack| - 1;
    assert stack == stack[..n] + [stack[n]];
    CloseSegment(absolute, stack[..n], stack[n]);
    assert Clean(stack[n]);
    if n > 0 {
      JoinSlashNonEmpty(stack[..n]);
    }
  }

  // ---------------------------------------------------------------------------------------------
  // The positions the main loop can be in, as relations between the read index and the buffer

  // Nothing written, the leading '/' still unread.
  predicate AtStart(absolute: bool, stack: seq<string>, src: nat, written: string) {
    absolute && src == 0 && written == "" && stack == []
  }

  // In front of a segment; with an empty stack the path may also have ended.
  predicate BeforeSegment(path: string, absolute: bool, stack: seq<string>, src: nat, written: string)
    requires src <= |path|
  {
    && written == Open(absolute, stack)
    && At(path, src) != '/'
    && (stack != [] ==> src < |path|)
  }

  // Behind a segment, in front of '/' or the end.
  predicate BehindSegment(path: string, absolute: bool, stack: seq<string>, src: nat, written: string)
    requires src <= |path|
  {
    && written == Closed(absolute, stack)
    && stack != []
    && (src < |path| ==> path[src] == '/')
  }

  predicate Progress(path: string, absolute: bool, stack: seq<string>, src: nat, written: string)
    requires src <= |path|
  {
    && AllClean(stack)
    && PushAll(stack, Split(path[src..])) == Stack(path)
    && (|| AtStart(absolute, stack, src, written)
        || BeforeSegment(path, absolute, stack, src, written)
        || BehindSegment(path, absolute, stack, src, written))
  }

  // A '/' in front of the read position was consumed and, unless it was a trailing one, written.
  lemma SlashDone(path: string, stack: seq<string>, from: nat, src: nat, before: string, after: string)
    requires from < src <= |path| && path[from] == '/' && (src < |path| ==> path[src] != '/')
    requires Progress(path, IsAbsolute(path), stack, from, before)
    requires PushAll(stack, Split(path[src..])) == PushAll(stack, Split(path[from..]))
    requires after == if before != "" && src == |path| then before else before + "/"
    ensures Progress(path, IsAbsolute(path), stack, src, after)
  {
    if stack != [] {
      JoinSlashNonEmpty(stack);
    }
  }

  // In front of a segment the buffer is open.
  lemma BufferIsOpen(path: string, stack: seq<string>, src: nat, written: string)
    requires src < |path| && path[src] != '/'
    requires Progress(path, IsAbsolute(path), stack, src, written)
    ensures AllClean(stack) && PushAll(stack, Split(path[src..])) == Stack(path)
    ensures written == Open(IsAbsolute(path), stack)
    ensures |written| > 1 <==> stack != []
    ensures |written| > 1 ==> written == Closed(IsAbsolute(path), stack) + "/"
  {
    hide Split, PushAll, Stack;
    if stack != [] {
      OpenTop(IsAbsolute(path), stack);
    }
  }

  // A dot segment was read and the buffer holds complete segments only.
  lemma DotsDone(path: string, stack: seq<string>, src: nat)
    requires src <= |path| && AllClean(stack) && PushAll(stack, Split(path[src..])) == Stack(path)
    requires stack == [] ==> At(path, src) != '/'
    requires stack != [] && src < |path| ==> path[src] == '/'
    ensures Progress(path, IsAbsolute(path), stack, src, if stack
        == [] then Open(IsAbsolute(path), []) else Closed(IsAbsolute(path), stack))
  {
  }

  lemma TakeSegmentAt(stack: seq<string>, path: string, from: nat, segment: string)
    requires from + |segment| <= |path| && path[from..from + |segment|] == segment && '/' !in segment
    requires from + |segment| < |path| ==> path[from + |segment|] == '/'
    ensures PushAll(stack, Split(path[from..])) == PushAll(Push(stack, segment), Split(path[from + |segment|..]))
  {
    hide Split, PushAll;
    var p, k := path[from..], |segment|;
    assert p[..k] == segment && p[k..] == path[from + k..];
    TakeSegment(stack, p, k);
  }

  lemma SegmentDone(path: string, stack: seq<string>, from: nat, segment: string, before: string)
    requires from + |segment| <= |path| && path[from..from + |segment|] == segment
    requires Clean(segment) && (from + |segment| < |path| ==> path[from + |segment|] == '/')
    requires Progress(path, IsAbsolute(path), stack, from, before)
    ensures Progress(path, IsAbsolute(path), stack + [segment], from + |segment|, before + segment)
  {
    hide Split, PushAll, JoinSlash, Stack, Open, Closed;
    assert path[from] == segment[0];
    TakeSegmentAt(stack, path, from, segment);
    CloseSegment(IsAbsolute(path), stack, segment);
  }

  lemma Started(path: string)
    requires path != ""
    ensures Progress(path, IsAbsolute(path), [], 0, "")
  {
    assert path[0..] == path;
  }

  lemma NormalizeEmpty()
    ensures Normalize("") == "."
  {
    assert Split("") == [""] && PushAll([], [""]) == PushAll([], []);
  }

  lemma Finished(path: string, stack: seq<string>, written: string)
    requires path != ""
    requires Progress(path, IsAbsolute(path), stack, |path|, written)
    ensures (if written == "" then "." else written) == Normalize(path)
  {
    assert path[|path|..] == "";
    assert Split("") == [""];
    assert PushAll(stack, [""]) == PushAll(stack, []);
    if stack != [] {
      JoinSlashNonEmpty(stack);
    }
  }

  // ---------------------------------------------------------------------------------------------
  // The implementation

  method SkipSlashes(path: CString, start: nat, ghost stack: seq<string>) returns (src: nat)
    requires start <= |path|
    ensures start <= src <= |path|
    ensures src < |path| ==> path[src] != '/'
    ensures forall k :: start <= k < src ==> path[k] == '/'
    ensures PushAll(stack, Split(path[src..])) == PushAll(stack, Split(path[start..]))
  {
    hide Split, PushAll;
    src := start;
    while At(path, src) == '/'
      invariant start <= src <= |path|
      invariant forall k :: start <= k < src ==> path[k] == '/'
      invariant PushAll(stack, Split(path[src..])) == PushAll(stack, Split(path[start..]))
      decreases |path| - src
    {
      ReadBack(stack, path, src);
      src := src + 1;
    }
  }

  // Moves the write position back over the last segment and its separator.
  method WalkBack(newpath: array<char>, end: nat, ghost kept: string, ghost top: string) returns (dest: nat)
    requires 1 < end <= newpath.Length && newpath[..end] == kept + top + "/"
    requires top != "" && '/' !in top
    requires kept == "" || kept[|kept| - 1] == '/'
    ensures dest == |kept| && newpath[..dest] == kept
  {
    dest := end - 1;
    assert newpath[dest] == newpath[..end][dest] == '/';
    assert forall k :: |kept| <= k < dest ==> newpath[k] == newpath[..end][k] == top[k - |kept|];
    assert kept != "" ==> newpath[|kept| - 1] == newpath[..end][|kept| - 1] == '/';
    while dest > 0 && newpath[dest - 1] != '/'
      invariant |kept| <= dest < end
    {
      dest := dest - 1;
    }
    assert newpath[..dest] == newpath[..end][..dest];
  }

  // The ".." branch: drop the last written segment, reread the separator if one must be written again.
  method ParentSegment(path: CString, newpath: array<char>, from: nat, end: nat, ghost stack: seq<string>)
    returns (src: nat, dest: nat, ghost stack': seq<string>)
    requires end <= from && from + 2 <= |path| < newpath.Length
    requires path[from] == '.' && path[from + 1] == '.' && (from + 2 < |path| ==> path[from + 2] == '/')
    requires Progress(path, IsAbsolute(path), stack, from, newpath[..end])
    ensures from < src <= |path| && dest <= end
    ensures stack' == if stack == [] then [] else stack[..|stack| - 1]
    ensures Progress(path, IsAbsolute(path), stack', src, newpath[..dest])
  {
    hide Split, PushAll, JoinSlash, Stack, Progress, Open, Closed;
    ghost var absolute := IsAbsolute(path);
    BufferIsOpen(path, stack, from, newpath[..end]);
    stack' := Push(stack, "..");
    TakeSegmentAt(stack, path, from, "..");
    src := SkipSlashes(path, from + 2, stack');
    dest := end;
    if dest > 1 {
      src, dest := DropTop(path, newpath, src, end, stack);
    } else {
      DotsDone(path, stack', src);
    }
  }

  // The written part of that: the last segment is removed, and its separator if something is left.
  method DropTop(path: CString, newpath: array<char>, from: nat, end: nat, ghost stack: seq<string>)
    returns (src: nat, dest: nat)
    requires 1 < end <= newpath.Length && 1 < from <= |path| && stack != [] && AllClean(stack)
    requires newpath[..end] == Open(IsAbsolute(path), stack)
    requires (from < |path| ==> path[from] != '/') && (path[from - 1] != '/' ==> from == |path|)
    requires PushAll(stack[..|stack| - 1], Split(path[from..])) == Stack(path)
    ensures from - 1 <= src <= |path| && dest <= end && (src < from ==> path[from - 1] == '/')
    ensures Progress(path, IsAbsolute(path), stack[..|stack| - 1], src, newpath[..dest])
  {
    hide Split, PushAll, JoinSlash, Stack, Progress, Closed;
    ghost var absolute := IsAbsolute(path);
    ghost var rest := stack[..|stack| - 1];
    OpenTop(absolute, stack);
    src := from;
    dest := WalkBack(newpath, end, Open(absolute, rest), stack[|stack| - 1]);
    if dest > 1 && newpath[dest - 1] == '/' {
      dest := dest - 1;
      assert newpath[..dest] == Closed(absolute, rest);
      if path[src - 1] == '/' {
        src := src - 1;
        ReadBack(rest, path, src);
      }
    }
    DotsDone(path, rest, src);
  }

  // The "." branch: take the separator back, reread it if there was one.
  method CurrentSegment(path: CString, newpath: array<char>, from: nat, end: nat, ghost stack: seq<string>)
    returns (src: nat, dest: nat)
    requires end <= from < |path| < newpath.Length
    requires path[from] == '.' && (from + 1 < |path| ==> path[from + 1] == '/')
    requires Progress(path, IsAbsolute(path), stack, from, newpath[..end])
    ensures from < src <= |path| && dest <= end
    ensures Progress(path, IsAbsolute(path), stack, src, newpath[..dest])
  {
    hide Split, PushAll, JoinSlash, Stack, Progress, Closed;
    BufferIsOpen(path, stack, from, newpath[..end]);
    TakeSegmentAt(stack, path, from, ".");
    src := SkipSlashes(path, from + 1, stack);
    dest := end;
    if dest > 1 {
      dest := dest - 1;
      assert newpath[dest] == newpath[..end][dest] == '/';
      assert newpath[..dest] == Closed(IsAbsolute(path), stack);
      if path[src - 1] == '/' {
        src := src - 1;
        ReadBack(stack, path, src);
      }
    }
    DotsDone(path, stack, src);
  }

  // The '/' branch: a run of slashes is written as one, a trailing run not at all.
  method Separator(path: CString, newpath: array<char>, from: nat, end: nat, ghost stack: seq<string>)
    returns (src: nat, dest: nat)
    requires end <= from < |path| < newpath.Length && path[from] == '/'
    requires Progress(path, IsAbsolute(path), stack, from, newpath[..end])
    modifies newpath
    ensures from < src <= |path| && dest <= src
    ensures Progress(path, IsAbsolute(path), stack, src, newpath[..dest])
  {
    hide Split, PushAll, JoinSlash, Progress;
    ReadBack(stack, path, from);
    src := SkipSlashes(path, from + 1, stack);
    dest := end;
    ghost var before := newpath[..end];
    if !(dest > 0 && src == |path|) {
      newpath[dest] := '/';
      dest := dest + 1;
      assert newpath[..dest] == before + "/";
    }
    SlashDone(path, stack, from, src, before, newpath[..dest]);
  }

  method CopyToSlash(path: CString, newpath: array<char>, from: nat, end: nat) returns (src: nat, dest: nat)
    requires end <= from <= |path| < newpath.Length
    modifies newpath
    ensures from <= src <= |path| && dest == end + (src - from)
    ensures '/' !in path[from..src] && (src < |path| ==> path[src] == '/')
    ensures newpath[..dest] == old(newpath[..end]) + path[from..src]
  {
    src, dest := from, end;
    while At(path, src) != '/' && At(path, src) != '\0'
      invariant from <= src <= |path| && dest == end + (src - from)
      invariant forall k :: from <= k < src ==> path[k] != '/'
      invariant newpath[..end] == old(newpath[..end])
      invariant forall k :: from <= k < src ==> newpath[end + k - from] == path[k]
      decreases |path| - src
    {
      newpath[dest] := path[src];
      dest := dest + 1;
      src := src + 1;
    }
  }

  // Any other segment is copied.
  method CopySegment(path: CString, newpath: array<char>, from: nat, end: nat, ghost stack: seq<string>)
    returns (src: nat, dest: nat, ghost stack': seq<string>)
    requires end <= from < |path| < newpath.Length && path[from] != '/'
    requires !(path[from] == '.' && (At(path, from + 1) == '/' || At(path, from + 1) == '\0'))
    requires !(path[from] == '.' && At(path, from + 1) == '.' && (At(path, from + 2) == '/' || At(path, from + 2)
        == '\0'))
    requires Progress(path, IsAbsolute(path), stack, from, newpath[..end])
    modifies newpath
    ensures from < src <= |path| && dest <= src
    ensures stack' == stack + [path[from..src]] && (src < |path| ==> path[src] == '/') && '/' !in path[from..src]
    ensures Progress(path, IsAbsolute(path), stack', src, newpath[..dest])
  {
    hide Split, PushAll, JoinSlash, Progress;
    ghost var before := newpath[..end];
    src, dest := CopyToSlash(path, newpath, from, end);
    ghost var segment := path[from..src];
    assert segment[0] == path[from];
    stack' := stack + [segment];
    SegmentDone(path, stack, from, segment, before);
  }

  // The main loop over a buffer that has room for the path and its terminator.
  method Rewrite(path: CString, newpath: array<char>) returns (dest: nat, ghost stack: seq<string>)
    requires path != "" && newpath.Length == |path| + 1
    modifies newpath
    ensures dest <= |path| && Progress(path, IsAbsolute(path), stack, |path|, newpath[..dest])
  {
    hide Split, PushAll, JoinSlash;
    var src: nat := 0;
    dest, stack := 0, [];
    assert path[0..] == path;
    assert newpath[..0] == "";
    Started(path);
    while At(path, src) != '\0'
      invariant dest <= src <= |path|
      invariant Progress(path, IsAbsolute(path), stack, src, newpath[..dest])
      decreases |path| - src
    {
      var ch := path[src];
      if ch == '.' && At(path, src + 1) == '.' && (At(path, src + 2) == '/' || At(path, src + 2) == '\0') {
        src, dest, stack := ParentSegment(path, newpath, src, dest, stack);
      } else if ch == '.' && (At(path, src + 1) == '/' || At(path, src + 1) == '\0') {
        src, dest := CurrentSegment(path, newpath, src, dest, stack);
      } else if ch == '/' {
        src, dest := Separator(path, newpath, src, dest, stack);
      } else {
        src, dest, stack := CopySegment(path, newpath, src, dest, stack);
      }
    }
  }

  method Shrink(a: array<char>, size: nat) returns (b: array<char>)
    requires size <= a.Length
    ensures fresh(b) && b[..] == a[..size]
  {
    b := new char[size];
    forall i | 0 <= i < size {
      b[i] := a[i];
    }
  }

  /** `canShrink` is the outcome of the final realloc(). */
  method NormPathNoEscape(path: CString, canShrink: bool) returns (newpath: array<char>)
    ensures fresh(newpath)
    ensures |Normalize(path)| < newpath.Length
    ensures newpath[..|Normalize(path)| + 1] == Normalize(path) + ['\0']
    ensures canShrink ==> newpath.Length == |Normalize(path)| + 1
    ensures path != "" ==> newpath.Length <= |path| + 1
  {
    hide Split, PushAll, JoinSlash;
    if path == "" {
      NormalizeEmpty();
      newpath := new char[] ['.', '\0'];
      return;
    }

    newpath := new char[|path| + 1] (_ => '\0');
    ghost var stack;
    var dest: nat;
    dest, stack := Rewrite(path, newpath);
    Finished(path, stack, newpath[..dest]);

    if dest == 0 {
      newpath[dest] := '.';
      dest := dest + 1;
    }
    newpath[dest] := '\0';
    dest := dest + 1;
    assert newpath[..dest] == Normalize(path) + ['\0'];
    if canShrink {
      newpath := Shrink(newpath, dest);
    }
  }
}
