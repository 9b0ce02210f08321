/** `abspath`: resolve the nearest existing ancestor, keep the rest of the path as it is. */
module AbsPath {
  import opened CStrings
  import opened NormPath

  // What realpath() answers: a path, ENOENT, or another error.
  datatype RealPath = Resolved(path: string) | NoEntry | Failed

  datatype Error = InvalidPath | RealPathFailed | NoWorkingDirectory

  datatype Result = Ok(path: string) | Err(error: Error)

  // ---------------------------------------------------------------------------------------------
  // Where a path can be cut

  // Index k starts the run of slashes between a proper ancestor and the rest below it.
  ghost predicate IsCut(path: string, k: int) {
    && 0 < k < |path|
    && path[k] == '/' && path[k - 1] != '/'
    && exists j :: k < j < |path| && path[j] != '/'
  }

  // The index behind the run of slashes at i.
  function SkipRun(path: string, i: nat): (k: nat)
    requires i <= |path|
    ensures i <= k <= |path|
    ensures forall j :: i <= j < k ==> path[j] == '/'
    ensures k < |path| ==> path[k] != '/'
    decreases |path| - i
  {
    if i < |path| && path[i] == '/' then SkipRun(path, i + 1) else i
  }

  // Of the ancestors of a path this is the nearest one that realpath() does not call missing.
  ghost predicate NearestAncestor(path: string, realpath: string -> RealPath, k: int) {
    && IsCut(path, k)
    && realpath(path[..k]) != NoEntry
    && NoneAbove(path, realpath, k)
  }

  // Every ancestor longer than path[..k] is missing.
  ghost predicate NoneAbove(path: string, realpath: string -> RealPath, k: int) {
    forall j :: IsCut(path, j) && j > k ==> realpath(path[..j]) == NoEntry
  }

  // The result of `AbsPath` below is determined: either there is a nearest ancestor or there is none at all.
  lemma {:induction false} NearestAncestorExists(path: string, realpath: string -> RealPath, m: nat)
    requires NoneAbove(path, realpath, m) && !NoneAbove(path, realpath, 0)
    ensures exists k :: NearestAncestor(path, realpath, k)
    decreases m
  {
    if IsCut(path, m) && realpath(path[..m]) != NoEntry {
      assert NearestAncestor(path, realpath, m);
    } else {
      NearestAncestorExists(path, realpath, m - 1);
    }
  }

  function BelowAncestor(path: string, k: nat, answer: RealPath): Result
    requires k <= |path| && answer != NoEntry
  {
    if answer.Resolved? then Ok(answer.path + "/" + path[SkipRun(path, k)..]) else Err(RealPathFailed)
  }

  // ---------------------------------------------------------------------------------------------
  // The implementation

  method Dirend(path: CString) returns (index: nat)
    ensures index == 0 || IsCut(path, index)
    ensures forall k :: IsCut(path, k) ==> k <= index
  {
    index := |path|;
    if index == 0 {
      return;
    }
    index := index - 1;
    while index > 0 && path[index] == '/'
      invariant index < |path|
      invariant forall j :: index < j < |path| ==> path[j] == '/'
    {
      index := index - 1;
    }
    ghost var name := index;
    while index > 0 && path[index] != '/'
      invariant index <= name
      invariant forall j :: index < j <= name && name > 0 ==> path[j] != '/'
    {
      index := index - 1;
    }
    ghost var slash := index;
    while index > 0 && path[index - 1] == '/'
      invariant index <= slash
      invariant forall j :: index <= j <= slash && slash > 0 ==> path[j] == '/'
    {
      index := index - 1;
    }
  }

  // The C string a buffer holds.
  function Contents(buf: seq<char>): string {
    if buf == [] || buf[0] == '\0' then "" else [buf[0]] + Contents(buf[1..])
  }

  lemma {:induction false} ContentsCut(path: CString, rest: seq<char>)
    ensures Contents(path + ['\0'] + rest) == path
    decreases |path|
  {
    if path != "" {
      assert '\0' !in path[1..];
      ContentsCut(path[1..], rest);
      assert (path + ['\0'] + rest)[1..] == path[1..] + ['\0'] + rest;
    }
  }

  lemma CutsOfPrefix(path: string, m: nat, k: int)
    requires m == |path| || IsCut(path, m)
    ensures m <= |path| && (IsCut(path[..m], k) <==> IsCut(path, k) && k < m)
  {
    assert path[..|path|] == path;
    if m < |path| && IsCut(path, k) && k < m {
      assert path[..m][m - 1] != '/';
    }
  }

  // strdup()
  method Duplicate(path: CString) returns (tmp: array<char>)
    ensures fresh(tmp) && tmp[..] == path + ['\0']
  {
    tmp := new char[|path| + 1];
    forall i | 0 <= i < |path| {
      tmp[i] := path[i];
    }
    tmp[|path|] := '\0';
  }

  method BehindRun(path: CString, index: nat) returns (below: nat)
    requires index <= |path|
    ensures below == SkipRun(path, index)
  {
    below := index;
    while At(path, below) == '/'
      invariant index <= below <= |path| && SkipRun(path, below) == SkipRun(path, index)
      decreases |path| - below
    {
      below := below + 1;
    }
  }

  // The nearest ancestor is the only one.
  lemma NearestIsUnique(path: string, realpath: string -> RealPath, index: nat)
    requires IsCut(path, index) && realpath(path[..index]) != NoEntry && NoneAbove(path, realpath, index)
    ensures forall k :: NearestAncestor(path, realpath, k) <==> k == index
    ensures !NoneAbove(path, realpath, 0)
  {
  }

  lemma NoCutAtTheEnd(path: string, realpath: string -> RealPath)
    ensures NoneAbove(path, realpath, |path| - 1)
  {
  }

  lemma MissingAbove(path: string, realpath: string -> RealPath, index: nat)
    requires IsCut(path, index) && realpath(path[..index]) == NoEntry && NoneAbove(path, realpath, index)
    ensures index > 0 && NoneAbove(path, realpath, index - 1)
  {
  }

  lemma NoneNearest(path: string, realpath: string -> RealPath)
    requires NoneAbove(path, realpath, 0)
    ensures forall k :: !NearestAncestor(path, realpath, k)
  {
  }

  // Between the last cut of a prefix and the prefix there is none.
  lemma NextAbove(path: string, realpath: string -> RealPath, prevIndex: nat, index: nat)
    requires prevIndex == |path| || IsCut(path, prevIndex)
    requires index == 0 || IsCut(path[..prevIndex], index)
    requires forall k :: IsCut(path[..prevIndex], k) ==> k <= index
    requires NoneAbove(path, realpath, prevIndex - 1)
    ensures NoneAbove(path, realpath, index) && (index > 0 ==> IsCut(path, index)) && index <= |path|
    ensures prevIndex > 0 ==> index < prevIndex
  {
    hide IsCut;
    forall k { CutsOfPrefix(path, prevIndex, k); }
    if index > 0 {
      CutInside(path, index);
    }
  }

  /** `realpath` and `cwd` are the answers of realpath() and getcwd(). */
  method AbsPath(path: CString, realpath: string -> RealPath, cwd: RealPath) returns (r: Result)
    requires cwd != NoEntry
    ensures path == "" ==> r == Err(InvalidPath)
    ensures path != "" && realpath(path) != NoEntry ==>
      r == if realpath(path).Resolved? then Ok(realpath(path).path) else Err(RealPathFailed)
    ensures path != "" && realpath(path) == NoEntry ==>
      forall k :: NearestAncestor(path, realpath, k) ==> r == BelowAncestor(path, k, realpath(path[..k]))
    ensures path != "" && realpath(path) == NoEntry && NoneAbove(path, realpath, 0) ==>
      r == if cwd.Resolved? then Ok(cwd.path + "/" + path) else Err(NoWorkingDirectory)
  {
    hide Contents, IsCut, NoneAbove, NearestAncestor;
    if path == "" {
      return Err(InvalidPath);
    }
    var answer := realpath(path);
    if answer != NoEntry {
      return if answer.Resolved? then Ok(answer.path) else Err(RealPathFailed);
    }

    var tmp := Duplicate(path);
    var prevIndex, prevChar := |path|, '\0';
    NoCutAtTheEnd(path, realpath);
    while true
      invariant 0 < prevIndex <= |path| && (prevIndex == |path| || IsCut(path, prevIndex))
      invariant prevChar == (path + ['\0'])[prevIndex]
      invariant tmp[..] == (path + ['\0'])[prevIndex := '\0']
      invariant NoneAbove(path, realpath, prevIndex - 1)
      decreases prevIndex
    {
      TmpContents(path, prevIndex);
      var index := Dirend(Contents(tmp[..]));
      tmp[prevIndex] := prevChar;
      assert tmp[..] == path + ['\0'];
      NextAbove(path, realpath, prevIndex, index);

      if index == 0 {
        NoneNearest(path, realpath);
        if cwd.Failed? {
          return Err(NoWorkingDirectory);
        }
        r := Ok(cwd.path + "/" + path);
        assert |r.path| == |cwd.path| + |path| + 2 - 1;
        return;
      }

      prevChar := tmp[index];
      tmp[index] := '\0';
      TmpContents(path, index);
      var parent := realpath(Contents(tmp[..]));
      if parent != NoEntry {
        NearestIsUnique(path, realpath, index);
      }
      if parent.Resolved? {
        var below := BehindRun(path, index);
        assert |parent.path + "/" + path[below..]| == |parent.path| + |path| - below + 2 - 1;
        return Ok(parent.path + "/" + path[below..]);
      } else if parent.NoEntry? {
        MissingAbove(path, realpath, index);
        prevIndex := index;
      } else {
        return Err(RealPathFailed);
      }
    }
  }

  lemma TmpContents(path: CString, k: nat)
    requires k <= |path|
    ensures '\0' !in path[..k]
    ensures Contents((path + ['\0'])[k := '\0']) == path[..k]
  {
    var rest := (path + ['\0'])[k + 1..];
    ContentsCut(path[..k], rest);
    assert (path + ['\0'])[k := '\0'] == path[..k] + ['\0'] + rest;
  }

  // ---------------------------------------------------------------------------------------------
  // What the result names

  // The file names along a path.
  function Names(segments: seq<string>): seq<string> {
    if segments == [] then []
    else if segments[0] == "" then Names(segments[1..])
    else [segments[0]] + Names(segments[1..])
  }

  function PathNames(p: string): seq<string> {
    Names(Split(p))
  }

  lemma NamesFirst(segment: string, rest: seq<string>)
    ensures Names([segment] + rest) == (if segment == "" then [] else [segment]) + Names(rest)
  {
    assert ([segment] + rest)[1..] == rest;
  }

  lemma {:induction false} NamesAppend(s: seq<string>, t: seq<string>)
    ensures Names(s + t) == Names(s) + Names(t)
    decreases |s|
  {
    if s == [] {
      assert s + t == t;
    } else {
      hide Names;
      var first, rest := s[0], s[1..];
      NamesAppend(rest, t);
      NamesFirst(first, rest + t);
      NamesFirst(first, rest);
      assert s == [first] + rest && s + t == [first] + (rest + t);
    }
  }

  lemma PathNamesSlash(a: string, b: string)
    ensures PathNames(a + "/" + b) == PathNames(a) + PathNames(b)
  {
    SplitAtSlash(a, b);
    NamesAppend(Split(a), Split(b));
  }

  lemma {:induction false} PathNamesRun(path: string, i: nat)
    requires i <= |path|
    ensures PathNames(path[i..]) == PathNames(path[SkipRun(path, i)..])
    decreases |path| - i
  {
    if i < |path| && path[i] == '/' {
      PathNamesRun(path, i + 1);
      PathNamesSlash("", path[i + 1..]);
      assert path[i..] == "" + "/" + path[i + 1..];
      assert PathNames("") == [] by {
        SplitHere("", 0);
        assert Names([""]) == Names([]);
      }
    }
  }

  /** Only the ancestor's names are replaced; the names below it stay as they were. */
  lemma AncestorReplaced(path: string, k: nat, parent: string)
    requires IsCut(path, k)
    ensures var rest := PathNames(path[SkipRun(path, k)..]);
      && PathNames(path) == PathNames(path[..k]) + rest
      && PathNames(BelowAncestor(path, k, Resolved(parent)).path) == PathNames(parent) + rest
      && rest != []
  {
    hide Split, Names;
    var below := SkipRun(path, k);
    PathNamesSlash(path[..k], path[k + 1..]);
    assert path == path[..k] + "/" + path[k + 1..];
    assert below == SkipRun(path, k + 1);
    PathNamesRun(path, k + 1);
    PathNamesSlash(parent, path[below..]);
    StartsWithName(path[below..]);
  }

  lemma StartsWithName(p: string)
    requires p != "" && p[0] != '/'
    ensures PathNames(p) != []
  {
    var n := SegmentLength(p);
    assert p[..n] != "";
    NamesFirst(p[..n], if n == |p| then [] else Split(p[n + 1..]));
    assert n == |p| ==> p[..n] == p && [p] + [] == [p];
  }

  /**
   * Without any existing ancestor the path is put behind the working directory, an absolute path
   * as well. That names what the path names only if the working directory is the root.
   */
  lemma PutBehindWorkingDirectory(path: string, cwd: string)
    ensures PathNames(cwd + "/" + path) == PathNames(cwd) + PathNames(path)
    ensures PathNames(cwd + "/" + path) == PathNames(path) <==> PathNames(cwd) == []
  {
    PathNamesSlash(cwd, path);
    assert |PathNames(cwd) + PathNames(path)| == |PathNames(cwd)| + |PathNames(path)|;
  }

  // A missing absolute path of one segment has no ancestor to resolve.
  lemma SingleSegmentHasNoCut(name: string, k: int)
    requires '/' !in name
    ensures !IsCut("/" + name, k)
  {
    assert forall j :: 0 < j < |name| + 1 ==> ("/" + name)[j] == name[j - 1];
  }

  // ---------------------------------------------------------------------------------------------
  // A missing file below a directory

  predicate AllSlashes(s: string) {
    forall i :: 0 <= i < |s| ==> s[i] == '/'
  }

  lemma {:induction false} RunSkipped(path: string, i: nat, k: nat)
    requires i <= k <= |path| && AllSlashes(path[i..k]) && (k < |path| ==> path[k] != '/')
    ensures SkipRun(path, i) == k
    decreases k - i
  {
    if i < k {
      assert path[i] == path[i..k][0];
      assert path[i + 1..k] == path[i..k][1..];
      RunSkipped(path, i + 1, k);
    }
  }

  /**
   * The last name of a path and the slashes around it are cut off first. What is in front of them is the
   * directory that is tried; if that is missing as well, the directory is treated as the path was.
   */
  lemma DirectoryIsTriedFirst(directory: string, slashes: string, name: string, tail: string,
                              realpath: string -> RealPath)
    requires directory != "" && directory[|directory| - 1] != '/'
    requires slashes != "" && AllSlashes(slashes) && AllSlashes(tail)
    requires name != "" && '/' !in name
    ensures var path := directory + slashes + name + tail;
      && path[..|directory|] == directory
      && (realpath(directory) != NoEntry ==> NearestAncestor(path, realpath, |directory|))
      && (realpath(directory).Resolved? ==>
            BelowAncestor(path, |directory|, realpath(directory)) ==
              Ok(realpath(directory).path + "/" + name + tail))
      && (realpath(directory) == NoEntry ==>
            forall k :: NearestAncestor(path, realpath, k) <==> NearestAncestor(directory, realpath, k))
  {
    var path := directory + slashes + name + tail;
    var cut := |directory|;
    LastCut(directory, slashes, name, tail);
    forall k ensures IsCut(directory, k) <==> IsCut(path, k) && k < cut {
      CutsOfPrefix(path, cut, k);
    }
    assert path[cut..cut + |slashes|] == slashes;
    RunSkipped(path, cut, cut + |slashes|);
    assert path[cut + |slashes|..] == name + tail;
    if realpath(directory).Resolved? {
      var parent := realpath(directory).path;
      assert parent + "/" + (name + tail) == parent + "/" + name + tail;
    }
    if realpath(directory) == NoEntry {
      forall k ensures NearestAncestor(path, realpath, k) <==> NearestAncestor(directory, realpath, k) {
        SameAncestors(path, directory, realpath, k);
      }
    }
  }

  lemma SameAncestors(path: string, directory: string, realpath: string -> RealPath, k: int)
    requires directory <= path && realpath(directory) == NoEntry
    requires forall j :: IsCut(directory, j) <==> IsCut(path, j) && j < |directory|
    requires forall j :: IsCut(path, j) ==> j <= |directory|
    ensures NearestAncestor(path, realpath, k) <==> NearestAncestor(directory, realpath, k)
  {
    hide IsCut;
    assert path[..|directory|] == directory;
    assert forall j :: 0 <= j <= |directory| ==> path[..j] == directory[..j];
    forall j | IsCut(directory, j) ensures 0 <= j < |directory| {
      CutInside(directory, j);
    }
    forall j | IsCut(path, j) ensures 0 <= j <= |directory| {
      CutInside(path, j);
    }
  }

  lemma CutInside(path: string, k: int)
    requires IsCut(path, k)
    ensures 0 < k < |path|
  {
  }

  lemma LastCut(directory: string, slashes: string, name: string, tail: string)
    requires directory != "" && directory[|directory| - 1] != '/'
    requires slashes != "" && AllSlashes(slashes) && AllSlashes(tail)
    requires name != "" && '/' !in name
    ensures var path := directory + slashes + name + tail;
      && path[..|directory|] == directory
      && IsCut(path, |directory|) && forall k :: IsCut(path, k) ==> k <= |directory|
  {
    var path := directory + slashes + name + tail;
    var from := |directory| + |slashes|;
    assert path[from] == name[0] != '/';
    assert forall j :: from <= j < from + |name| ==> path[j] == name[j - from];
    assert forall j :: from + |name| <= j < |path| ==> path[j] == tail[j - from - |name|];
    assert forall j :: |directory| <= j < from ==> path[j] == slashes[j - |directory|];
  }
}
