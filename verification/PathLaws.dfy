/** Laws of lexical normalisation, and how it goes together with joining. */
module PathLaws {
  import opened NormPath
  import opened JoinPath

  // A path in normal form: clean segments only, "." for the empty relative path.
  ghost predicate Canonical(p: string) {
    exists absolute: bool, stack: seq<string> :: AllClean(stack) && p == Render(absolute, stack)
  }

  // ---------------------------------------------------------------------------------------------
  // Splitting undoes rendering

  lemma {:induction false} SplitJoinSlash(stack: seq<string>)
    requires AllClean(stack) && stack != []
    ensures Split(JoinSlash(stack)) == stack
    decreases |stack|
  {
    hide Split;
    var init, last := stack[..|stack| - 1], stack[|stack| - 1];
    assert Clean(last) && AllClean(init);
    SplitSingle(last);
    if |stack| > 1 {
      SplitJoinSlash(init);
      SplitAtSlash(JoinSlash(init), last);
    }
    assert stack == init + [last];
  }

  lemma SplitSingle(segment: string)
    requires '/' !in segment
    ensures Split(segment) == [segment]
  {
    assert segment[..|segment|] == segment;
    SplitHere(segment, |segment|);
  }

  lemma {:induction false} PushAllClean(stack: seq<string>, segments: seq<string>)
    requires AllClean(segments)
    ensures PushAll(stack, segments) == stack + segments
    decreases |segments|
  {
    if segments != [] {
      assert Clean(segments[0]);
      PushAllClean(stack + [segments[0]], segments[1..]);
      assert stack + segments == stack + [segments[0]] + segments[1..];
    }
  }

  lemma StackOfRender(absolute: bool, stack: seq<string>)
    requires AllClean(stack)
    ensures Render(absolute, stack) != ""
    ensures IsAbsolute(Render(absolute, stack)) == absolute
    ensures Stack(Render(absolute, stack)) == stack
  {
    hide Split, JoinSlash, PushAll;
    PushAllClean([], stack);
    if stack == [] {
      EmptyStacks();
      JoinSlashEmpty();
      assert "/" + "" == "/";
    } else {
      var joined := JoinSlash(stack);
      SplitJoinSlash(stack);
      JoinSlashStart(stack);
      SkipSlash([], "/" + joined);
      assert [] + stack == stack;
      assert ("/" + joined)[1..] == joined;
    }
  }

  lemma JoinSlashEmpty()
    ensures JoinSlash([]) == ""
  {
  }

  lemma EmptyStacks()
    ensures Stack("/") == [] && Stack(".") == [] && Stack("") == []
  {
    assert "/"[1..] == "";
    SkipSlash([], "/");
    SplitSingle("");
    SplitSingle(".");
    PushFirst([], "", []);
    PushFirst([], ".", []);
  }

  lemma {:induction false} JoinSlashStart(stack: seq<string>)
    requires AllClean(stack) && stack != []
    ensures JoinSlash(stack) != "" && JoinSlash(stack)[0] != '/'
    decreases |stack|
  {
    assert Clean(stack[0]);
    if |stack| > 1 {
      JoinSlashStart(stack[..|stack| - 1]);
    }
  }

  // ---------------------------------------------------------------------------------------------
  // Every stack is clean

  predicate SlashFree(segments: seq<string>) {
    forall segment :: segment in segments ==> '/' !in segment
  }

  lemma {:induction false} SplitIsSlashFree(p: string)
    ensures SlashFree(Split(p))
    decreases |p|
  {
    var k := SegmentLength(p);
    assert '/' !in p[..k];
    assert k == |p| ==> p[..k] == p;
    if k < |p| {
      SplitIsSlashFree(p[k + 1..]);
    }
  }

  lemma {:induction false} PushAllKeepsClean(stack: seq<string>, segments: seq<string>)
    requires AllClean(stack) && SlashFree(segments)
    ensures AllClean(PushAll(stack, segments))
    decreases |segments|
  {
    if segments != [] {
      assert segments[0] in segments;
      PushAllKeepsClean(Push(stack, segments[0]), segments[1..]);
    }
  }

  lemma StackIsClean(p: string)
    ensures AllClean(Stack(p))
  {
    SplitIsSlashFree(p);
    PushAllKeepsClean([], Split(p));
  }

  // ---------------------------------------------------------------------------------------------
  // The laws

  lemma NormalizeKeeps(p: string)
    ensures Normalize(p) != ""
    ensures IsAbsolute(Normalize(p)) == IsAbsolute(p)
    ensures Stack(Normalize(p)) == Stack(p)
    ensures Canonical(Normalize(p))
  {
    StackIsClean(p);
    StackOfRender(IsAbsolute(p), Stack(p));
  }

  lemma NormalizeIdempotent(p: string)
    ensures Normalize(Normalize(p)) == Normalize(p)
  {
    NormalizeKeeps(p);
  }

  // The fixed points are exactly the paths in normal form.
  lemma NormalizeFixpoint(p: string)
    ensures Normalize(p) == p <==> Canonical(p)
  {
    NormalizeKeeps(p);
    if Canonical(p) {
      var absolute: bool, stack: seq<string> :| AllClean(stack) && p == Render(absolute, stack);
      StackOfRender(absolute, stack);
    }
  }

  // A joined path means: the segments of the second path acting on the stack of the first.
  lemma StackOfJoin(c: string, x: string)
    requires c != "" && x != ""
    ensures IsAbsolute(Join(c, x)) == IsAbsolute(c)
    ensures Stack(Join(c, x)) == PushAll(Stack(c), Split(x))
  {
    hide Split, PushAll;
    if LastChar(c) == '/' {
      var d := c[..|c| - 1];
      assert c == d + "/" && Join(c, x) == d + "/" + x;
      StackOfSlash(d, x);
      StackOfSlash(d, "");
      assert d + "/" + "" == c;
      SplitSingle("");
      PushFirst(Stack(d), "", []);
      assert [""] + [] == [""];
      PushAllNone(Stack(d));
    } else if x[0] == '/' {
      assert Join(c, x) == c + "/" + x[1..];
      StackOfSlash(c, x[1..]);
      SkipSlash(Stack(c), x);
    } else {
      StackOfSlash(c, x);
    }
  }

  lemma PushAllNone(stack: seq<string>)
    ensures PushAll(stack, []) == stack
  {
  }

  lemma StackOfSlash(c: string, x: string)
    ensures Stack(c + "/" + x) == PushAll(Stack(c), Split(x))
  {
    hide Split, PushAll;
    SplitAtSlash(c, x);
    PushAllAppend([], Split(c), Split(x));
  }

  /** Normalising a directory before a path is joined to it makes no difference. */
  lemma NormalizeJoin(c: string, x: string)
    requires c != "" && x != ""
    ensures Normalize(c) != ""
    ensures Normalize(Join(Normalize(c), x)) == Normalize(Join(c, x))
  {
    hide Split, PushAll, Stack, JoinSlash, Join;
    NormalizeKeeps(c);
    StackOfJoin(c, x);
    StackOfJoin(Normalize(c), x);
  }

  // ---------------------------------------------------------------------------------------------
  // Normal forms, segment by segment

  lemma PushSingle(stack: seq<string>, segment: string)
    requires '/' !in segment
    ensures PushAll(stack, Split(segment)) == Push(stack, segment)
  {
    hide Split;
    SplitSingle(segment);
    assert [segment][1..] == [];
  }

  lemma SameStack(p: string, q: string)
    requires Stack(p) == Stack(q) && IsAbsolute(p) == IsAbsolute(q)
    ensures Normalize(p) == Normalize(q)
  {
  }

  /** A name and the ".." behind it cancel, whatever is in front of them and behind them. */
  lemma ParentCancels(p: string, x: string, y: string)
    requires x != "" && x != "." && x != ".." && '/' !in x
    ensures Normalize(p + "/" + x + "/../" + y) == Normalize(p + "/" + y)
  {
    hide Split, PushAll, Normalize, Stack;
    var q := p + "/" + x;
    assert q + "/.." == q + "/" + "..";
    StackOfSlash(p, x);
    PushSingle(Stack(p), x);
    StackOfSlash(q, "..");
    PushSingle(Stack(q), "..");
    var stack := Stack(p);
    assert (stack + [x])[..|stack|] == stack;
    BehindPrefix(q + "/..", p, y);
    assert q + "/.." + "/" + y == p + "/" + x + "/../" + y;
  }

  // What stands behind a prefix acts on the stack of the prefix.
  lemma BehindPrefix(p: string, q: string, y: string)
    requires Stack(p) == Stack(q) && IsAbsolute(p + "/") == IsAbsolute(q + "/")
    ensures Normalize(p + "/" + y) == Normalize(q + "/" + y)
  {
    hide Split, PushAll, Stack, Normalize;
    StackOfSlash(p, y);
    StackOfSlash(q, y);
    SameStack(p + "/" + y, q + "/" + y);
  }

  /** A "." and an empty segment change nothing, and neither does a slash behind the path. */
  lemma DotVanishes(p: string, y: string)
    ensures Normalize(p + "/./" + y) == Normalize(p + "/" + y)
    ensures Normalize(p + "//" + y) == Normalize(p + "/" + y)
    ensures p != "" ==> Normalize(p + "/") == Normalize(p)
  {
    hide Split, PushAll, Normalize, Stack;
    StackOfSlash(p, ".");
    PushSingle(Stack(p), ".");
    StackOfSlash(p, "");
    PushSingle(Stack(p), "");
    assert p + "/." == p + "/" + "." && p + "/" == p + "/" + "";
    BehindPrefix(p + "/.", p, y);
    BehindPrefix(p + "/", p, y);
    assert p + "/." + "/" + y == p + "/./" + y && p + "/" + "/" + y == p + "//" + y;
    if p != "" {
      SameStack(p + "/", p);
    }
  }

  /** The root is its own parent, and a relative path cannot leave where it starts. */
  lemma NothingAbove(x: string, y: string)
    requires x != "" && x != "." && x != ".." && '/' !in x
    ensures Normalize("/../" + y) == Normalize("/" + y)
    ensures y == "" || y[0] != '/' ==> Normalize("../" + y) == Normalize(y) && Normalize("./" + y) == Normalize(y)
    ensures y == "" || y[0] != '/' ==> Normalize(x + "/../" + y) == Normalize(y)
  {
    hide Split, PushAll, Normalize, Stack;
    EmptyStacks();
    PushSingle([], "..");
    PushSingle([], ".");
    PushSingle([], x);
    OneSegment("..");
    OneSegment(".");
    OneSegment(x);
    StackOfSlash("", "..");
    StackOfSlash(x, "..");
    PushSingle([x], "..");
    assert x + "/.." == x + "/" + "..";
    assert "" + "/" + ".." == "/.." && "" + "/" + y == "/" + y && [] + [x] == [x];
    BehindPrefix("/..", "", y);
    assert "/.." + "/" + y == "/../" + y;
    if y == "" || y[0] != '/' {
      FromNothing("..", y);
      FromNothing(".", y);
      FromNothing(x + "/..", y);
      assert ".." + "/" + y == "../" + y && "." + "/" + y == "./" + y && x + "/.." + "/" + y == x + "/../" + y;
    }
  }

  lemma OneSegment(segment: string)
    ensures Stack(segment) == PushAll([], Split(segment))
  {
  }

  lemma FromNothing(p: string, y: string)
    requires Stack(p) == [] && p != "" && p[0] != '/' && (y == "" || y[0] != '/')
    ensures Normalize(p + "/" + y) == Normalize(y)
  {
    hide Split, PushAll, Normalize, Stack;
    StackOfSlash(p, y);
    OneSegment(y);
    SameStack(p + "/" + y, y);
  }

  lemma SmallNormalForms()
    ensures Normalize("") == "." && Normalize(".") == "." && Normalize("..") == "." && Normalize("/") == "/"
  {
    hide Split, PushAll, Stack;
    EmptyStacks();
    OneSegment("..");
    PushSingle([], "..");
    JoinSlashEmpty();
  }

  /** A name is put behind the normal form of what is in front of it, with one slash in between. */
  lemma NameIsKept(p: string, x: string)
    requires x != "" && x != "." && x != ".." && '/' !in x
    ensures Normalize(x) == x && Normalize("/" + x) == "/" + x
    ensures p != "" ==> (Normalize(p + "/" + x) ==
      if Normalize(p) == "." then x else if Normalize(p) == "/" then "/" + x else Normalize(p) + "/" + x)
  {
    hide Split, PushAll, Stack, JoinSlash;
    EmptyStacks();
    StackOfSlash("", x);
    assert "" + "/" + x == "/" + x && [] + [x] == [x];
    OneSegment(x);
    PushSingle([], x);
    JoinSlashSingle(x);
    if p != "" {
      var stack := Stack(p);
      NormalizeKeeps(p);
      StackOfSlash(p, x);
      PushSingle(stack, x);
      JoinSlashSnoc(stack, x);
      JoinSlashEmpty();
    }
  }

  lemma JoinSlashSingle(x: string)
    ensures JoinSlash([x]) == x
  {
  }

  lemma JoinSlashSnoc(stack: seq<string>, x: string)
    ensures JoinSlash(stack + [x]) == if stack == [] then x else JoinSlash(stack) + "/" + x
  {
    assert (stack + [x])[..|stack|] == stack;
  }

  /** Normalising the front of a path first makes no difference. */
  lemma NormalizePrefix(p: string, y: string)
    requires p != ""
    ensures Normalize(Normalize(p) + "/" + y) == Normalize(p + "/" + y)
  {
    hide Split, PushAll, Stack, Normalize;
    NormalizeKeeps(p);
    BehindPrefix(Normalize(p), p, y);
  }
}
