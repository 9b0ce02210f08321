/** `join_pathv`: one pass computes the size, a second pass fills the buffer. */
module JoinPath {
  import opened CStrings

  datatype Error = EINVAL | ENOMEM
  datatype Result<+T> = Ok(value: T) | Err(error: Error)

  const SIZE_MAX: nat := 0xFFFF_FFFF_FFFF_FFFF

  // ---------------------------------------------------------------------------------------------
  // The reference definition

  function Separator(a: string, b: string): string
    requires a != "" && b != ""
  {
    if LastChar(a) != '/' && b[0] != '/' then "/" else ""
  }

  function Join(a: string, b: string): (r: string)
    requires a != "" && b != ""
    ensures |r| > |a| && r[0] == a[0] && LastChar(r) == LastChar(b)
  {
    a + Separator(a, b) + b
  }

  predicate NonEmpty(parts: seq<string>) {
    forall i :: 0 <= i < |parts| ==> parts[i] != ""
  }

  function JoinAll(base: string, parts: seq<string>): (r: string)
    requires base != "" && NonEmpty(parts)
    ensures |r| >= |base| && (parts == [] ==> r == base)
    ensures LastChar(r) == LastChar(if parts == [] then base else parts[|parts| - 1])
  {
    if parts == [] then base
    else
      var n := |parts| - 1;
      Join(JoinAll(base, parts[..n]), parts[n])
  }

  function LastChar(s: string): char
    requires s != ""
  {
    s[|s| - 1]
  }

  // ---------------------------------------------------------------------------------------------
  // Laws

  lemma JoinAssociative(a: string, b: string, c: string)
    requires a != "" && b != "" && c != ""
    ensures Join(Join(a, b), c) == Join(a, Join(b, c))
  {
    var s, t := Separator(a, b), Separator(b, c);
    assert Join(Join(a, b), c) == Join(a, b) + t + c;
    assert Join(a, Join(b, c)) == a + s + Join(b, c);
    assert a + s + b + t + c == a + s + (b + t + c);
  }

  /** Exactly one slash is put at the seam if there is none, and none is put there or taken away otherwise. */
  lemma JoinSeam(a: string, b: string)
    requires a != "" && b != "" && a[|a| - 1] != '/' && b[0] != '/'
    ensures Join(a, b) == Join(a + "/", b) == Join(a, "/" + b) == a + "/" + b
    ensures Join(a + "/", "/" + b) == a + "//" + b
    ensures Join("/", b) == "/" + b
  {
    assert a + ("/" + b) == a + "/" + b && a + "/" + ("/" + b) == a + "//" + b;
  }

  lemma JoinAllSnoc(base: string, parts: seq<string>, last: string)
    requires base != "" && NonEmpty(parts) && last != ""
    ensures NonEmpty(parts + [last])
    ensures JoinAll(base, parts + [last]) == Join(JoinAll(base, parts), last)
  {
    assert (parts + [last])[..|parts|] == parts;
  }

  lemma {:induction false} JoinAllAppend(base: string, xs: seq<string>, ys: seq<string>)
    requires base != "" && NonEmpty(xs) && NonEmpty(ys)
    ensures NonEmpty(xs + ys)
    ensures JoinAll(base, xs + ys) == JoinAll(JoinAll(base, xs), ys)
    decreases |ys|
  {
    hide JoinAll, Join;
    if ys == [] {
      assert xs + ys == xs;
    } else {
      var init, last := ys[..|ys| - 1], ys[|ys| - 1];
      JoinAllAppend(base, xs, init);
      AppendStep(base, xs, init, last);
      assert ys == init + [last];
    }
  }

  lemma AppendStep(base: string, xs: seq<string>, init: seq<string>, last: string)
    requires base != "" && NonEmpty(xs) && NonEmpty(init) && last != ""
    requires JoinAll(base, xs + init) == JoinAll(JoinAll(base, xs), init)
    ensures NonEmpty(xs + (init + [last])) && NonEmpty(init + [last])
    ensures JoinAll(base, xs + (init + [last])) == JoinAll(JoinAll(base, xs), init + [last])
  {
    hide JoinAll, Join;
    JoinAllSnoc(base, xs + init, last);
    JoinAllSnoc(JoinAll(base, xs), init, last);
    assert xs + (init + [last]) == xs + init + [last];
  }

  // Joining is associative over whole argument lists: a prefix may be joined first, or a suffix.
  lemma {:induction false} JoinAllNested(base: string, part: string, parts: seq<string>)
    requires base != "" && part != "" && NonEmpty(parts)
    ensures NonEmpty([part] + parts)
    ensures JoinAll(base, [part] + parts) == Join(base, JoinAll(part, parts))
    decreases |parts|
  {
    hide JoinAll, Join;
    if parts == [] {
      JoinAllSnoc(base, [], part);
      assert [part] + parts == [] + [part];
    } else {
      var init, last := parts[..|parts| - 1], parts[|parts| - 1];
      JoinAllNested(base, part, init);
      NestedStep(base, part, init, last);
      assert parts == init + [last];
    }
  }

  lemma NestedStep(base: string, part: string, init: seq<string>, last: string)
    requires base != "" && part != "" && NonEmpty(init) && last != ""
    requires JoinAll(base, [part] + init) == Join(base, JoinAll(part, init))
    ensures NonEmpty([part] + (init + [last])) && NonEmpty(init + [last])
    ensures JoinAll(base, [part] + (init + [last])) == Join(base, JoinAll(part, init + [last]))
  {
    hide JoinAll, Join;
    JoinAllSnoc(base, [part] + init, last);
    JoinAllSnoc(part, init, last);
    JoinAssociative(base, JoinAll(part, init), last);
    assert [part] + (init + [last]) == [part] + init + [last];
  }

  // ---------------------------------------------------------------------------------------------
  // The implementation

  lemma TakeNext(base: string, parts: seq<string>, i: nat)
    requires base != "" && i < |parts| && NonEmpty(parts[..i]) && parts[i] != ""
    ensures NonEmpty(parts[..i + 1])
    ensures JoinAll(base, parts[..i + 1]) == Join(JoinAll(base, parts[..i]), parts[i])
    ensures var joined := JoinAll(base, parts[..i]);
      |JoinAll(base, parts[..i + 1])| == |joined| + |Separator(joined, parts[i])| + |parts[i]|
  {
    hide JoinAll;
    assert parts[..i + 1] == parts[..i] + [parts[i]];
    JoinAllSnoc(base, parts[..i], parts[i]);
  }

  lemma {:induction false} JoinAllGrows(base: string, parts: seq<string>, i: nat)
    requires base != "" && i <= |parts| && NonEmpty(parts)
    ensures NonEmpty(parts[..i]) && |JoinAll(base, parts[..i])| <= |JoinAll(base, parts)|
    decreases |parts| - i
  {
    assert parts[..|parts|] == parts;
    if i < |parts| {
      JoinAllGrows(base, parts, i + 1);
      TakeNext(base, parts, i);
    }
  }

  // The result and its terminator have a size that size_t can hold.
  predicate Fits(base: string, parts: seq<string>)
    requires base != "" && NonEmpty(parts)
  {
    |JoinAll(base, parts)| + 1 <= SIZE_MAX
  }

  // Part i is the first one that cannot be joined, for reason `error`.
  ghost predicate RejectsAt(base: string, parts: seq<string>, i: nat, error: Error)
    requires base != "" && i < |parts|
  {
    && NonEmpty(parts[..i]) && Fits(base, parts[..i])
    && match error
       case EINVAL => parts[i] == ""
       case ENOMEM => NonEmpty(parts[..i + 1]) && !Fits(base, parts[..i + 1])
  }

  // Part i is rejected: that is the outcome for the whole list.
  ghost predicate Rejected(base: string, parts: seq<string>, error: Error)
    requires base != ""
  {
    && !(NonEmpty(parts) && Fits(base, parts))
    && exists i: nat :: i < |parts| && RejectsAt(base, parts, i, error)
  }

  lemma RejectEmpty(base: string, parts: seq<string>, i: nat)
    requires base != "" && i < |parts| && NonEmpty(parts[..i]) && Fits(base, parts[..i])
    requires parts[i] == ""
    ensures Rejected(base, parts, EINVAL)
  {
    assert RejectsAt(base, parts, i, EINVAL);
  }

  lemma RejectLong(base: string, parts: seq<string>, i: nat)
    requires base != "" && i < |parts| && NonEmpty(parts[..i]) && Fits(base, parts[..i])
    requires NonEmpty(parts[..i + 1]) && !Fits(base, parts[..i + 1])
    ensures Rejected(base, parts, ENOMEM)
  {
    assert RejectsAt(base, parts, i, ENOMEM);
    if NonEmpty(parts) {
      JoinAllGrows(base, parts, i + 1);
    }
  }

  // Part i is empty, and the parts in front of it can be joined.
  ghost predicate EmptyAt(base: string, parts: seq<string>, i: nat)
    requires base != "" && i < |parts|
  {
    parts[i] == "" && NonEmpty(parts[..i]) && |JoinAll(base, parts[..i])| < 0xFFFF_FFFF_FFFF_FFFF
  }

  // The first offending part gives the reason.
  lemma OneReason(base: string, parts: seq<string>, error: Error)
    requires base != "" && Rejected(base, parts, error)
    ensures error == EINVAL <==> exists i: nat :: i < |parts| && EmptyAt(base, parts, i)
    ensures !(NonEmpty(parts) && |JoinAll(base, parts)| < 0xFFFF_FFFF_FFFF_FFFF)
  {
    hide JoinAll, NonEmpty;
    var j: nat :| j < |parts| && RejectsAt(base, parts, j, error);
    match error
    case EINVAL => assert EmptyAt(base, parts, j);
    case ENOMEM =>
      forall i: nat | i < |parts| ensures !EmptyAt(base, parts, i) {
        if EmptyAt(base, parts, i) {
          EmptyBehind(parts, i, j);
          assert parts[..i][..j + 1] == parts[..j + 1];
          JoinAllGrows(base, parts[..i], j + 1);
        }
      }
  }

  lemma EmptyBehind(parts: seq<string>, i: nat, j: nat)
    requires i < |parts| && j < |parts| && parts[i] == "" && NonEmpty(parts[..j + 1])
    ensures i > j
  {
    assert forall k :: 0 <= k <= j ==> parts[..j + 1][k] == parts[k];
  }

  lemma NoReason(base: string, parts: seq<string>)
    requires base != "" && NonEmpty(parts)
    ensures !exists i: nat :: i < |parts| && EmptyAt(base, parts, i)
  {
  }

  method ComputeSize(base: CString, parts: seq<CString>) returns (r: Result<nat>)
    requires base != "" && |base| < SIZE_MAX && forall part :: part in parts ==> |part| < SIZE_MAX
    ensures r.Ok? ==> NonEmpty(parts) && Fits(base, parts) && r.value == |JoinAll(base, parts)| + 1
    ensures r.Err? ==> Rejected(base, parts, r.error)
  {
    assert NonEmpty([]);
    hide JoinAll, Join, Rejected, NonEmpty;
    var prev: string := base;
    var size := |base| + 1;
    var i := 0;
    assert parts[..0] == [];
    while i < |parts|
      invariant 0 <= i <= |parts| && NonEmpty(parts[..i])
      invariant prev != "" && LastChar(prev) == LastChar(JoinAll(base, parts[..i]))
      invariant size == |JoinAll(base, parts[..i])| + 1 <= SIZE_MAX
    {
      var relpath: string := parts[i];
      if relpath == "" {
        RejectEmpty(base, parts, i);
        return Err(EINVAL);
      }
      TakeNext(base, parts, i);
      var plusSize := |relpath|;
      if prev[|prev| - 1] != '/' && relpath[0] != '/' {
        plusSize := plusSize + 1;
      }
      if size > SIZE_MAX - plusSize {
        RejectLong(base, parts, i);
        return Err(ENOMEM);
      }
      size := size + plusSize;
      prev := relpath;
      i := i + 1;
    }
    assert parts[..i] == parts;
    r := Ok(size);
  }

  // memcpy() of a string into the buffer at an offset.
  method CopyInto(buf: array<char>, offset: nat, s: string)
    requires offset + |s| <= buf.Length
    modifies buf
    ensures buf[..offset + |s|] == old(buf[..offset]) + s
  {
    forall k | 0 <= k < |s| {
      buf[offset + k] := s[k];
    }
  }

  lemma PartNonEmpty(parts: seq<string>, i: nat)
    requires i < |parts| && NonEmpty(parts)
    ensures parts[i] != ""
  {
  }

  // The second pass.
  method FillBuffer(buf: array<char>, base: CString, parts: seq<CString>) returns (offset: nat)
    requires base != "" && NonEmpty(parts) && buf.Length == |JoinAll(base, parts)| + 1
    modifies buf
    ensures offset == buf.Length - 1 && buf[..offset] == JoinAll(base, parts)
  {
    hide JoinAll, Join, NonEmpty, Separator, LastChar;
    offset := FillBase(buf, base, parts);
    var i := 0;
    while i < |parts|
      invariant 0 <= i <= |parts| && NonEmpty(parts[..i])
      invariant offset == |JoinAll(base, parts[..i])| < buf.Length
      invariant buf[..offset] == JoinAll(base, parts[..i])
    {
      offset := AppendNext(buf, offset, base, parts, i);
      i := i + 1;
    }
    assert parts[..i] == parts;
  }

  method FillBase(buf: array<char>, base: CString, ghost parts: seq<CString>) returns (offset: nat)
    requires base != "" && NonEmpty(parts) && buf.Length == |JoinAll(base, parts)| + 1
    modifies buf
    ensures NonEmpty(parts[..0]) && offset == |JoinAll(base, parts[..0])| < buf.Length
    ensures buf[..offset] == JoinAll(base, parts[..0])
  {
    JoinAllGrows(base, parts, 0);
    assert parts[..0] == [];
    CopyInto(buf, 0, base);
    offset := |base|;
  }

  method AppendNext(buf: array<char>, start: nat, ghost base: CString, parts: seq<CString>, i: nat)
      returns (offset: nat)
    requires base != "" && i < |parts| && NonEmpty(parts) && NonEmpty(parts[..i])
    requires buf.Length == |JoinAll(base, parts)| + 1
    requires start == |JoinAll(base, parts[..i])| <= buf.Length && buf[..start] == JoinAll(base, parts[..i])
    modifies buf
    ensures NonEmpty(parts[..i + 1]) && offset == |JoinAll(base, parts[..i + 1])| < buf.Length
    ensures buf[..offset] == JoinAll(base, parts[..i + 1])
  {
    hide JoinAll, Join, NonEmpty, Separator, LastChar;
    PartNonEmpty(parts, i);
    TakeNext(base, parts, i);
    JoinAllGrows(base, parts, i + 1);
    offset := AppendPart(buf, start, parts[i], JoinAll(base, parts[..i]));
  }

  method AppendPart(buf: array<char>, start: nat, relpath: CString, ghost joined: string) returns (offset: nat)
    requires joined != "" && relpath != "" && start == |joined|
    requires |Join(joined, relpath)| < buf.Length && buf[..start] == joined
    modifies buf
    ensures offset == |Join(joined, relpath)| && buf[..offset] == Join(joined, relpath)
  {
    offset := start;
    assert buf[offset - 1] == joined[offset - 1];
    if buf[offset - 1] != '/' && relpath[0] != '/' {
      buf[offset] := '/';
      offset := offset + 1;
      assert buf[..offset] == joined + "/";
    }
    CopyInto(buf, offset, relpath);
    offset := offset + |relpath|;
  }

  /** The buffer has exactly the size the first pass computed and the second pass fills all of it. */
  method JoinPathv(base: CString, parts: seq<CString>) returns (r: Result<array<char>>)
    requires |base| < SIZE_MAX && forall part :: part in parts ==> |part| < SIZE_MAX
    ensures base == "" ==> r == Err(EINVAL)
    ensures base != "" && r.Err? ==> Rejected(base, parts, r.error)
    ensures base != "" ==> (r.Ok? <==> NonEmpty(parts) && |JoinAll(base, parts)| < 0xFFFF_FFFF_FFFF_FFFF)
    ensures base != "" ==> (r == Err(EINVAL) <==> exists i: nat :: i < |parts| && EmptyAt(base, parts, i))
    ensures r.Ok? ==> base != "" && NonEmpty(parts) && Fits(base, parts)
    ensures r.Ok? ==> fresh(r.value) && r.value[..] == JoinAll(base, parts) + ['\0']
  {
    if base == "" {
      return Err(EINVAL);
    }
    hide JoinAll, Join, Rejected, EmptyAt, NonEmpty;
    var computed := ComputeSize(base, parts);
    if computed.Err? {
      OneReason(base, parts, computed.error);
      return Err(computed.error);
    }
    NoReason(base, parts);
    var buf := new char[computed.value] (_ => '\0');
    var offset := FillBuffer(buf, base, parts);
    buf[offset] := '\0';
    assert buf[..] == JoinAll(base, parts) + ['\0'];
    r := Ok(buf);
  }
}
