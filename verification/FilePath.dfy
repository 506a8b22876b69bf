/** Paths as byte strings: cutting one into segments and appending a name. */
module FilePath {
  import opened Basics

  const SLASH: Byte := 47
  const DOT: Byte := 46
  const PATH_MAX: nat := 0x1000

  datatype Segment = Root | Empty | Dot | DotDot | FileName(name: seq<Byte>)

  /** A name a path segment can carry: not empty, not a dot name, no slash. */
  predicate GoodName(name: seq<Byte>) {
    name != [] && name != [DOT] && name != [DOT, DOT] && SLASH !in name
  }

  function Classify(bytes: seq<Byte>): Segment {
    if bytes == [] then Empty
    else if bytes == [DOT] then Dot
    else if bytes == [DOT, DOT] then DotDot
    else FileName(bytes)
  }

  /** The position of the first slash, or the length. */
  function Position(bytes: seq<Byte>): (n: nat)
    ensures n <= |bytes| && SLASH !in bytes[..n] && (n < |bytes| ==> bytes[n] == SLASH)
  {
    if bytes == [] || bytes[0] == SLASH then 0
    else
      var n := 1 + Position(bytes[1..]);
      assert bytes[..n] == [bytes[0]] + bytes[1..][..n - 1];
      n
  }

  /** What the iterator yields from this rest of the path on. */
  function Segments(rest: Option<seq<Byte>>, first: bool): seq<Segment>
    decreases if rest.Some? then 1 + |rest.value| else 0
  {
    if rest.None? then []
    else
      var bytes := rest.value;
      if bytes != [] && bytes[0] == SLASH then
        [if first then Root else Empty] + Segments(Some(bytes[1..]), false)
      else
        var n := Position(bytes);
        [Classify(bytes[..n])] + Segments(if n < |bytes| then Some(bytes[n + 1..]) else None, false)
  }

  /** The stateful iterator of `segments`, run to its end. */
  method CollectSegments(path: seq<Byte>) returns (segments: seq<Segment>)
    ensures segments == Segments(Some(path), true)
  {
    segments := [];
    var rest, first := Some(path), true;
    ghost var all := Segments(rest, first);
    while rest.Some?
      invariant segments + Segments(rest, first) == all
      decreases if rest.Some? then 1 + |rest.value| else 0
    {
      var segment, after := NextSegment(rest.value, first);
      Regroup(segments, [segment], Segments(after, false));
      segments, rest, first := segments + [segment], after, false;
    }
  }

  /** One call of the iterator's `next`. */
  method NextSegment(bytes: seq<Byte>, first: bool) returns (segment: Segment, rest: Option<seq<Byte>>)
    ensures Segments(Some(bytes), first) == [segment] + Segments(rest, false)
    ensures rest.Some? ==> |rest.value| < |bytes|
  {
    if bytes != [] && bytes[0] == SLASH {
      return if first then Root else Empty, Some(bytes[1..]);
    }
    var n := Position(bytes);
    return Classify(bytes[..n]), if n < |bytes| then Some(bytes[n + 1..]) else None;
  }

  function EndsWithSlash(bytes: seq<Byte>): bool {
    bytes != [] && bytes[|bytes| - 1] == SLASH
  }

  function Joined(path: seq<Byte>, name: seq<Byte>): seq<Byte> {
    (if EndsWithSlash(path) then path else path + [SLASH]) + name
  }

  /** `join_segment`; `None` is the error for a path that is too long. */
  function JoinSegment(path: seq<Byte>, name: seq<Byte>): (r: Option<seq<Byte>>)
    ensures r.Some? <==> |path| + |name| + (if EndsWithSlash(path) then 0 else 1) < PATH_MAX
    ensures r.Some? ==> path <= r.value && r.value[|path|..] == (if EndsWithSlash(path) then name else [SLASH] + name)
  {
    if |Joined(path, name)| < PATH_MAX then Some(Joined(path, name)) else None
  }

  lemma {:induction false} PositionOf(before: seq<Byte>, after: seq<Byte>)
    requires SLASH !in before && (after == [] || after[0] == SLASH)
    ensures Position(before + after) == |before|
  {
    if before != [] {
      assert before[0] in before;
      assert (before + after)[1..] == before[1..] + after;
      PositionOf(before[1..], after);
    }
  }

  lemma NameSegment(name: seq<Byte>, first: bool)
    requires GoodName(name)
    ensures Segments(Some(name), first) == [FileName(name)]
  {
    PositionOf(name, []);
    assert name + [] == name;
    assert name[..|name|] == name;
    assert name[0] in name;
  }

  /** The segments of a path, without the empty one behind a trailing slash. */
  function Lead(path: seq<Byte>, first: bool): seq<Segment> {
    var all := Segments(Some(path), first);
    if EndsWithSlash(path) && all != [] then all[..|all| - 1] else all
  }

  lemma EmptySegments()
    ensures Segments(Some([]), false) == [Empty]
  {
  }

  /** `head` is the first segment of the path and `tail` what follows its slash. */
  ghost predicate Cuts(path: seq<Byte>, first: bool, head: Segment, tail: seq<Byte>) {
    Segments(Some(path), first) == [head] + Segments(Some(tail), false)
  }

  lemma LeadCons(path: seq<Byte>, first: bool, head: Segment, tail: seq<Byte>)
    requires path != [] && Cuts(path, first, head, tail)
    requires tail != [] ==> EndsWithSlash(path) == EndsWithSlash(tail)
    requires tail == [] ==> EndsWithSlash(path)
    ensures Lead(path, first) == [head] + if tail == [] then [] else Lead(tail, false)
  {
    var rest := Segments(Some(tail), false);
    EmptySegments();
    assert rest != [];
    assert ([head] + rest)[..|rest|] == [head] + rest[..|rest| - 1];
  }

  lemma SlashCuts(path: seq<Byte>, first: bool)
    requires path != [] && path[0] == SLASH
    ensures Cuts(path, first, if first then Root else Empty, path[1..])
  {
  }

  lemma NameCuts(path: seq<Byte>, n: nat, first: bool)
    requires n < |path| && path[0] != SLASH && SLASH !in path[..n] && path[n] == SLASH
    ensures Cuts(path, first, Classify(path[..n]), path[n + 1..])
  {
    assert path == path[..n] + path[n..];
    PositionOf(path[..n], path[n..]);
  }

  /** What follows the first slash at `n`, in the joined path. */
  function JoinedTail(path: seq<Byte>, name: seq<Byte>, n: nat): seq<Byte>
    requires n < |path|
  {
    if n + 1 == |path| then name else Joined(path[n + 1..], name)
  }

  lemma JoinedSplit(path: seq<Byte>, name: seq<Byte>, n: nat)
    requires n < |path| && path[n] == SLASH
    ensures var joined := Joined(path, name);
            n < |joined| && joined[..n + 1] == path[..n + 1] && joined[n + 1..] == JoinedTail(path, name, n)
  {
  }

  /** A path without a slash. */
  lemma PlainJoined(path: seq<Byte>, name: seq<Byte>, first: bool)
    requires path != [] && SLASH !in path && GoodName(name)
    ensures Lead(path, first) == [Classify(path)]
    ensures Segments(Some(Joined(path, name)), first) == [Classify(path)] + [FileName(name)]
  {
    assert path[|path| - 1] in path && path[0] in path;
    PositionOf(path, []);
    assert path + [] == path && path[..|path|] == path;
    PositionOf(path, [SLASH] + name);
    var joined := Joined(path, name);
    assert joined == path + ([SLASH] + name);
    assert joined[..|path|] == path && joined[|path| + 1..] == name;
    NameSegment(name, false);
  }

  /** A path with its first slash at `n`: the first segment is cut off from both. */
  lemma SplitJoined(path: seq<Byte>, name: seq<Byte>, n: nat, first: bool) returns (head: Segment)
    requires n < |path| && SLASH !in path[..n] && path[n] == SLASH
    ensures Cuts(path, first, head, path[n + 1..])
    ensures Cuts(Joined(path, name), first, head, JoinedTail(path, name, n))
  {
    var joined := Joined(path, name);
    JoinedSplit(path, name, n);
    assert joined[..n] == joined[..n + 1][..n] == path[..n] && joined[n] == joined[..n + 1][n];
    if n == 0 {
      head := if first then Root else Empty;
      SlashCuts(path, first);
      SlashCuts(joined, first);
    } else {
      head := Classify(path[..n]);
      assert path[0] == path[..n][0];
      NameCuts(path, n, first);
      NameCuts(joined, n, first);
    }
  }

  /** A path with a slash: its first segment is cut off, from the joined path too. */
  lemma CutFirst(path: seq<Byte>, name: seq<Byte>, first: bool) returns (head: Segment, tail: seq<Byte>)
    requires path != [] && GoodName(name) && SLASH in path
    ensures |tail| < |path|
    ensures Lead(path, first) == [head] + if tail == [] then [] else Lead(tail, false)
    ensures if tail == [] then Segments(Some(Joined(path, name)), first) == [head] + [FileName(name)]
            else Cuts(Joined(path, name), first, head, Joined(tail, name))
  {
    var n := Position(path);
    assert n < |path| by {
      assert path[..|path|] == path;
    }
    tail := path[n + 1..];
    head := SplitJoined(path, name, n, first);
    LeadCons(path, first, head, tail);
    NameSegment(name, false);
  }

  /** The segments of a joined path are those of the path, without the empty one behind a
      trailing slash, followed by the name. */
  lemma {:induction false} SegmentsOfJoined(path: seq<Byte>, name: seq<Byte>, first: bool)
    requires path != [] && GoodName(name)
    ensures Segments(Some(Joined(path, name)), first) == Lead(path, first) + [FileName(name)]
    decreases |path|
  {
    if SLASH !in path {
      PlainJoined(path, name, first);
    } else {
      var head, tail := CutFirst(path, name, first);
      if tail != [] {
        SegmentsOfJoined(tail, name, false);
        Regroup([head], Lead(tail, false), [FileName(name)]);
      }
    }
  }

  /** A segment as it stands in a path. */
  function Text(s: Segment): seq<Byte> {
    match s
    case Root => []
    case Empty => []
    case Dot => [DOT]
    case DotDot => [DOT, DOT]
    case FileName(name) => name
  }

  /** Segments with a slash between each two. */
  function Unsplit(segments: seq<Segment>): seq<Byte> {
    if segments == [] then []
    else if |segments| == 1 then Text(segments[0])
    else Text(segments[0]) + [SLASH] + Unsplit(segments[1..])
  }

  lemma UnsplitCons(head: Segment, rest: seq<Segment>)
    requires rest != []
    ensures Unsplit([head] + rest) == Text(head) + [SLASH] + Unsplit(rest)
  {
    assert ([head] + rest)[1..] == rest;
  }

  /** The first segment of a path and the rest behind its slash, if it has one. */
  lemma FirstCut(path: seq<Byte>, first: bool) returns (head: Segment, tail: Option<seq<Byte>>)
    ensures Segments(Some(path), first) == [head] + Segments(tail, false)
    ensures tail.None? ==> path == Text(head)
    ensures tail.Some? ==> |tail.value| < |path| && path == Text(head) + [SLASH] + tail.value
  {
    if path != [] && path[0] == SLASH {
      head, tail := if first then Root else Empty, Some(path[1..]);
      assert path == [] + [SLASH] + path[1..];
    } else {
      var n := Position(path);
      head, tail := Classify(path[..n]), if n < |path| then Some(path[n + 1..]) else None;
      assert n < |path| ==> path == path[..n] + [SLASH] + path[n + 1..];
      assert n == |path| ==> path[..n] == path;
    }
  }

  /** Nothing is lost: the segments of any path, put together again, are the path. */
  lemma {:induction false} SegmentsRoundTrip(path: seq<Byte>, first: bool)
    ensures Segments(Some(path), first) != [] && Unsplit(Segments(Some(path), first)) == path
    decreases |path|
  {
    var head, tail := FirstCut(path, first);
    if tail.Some? {
      SegmentsRoundTrip(tail.value, false);
      UnsplitCons(head, Segments(tail, false));
    } else {
      assert [head] + [] == [head];
    }
  }
}
