/** Printing a directory's path and looking a path up again. Symbolic links are not
    followed. */
module PathLookup {
  import opened Basics
  import opened TmpFs
  import FilePath

  type Segment = FilePath.Segment

  datatype Found = Node(entry: Entry) | NotFound | NotADirectory | NoAccess

  /** What a lookup may search, and the tree it searches. */
  datatype View = View(dirs: map<Id, Dir>, dead: set<Id>, searchable: set<Id>)

  /** One segment of `lookup_node_with_parent`. */
  function Advance(v: View, at: Found, segment: Segment): Found {
    if !at.Node? then at
    else if segment.Root? then Node(DirEntry(ROOT))
    else if at.entry.NonDir? || at.entry.id !in v.dirs then NotADirectory
    else
      var d := at.entry.id;
      if !segment.Dot? && d !in v.searchable then NoAccess
      else
        match segment
        case DotDot =>
          (match v.dirs[d].location
           case Root => at
           case In(parent, _) => if parent in v.dead then NotFound else Node(DirEntry(parent)))
        case FileName(name) =>
          if name in v.dirs[d].items then Node(v.dirs[d].items[name]) else NotFound
        case _ => at
  }

  function LookupSegments(v: View, start: Found, segments: seq<Segment>): Found {
    if segments == [] then start
    else Advance(v, LookupSegments(v, start, segments[..|segments| - 1]), segments[|segments| - 1])
  }

  /** `lookup_node`. */
  method Lookup(v: View, start: Id, path: seq<Byte>) returns (r: Found)
    ensures r == LookupSegments(v, Node(DirEntry(start)), FilePath.Segments(Some(path), true))
  {
    var segments := FilePath.CollectSegments(path);
    r := Node(DirEntry(start));
    var i := 0;
    while i < |segments|
      invariant i <= |segments| && r == LookupSegments(v, Node(DirEntry(start)), segments[..i])
    {
      assert segments[..i + 1][..i] == segments[..i];
      r := Advance(v, r, segments[i]);
      i := i + 1;
    }
    assert segments[..i] == segments;
  }

  /** The name a directory remembers. */
  function NameOf(dirs: map<Id, Dir>, d: Id): Name
    requires d in dirs && dirs[d].location.In?
  {
    dirs[d].location.name
  }

  /** `Directory::path` along a chain; `None` is an error. */
  ghost function PrintedPath(v: View, chain: seq<Id>): Option<seq<Byte>>
    requires IsChain(v.dirs, chain)
    decreases |chain|
  {
    if |chain| == 1 then Some([FilePath.SLASH])
    else
      ChainTail(v.dirs, chain);
      if chain[1] in v.dead then None
      else
        match PrintedPath(v, chain[1..])
        case None => None
        case Some(path) => FilePath.JoinSegment(path, NameOf(v.dirs, chain[0]))
  }

  /** Directory names come from path segments. */
  ghost predicate GoodNames(dirs: map<Id, Dir>) {
    forall d {:trigger d in dirs} | d in dirs && dirs[d].location.In? :: FilePath.GoodName(NameOf(dirs, d))
  }

  /** The names along a chain, outermost first. */
  ghost function Names(dirs: map<Id, Dir>, chain: seq<Id>): seq<Segment>
    requires IsChain(dirs, chain)
    decreases |chain|
  {
    if |chain| == 1 then [FilePath.Root]
    else
      ChainTail(dirs, chain);
      Names(dirs, chain[1..]) + [FilePath.FileName(NameOf(dirs, chain[0]))]
  }

  lemma RootSegments()
    ensures FilePath.Segments(Some([FilePath.SLASH]), true) == [FilePath.Root, FilePath.Empty]
    ensures FilePath.Lead([FilePath.SLASH], true) == [FilePath.Root]
  {
    assert FilePath.Segments(Some([]), false) == [FilePath.Empty];
    assert [FilePath.SLASH][1..] == [];
    assert [FilePath.Root, FilePath.Empty][..1] == [FilePath.Root];
  }

  /** Cutting a printed path into segments gives back the names it was printed from. */
  lemma {:induction false} PrintedSegments(v: View, chain: seq<Id>)
    requires IsChain(v.dirs, chain) && GoodNames(v.dirs) && PrintedPath(v, chain).Some?
    ensures PrintedPath(v, chain).value != []
    ensures FilePath.Lead(PrintedPath(v, chain).value, true) == Names(v.dirs, chain)
    ensures |chain| > 1 ==> FilePath.Segments(Some(PrintedPath(v, chain).value), true) == Names(v.dirs, chain)
    decreases |chain|
  {
    if |chain| == 1 {
      RootSegments();
    } else {
      ChainTail(v.dirs, chain);
      var name := NameOf(v.dirs, chain[0]);
      var parent := PrintedPath(v, chain[1..]).value;
      PrintedSegments(v, chain[1..]);
      FilePath.SegmentsOfJoined(parent, name, true);
      var path := FilePath.Joined(parent, name);
      assert path[|path| - 1] == name[|name| - 1] && name[|name| - 1] in name;
    }
  }

  // ----- looking up the names -----

  /** Every directory on the chain is held by the next one under its remembered name. */
  ghost predicate Linked(dirs: map<Id, Dir>, chain: seq<Id>)
    requires IsChain(dirs, chain)
  {
    forall i {:trigger chain[i]} | 0 <= i < |chain| - 1 ::
      Step(dirs, chain[i], chain[i + 1]) && Holds(dirs, chain[i + 1], NameOf(dirs, chain[i]), chain[i])
  }

  ghost predicate Searchable(v: View, ids: seq<Id>) {
    forall d | d in ids :: d in v.searchable
  }

  ghost predicate LiveNode(v: View, at: Found) {
    at.Node? && at.entry.DirEntry? ==> at.entry.id in v.dirs && at.entry.id !in v.dead
  }

  lemma {:induction false} NamesLive(v: View, start: Found, chain: seq<Id>)
    requires Tree(v.dirs, v.dead) && IsChain(v.dirs, chain) && start.Node?
    ensures LiveNode(v, LookupSegments(v, start, Names(v.dirs, chain)))
    decreases |chain|
  {
    if |chain| > 1 {
      ChainTail(v.dirs, chain);
      NamesLive(v, start, chain[1..]);
      LookupNames(v, start, chain);
      var before := LookupSegments(v, start, Names(v.dirs, chain[1..]));
      var name := NameOf(v.dirs, chain[0]);
      if before.Node? && before.entry.DirEntry? && name in v.dirs[before.entry.id].items {
        var entry := v.dirs[before.entry.id].items[name];
        if entry.DirEntry? {
          assert Holds(v.dirs, before.entry.id, name, entry.id);
          assert EntryOk(v.dirs, v.dead, before.entry.id, name, entry.id);
        }
      }
    } else {
      assert Names(v.dirs, chain) == [FilePath.Root];
    }
  }

  lemma LookupNames(v: View, start: Found, chain: seq<Id>)
    requires IsChain(v.dirs, chain) && |chain| > 1 && IsChain(v.dirs, chain[1..]) && Step(v.dirs, chain[0], chain[1])
    ensures LookupSegments(v, start, Names(v.dirs, chain))
            == Advance(v, LookupSegments(v, start, Names(v.dirs, chain[1..])), FilePath.FileName(NameOf(v.dirs, chain[0])))
  {
    var before := Names(v.dirs, chain[1..]);
    var all := before + [FilePath.FileName(NameOf(v.dirs, chain[0]))];
    assert all[..|all| - 1] == before;
  }

  /** The last name leads to `d` exactly when it is looked up in the directory that
      remembers and holds it. */
  lemma LastName(v: View, at: Found, d: Id)
    requires Tree(v.dirs, v.dead) && LiveNode(v, at) && d in v.dirs && v.dirs[d].location.In?
    ensures Advance(v, at, FilePath.FileName(NameOf(v.dirs, d))) == Node(DirEntry(d)) <==>
              var parent := v.dirs[d].location.parent;
              at == Node(DirEntry(parent)) && parent in v.searchable && Holds(v.dirs, parent, NameOf(v.dirs, d), d)
  {
    var name := NameOf(v.dirs, d);
    if at.Node? && at.entry.DirEntry? {
      assert EntryOk(v.dirs, v.dead, at.entry.id, name, d);
      assert Holds(v.dirs, at.entry.id, name, d) ==> at.entry.id == v.dirs[d].location.parent;
    }
  }

  lemma {:induction false} LookupNamesExact(v: View, start: Found, chain: seq<Id>)
    requires Tree(v.dirs, v.dead) && IsChain(v.dirs, chain) && start.Node?
    ensures LookupSegments(v, start, Names(v.dirs, chain)) == Node(DirEntry(chain[0])) <==>
              Linked(v.dirs, chain) && Searchable(v, chain[1..])
    decreases |chain|
  {
    if |chain| == 1 {
      assert Names(v.dirs, chain) == [FilePath.Root];
    } else {
      ChainTail(v.dirs, chain);
      LookupNames(v, start, chain);
      NamesLive(v, start, chain[1..]);
      LastName(v, LookupSegments(v, start, Names(v.dirs, chain[1..])), chain[0]);
      LookupNamesExact(v, start, chain[1..]);
      LinkedCons(v.dirs, chain);
      SearchableCons(v, chain[1..]);
    }
  }

  lemma LinkedCons(dirs: map<Id, Dir>, chain: seq<Id>)
    requires IsChain(dirs, chain) && |chain| > 1 && IsChain(dirs, chain[1..]) && Step(dirs, chain[0], chain[1])
    ensures Linked(dirs, chain) <==> Holds(dirs, chain[1], NameOf(dirs, chain[0]), chain[0]) && Linked(dirs, chain[1..])
  {
    var tail := chain[1..];
    if Linked(dirs, chain) {
      forall i | 0 <= i < |tail| - 1
        ensures Step(dirs, tail[i], tail[i + 1]) && Holds(dirs, tail[i + 1], NameOf(dirs, tail[i]), tail[i])
      {
        assert tail[i] == chain[i + 1] && tail[i + 1] == chain[i + 2];
      }
      assert chain[0] == chain[0];
    }
    if Holds(dirs, chain[1], NameOf(dirs, chain[0]), chain[0]) && Linked(dirs, tail) {
      forall i | 0 <= i < |chain| - 1
        ensures Step(dirs, chain[i], chain[i + 1]) && Holds(dirs, chain[i + 1], NameOf(dirs, chain[i]), chain[i])
      {
        assert i > 0 ==> tail[i - 1] == chain[i] && tail[i] == chain[i + 1];
      }
    }
  }

  lemma SearchableCons(v: View, ids: seq<Id>)
    requires ids != []
    ensures Searchable(v, ids) <==> ids[0] in v.searchable && Searchable(v, ids[1..])
  {
    assert ids == [ids[0]] + ids[1..];
  }

  /** Looking up the path printed for a directory finds that directory exactly when it and
      all its ancestors are linked under their remembered names and every directory passed
      through may be searched. */
  lemma LookupFindsPrinted(v: View, start: Id, chain: seq<Id>)
    requires Tree(v.dirs, v.dead) && GoodNames(v.dirs) && IsChain(v.dirs, chain)
    requires PrintedPath(v, chain).Some?
    ensures LookupSegments(v, Node(DirEntry(start)), FilePath.Segments(Some(PrintedPath(v, chain).value), true))
            == Node(DirEntry(chain[0]))
            <==> Linked(v.dirs, chain) && Searchable(v, chain[1..]) && ROOT in v.searchable
  {
    PrintedSegments(v, chain);
    LookupNamesExact(v, Node(DirEntry(start)), chain);
    if |chain| == 1 {
      RootSegments();
      assert [FilePath.Root, FilePath.Empty][..1] == Names(v.dirs, chain);
    } else {
      assert chain[1..][|chain| - 2] == ROOT;
    }
  }

  lemma PrintsBelowRoot(v: View, d: Id, b: Byte)
    requires d in v.dirs && v.dirs[d].location == In(ROOT, [b])
    requires ROOT in v.dirs && v.dirs[ROOT].location.Root? && ROOT !in v.dead
    ensures IsChain(v.dirs, [d, ROOT]) && PrintedPath(v, [d, ROOT]) == Some([FilePath.SLASH, b])
  {
    var chain := [d, ROOT];
    assert Step(v.dirs, chain[0], chain[1]);
    assert chain[1..] == [ROOT];
    assert FilePath.Joined([FilePath.SLASH], [b]) == [FilePath.SLASH, b];
  }

  lemma NotLinked(dirs: map<Id, Dir>, d: Id)
    requires IsChain(dirs, [d, ROOT]) && Step(dirs, d, ROOT) && !Holds(dirs, ROOT, NameOf(dirs, d), d)
    ensures !Linked(dirs, [d, ROOT])
  {
    var chain := [d, ROOT];
    assert chain[0] == d && chain[1] == ROOT;
  }

  /** A deleted directory still prints its old path, and looking that up does not find it. */
  method DeletedExample() returns (v: View, d: Id, path: seq<Byte>, r: Found)
    ensures Tree(v.dirs, v.dead) && GoodNames(v.dirs) && v.searchable == v.dirs.Keys
    ensures IsChain(v.dirs, [d, ROOT]) && PrintedPath(v, [d, ROOT]) == Some(path)
    ensures r == LookupSegments(v, Node(DirEntry(ROOT)), FilePath.Segments(Some(path), true))
    ensures r != Node(DirEntry(d))
  {
    v, d := MakeAndDelete();
    path := [FilePath.SLASH, 97];
    r := Lookup(v, ROOT, path);
    PrintsBelowRoot(v, d, 97);
    NotLinked(v.dirs, d);
    LookupFindsPrinted(v, ROOT, [d, ROOT]);
  }

  method MakeAndDelete() returns (v: View, d: Id)
    ensures Tree(v.dirs, v.dead) && GoodNames(v.dirs) && v.searchable == v.dirs.Keys
    ensures d in v.dirs && v.dirs[d].location == In(ROOT, [97]) && !Holds(v.dirs, ROOT, [97], d)
  {
    var fs := new FileSystem();
    var made, a := fs.CreateDir(ROOT, [97]);
    var deleted := fs.Delete(ROOT, [97], true);
    v, d := View(fs.dirs, fs.dead, fs.dirs.Keys), a;
  }
}
