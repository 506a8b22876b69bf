/** The directory tree of the in-memory file system: entries, and the location every
    directory remembers. Each operation is atomic. Directories stay known by their number
    after they are unlinked; one that nobody refers to any more may be dropped, after
    which it can no longer be reached as a parent. */
module TmpFs {
  import opened Basics

  type Name = seq<Byte>
  type Id = nat

  const ROOT: Id := 0

  datatype Location = Root | In(parent: Id, name: Name)
  datatype Entry = DirEntry(id: Id) | NonDir
  datatype Dir = Dir(items: map<Name, Entry>, location: Location)

  datatype Outcome = Done | NoEnt | Exist | NotDir | IsDir | NotEmpty | Inval | Deadlock

  // ----- the tree -----

  predicate Step(dirs: map<Id, Dir>, child: Id, parent: Id) {
    child in dirs && parent in dirs && dirs[child].location.In? && dirs[child].location.parent == parent
  }

  /** A walk along remembered parents that ends at the root. */
  ghost predicate IsChain(dirs: map<Id, Dir>, path: seq<Id>) {
    && path != [] && path[|path| - 1] == ROOT && ROOT in dirs && dirs[ROOT].location.Root?
    && forall i {:trigger path[i]} | 0 <= i < |path| - 1 :: Step(dirs, path[i], path[i + 1])
  }

  ghost predicate ChainFrom(dirs: map<Id, Dir>, d: Id, path: seq<Id>) {
    IsChain(dirs, path) && path[0] == d
  }

  ghost predicate ReachesRoot(dirs: map<Id, Dir>, d: Id) {
    d in dirs ==> exists path {:trigger ChainFrom(dirs, d, path)} :: ChainFrom(dirs, d, path)
  }

  ghost predicate Holds(dirs: map<Id, Dir>, d: Id, name: Name, c: Id) {
    d in dirs && name in dirs[d].items && dirs[d].items[name] == DirEntry(c)
  }

  /** An entry of a live directory names a live directory that remembers exactly this
      place; so no directory has two places. */
  ghost predicate EntryOk(dirs: map<Id, Dir>, dead: set<Id>, d: Id, name: Name, c: Id) {
    d !in dead && Holds(dirs, d, name, c) ==>
      c in dirs && c !in dead && c != ROOT && dirs[c].location == In(d, name)
  }

  ghost predicate Tree(dirs: map<Id, Dir>, dead: set<Id>) {
    && ROOT in dirs && dirs[ROOT].location.Root? && ROOT !in dead
    && (forall d, name, c {:trigger EntryOk(dirs, dead, d, name, c)} :: EntryOk(dirs, dead, d, name, c))
    && (forall d {:trigger ReachesRoot(dirs, d)} :: ReachesRoot(dirs, d))
  }

  /** Chains are unique. */
  lemma {:induction false} OneChain(dirs: map<Id, Dir>, a: seq<Id>, b: seq<Id>)
    requires IsChain(dirs, a) && IsChain(dirs, b) && a[0] == b[0]
    ensures a == b
    decreases |a|
  {
    if |a| > 1 && |b| > 1 {
      assert Step(dirs, a[0], a[1]) && Step(dirs, b[0], b[1]);
      ChainTail(dirs, a);
      ChainTail(dirs, b);
      OneChain(dirs, a[1..], b[1..]);
      assert a == [a[0]] + a[1..] && b == [b[0]] + b[1..];
    }
  }

  lemma ChainTail(dirs: map<Id, Dir>, path: seq<Id>)
    requires IsChain(dirs, path) && |path| > 1
    ensures Step(dirs, path[0], path[1]) && IsChain(dirs, path[1..])
  {
    assert Step(dirs, path[0], path[1]);
    forall i | 0 <= i < |path[1..]| - 1 ensures Step(dirs, path[1..][i], path[1..][i + 1]) {
      assert path[1..][i] == path[i + 1];
    }
  }

  lemma ChainAt(dirs: map<Id, Dir>, path: seq<Id>, i: nat)
    requires IsChain(dirs, path) && i < |path|
    ensures path[i] in dirs
    ensures dirs[path[i]].location.Root? <==> i == |path| - 1
    ensures i < |path| - 1 ==> dirs[path[i]].location.parent == path[i + 1]
  {
    if i < |path| - 1 {
      assert Step(dirs, path[i], path[i + 1]);
    }
  }

  lemma ChainCons(dirs: map<Id, Dir>, d: Id, path: seq<Id>)
    requires IsChain(dirs, path) && Step(dirs, d, path[0])
    ensures ChainFrom(dirs, d, [d] + path)
  {
    var longer := [d] + path;
    forall i | 0 <= i < |longer| - 1 ensures Step(dirs, longer[i], longer[i + 1]) {
      assert i > 0 ==> longer[i] == path[i - 1];
    }
  }

  /** Same remembered places, same chains. */
  lemma ChainSame(dirs: map<Id, Dir>, after: map<Id, Dir>, path: seq<Id>)
    requires IsChain(dirs, path) && dirs.Keys <= after.Keys
    requires forall d | d in path :: d in dirs && after[d].location == dirs[d].location
    ensures IsChain(after, path)
  {
    assert ROOT in path;
    forall i | 0 <= i < |path| - 1 ensures Step(after, path[i], path[i + 1]) {
      assert Step(dirs, path[i], path[i + 1]);
    }
  }

  lemma ChainInDirs(dirs: map<Id, Dir>, path: seq<Id>)
    requires IsChain(dirs, path)
    ensures forall d | d in path :: d in dirs
  {
    forall d | d in path ensures d in dirs {
      var i :| 0 <= i < |path| && path[i] == d;
      if i < |path| - 1 {
        assert Step(dirs, path[i], path[i + 1]);
      }
    }
  }

  /** Moving `x` below `target`, whose chain avoids `x`, leaves every directory a chain. */
  lemma {:induction false} MovedChain(
    dirs: map<Id, Dir>, after: map<Id, Dir>, x: Id, target: Id, targetPath: seq<Id>, path: seq<Id>)
    requires IsChain(dirs, path) && ChainFrom(dirs, target, targetPath) && x !in targetPath
    requires after.Keys == dirs.Keys && x in dirs && x != ROOT
    requires after[x].location.In? && after[x].location.parent == target
    requires forall d | d in dirs && d != x :: after[d].location == dirs[d].location
    ensures ReachesRoot(after, path[0])
    decreases |path|
  {
    ChainInDirs(dirs, path);
    if path[0] == x {
      ChainInDirs(dirs, targetPath);
      ChainSame(dirs, after, targetPath);
      ChainCons(after, x, targetPath);
    } else if |path| == 1 {
      ChainSame(dirs, after, path);
      assert ChainFrom(after, path[0], path);
    } else {
      ChainTail(dirs, path);
      MovedChain(dirs, after, x, target, targetPath, path[1..]);
      assert path[1] in after;
      var rest :| ChainFrom(after, path[1], rest);
      assert Step(after, path[0], path[1]);
      ChainCons(after, path[0], rest);
    }
  }

  /** A step that leaves every remembered place alone keeps all chains. */
  lemma PlacesSame(dirs: map<Id, Dir>, after: map<Id, Dir>, d: Id)
    requires ReachesRoot(dirs, d) && d in dirs && after.Keys >= dirs.Keys
    requires forall e | e in dirs :: after[e].location == dirs[e].location
    ensures ReachesRoot(after, d)
  {
    var path :| ChainFrom(dirs, d, path);
    ChainInDirs(dirs, path);
    ChainSame(dirs, after, path);
    assert ChainFrom(after, d, path);
  }

  /** No directory is its own ancestor. */
  lemma NoCycle(dirs: map<Id, Dir>, path: seq<Id>, i: nat, j: nat)
    requires IsChain(dirs, path) && i < j < |path|
    ensures path[i] != path[j]
  {
    if path[i] == path[j] {
      Suffix(dirs, path, i);
      Suffix(dirs, path, j);
      OneChain(dirs, path[i..], path[j..]);
    }
  }

  lemma {:induction false} Suffix(dirs: map<Id, Dir>, path: seq<Id>, i: nat)
    requires IsChain(dirs, path) && i < |path|
    ensures IsChain(dirs, path[i..]) && path[i..][0] == path[i]
    decreases i
  {
    if i > 0 {
      ChainTail(dirs, path);
      Suffix(dirs, path[1..], i - 1);
      assert path[1..][i - 1..] == path[i..];
    } else {
      assert path[0..] == path;
    }
  }

  // ----- the new states -----

  function WithItems(dirs: map<Id, Dir>, d: Id, items: map<Name, Entry>): map<Id, Dir>
    requires d in dirs
  {
    dirs[d := dirs[d].(items := items)]
  }

  function Relocated(dirs: map<Id, Dir>, e: Entry, d: Id, name: Name): map<Id, Dir> {
    if e.DirEntry? && e.id in dirs then dirs[e.id := dirs[e.id].(location := In(d, name))] else dirs
  }

  function Without(items: map<Name, Entry>, name: Name): map<Name, Entry> {
    items - {name}
  }

  function Moved(dirs: map<Id, Dir>, d: Id, oldName: Name, target: Id, newName: Name): map<Id, Dir>
    requires d in dirs && target in dirs && oldName in dirs[d].items
  {
    var entry := dirs[d].items[oldName];
    var removed := WithItems(dirs, d, Without(dirs[d].items, oldName));
    Relocated(WithItems(removed, target, removed[target].items[newName := entry]), entry, target, newName)
  }

  function Created(dirs: map<Id, Dir>, d: Id, name: Name, c: Id): map<Id, Dir>
    requires d in dirs
  {
    WithItems(dirs, d, dirs[d].items[name := DirEntry(c)])[c := Dir(map[], In(d, name))]
  }

  // ----- every operation keeps the tree -----

  lemma CreatedKeeps(dirs: map<Id, Dir>, dead: set<Id>, d: Id, name: Name, c: Id)
    requires Tree(dirs, dead) && d in dirs && d !in dead && c !in dirs && c !in dead && name !in dirs[d].items
    ensures Tree(Created(dirs, d, name, c), dead)
  {
    var after := Created(dirs, d, name, c);
    forall e, n, x ensures EntryOk(after, dead, e, n, x) {
      assert EntryOk(dirs, dead, e, n, x);
    }
    forall e | e in after ensures ReachesRoot(after, e) {
      assert ReachesRoot(dirs, d) && ReachesRoot(dirs, e);
      PlacesSame(dirs, after, if e == c then d else e);
      if e == c {
        var path :| ChainFrom(after, d, path);
        ChainCons(after, c, path);
      }
    }
  }

  /** Any change of entries that adds no directory entry. */
  lemma ItemsKeep(dirs: map<Id, Dir>, dead: set<Id>, d: Id, items: map<Name, Entry>)
    requires Tree(dirs, dead) && d in dirs
    requires forall n | n in items && items[n].DirEntry? :: n in dirs[d].items && dirs[d].items[n] == items[n]
    ensures Tree(WithItems(dirs, d, items), dead)
  {
    var after := WithItems(dirs, d, items);
    forall e, n, x ensures EntryOk(after, dead, e, n, x) {
      assert EntryOk(dirs, dead, e, n, x);
    }
    forall e | e in after ensures ReachesRoot(after, e) {
      assert ReachesRoot(dirs, e);
      PlacesSame(dirs, after, e);
    }
  }

  lemma DroppedKeeps(dirs: map<Id, Dir>, dead: set<Id>, d: Id)
    requires Tree(dirs, dead) && d != ROOT
    requires forall e, n {:trigger Holds(dirs, e, n, d)} :: e !in dead ==> !Holds(dirs, e, n, d)
    ensures Tree(dirs, dead + {d})
  {
    forall e, n, x ensures EntryOk(dirs, dead + {d}, e, n, x) {
      assert EntryOk(dirs, dead, e, n, x);
      assert Holds(dirs, e, n, d) ==> e in dead;
    }
  }

  /** The moved directory had one place and now has the new one. */
  lemma MovedEntries(dirs: map<Id, Dir>, dead: set<Id>, d: Id, oldName: Name, target: Id, newName: Name)
    requires Tree(dirs, dead) && d in dirs && target in dirs && d !in dead && oldName in dirs[d].items
    requires d == target ==> oldName != newName
    ensures forall e, n, c {:trigger EntryOk(Moved(dirs, d, oldName, target, newName), dead, e, n, c)} ::
              EntryOk(Moved(dirs, d, oldName, target, newName), dead, e, n, c)
  {
    var after, entry := Moved(dirs, d, oldName, target, newName), dirs[d].items[oldName];
    forall e, n, c ensures EntryOk(after, dead, e, n, c) {
      assert EntryOk(dirs, dead, e, n, c);
      if entry.DirEntry? {
        assert EntryOk(dirs, dead, d, oldName, entry.id) && Holds(dirs, d, oldName, entry.id);
      }
    }
  }

  lemma MovedKeeps(dirs: map<Id, Dir>, dead: set<Id>, d: Id, oldName: Name, target: Id, newName: Name, targetPath: seq<Id>)
    requires Tree(dirs, dead) && d in dirs && target in dirs && d !in dead && oldName in dirs[d].items
    requires d == target ==> oldName != newName
    requires ChainFrom(dirs, target, targetPath)
    requires dirs[d].items[oldName].DirEntry? ==> dirs[d].items[oldName].id !in targetPath
    ensures Tree(Moved(dirs, d, oldName, target, newName), dead)
  {
    var after, entry := Moved(dirs, d, oldName, target, newName), dirs[d].items[oldName];
    MovedEntries(dirs, dead, d, oldName, target, newName);
    if entry.DirEntry? {
      assert EntryOk(dirs, dead, d, oldName, entry.id) && Holds(dirs, d, oldName, entry.id);
    }
    forall e | e in after ensures ReachesRoot(after, e) {
      assert ReachesRoot(dirs, e);
      if entry.DirEntry? {
        var path :| ChainFrom(dirs, e, path);
        MovedChain(dirs, after, entry.id, target, targetPath, path);
      } else {
        PlacesSame(dirs, after, e);
      }
    }
  }

  /** A directory's entry is never among its ancestors. */
  lemma ChildNotAbove(dirs: map<Id, Dir>, dead: set<Id>, d: Id, name: Name, c: Id, path: seq<Id>)
    requires Tree(dirs, dead) && d !in dead && Holds(dirs, d, name, c) && ChainFrom(dirs, d, path)
    ensures c !in path
  {
    assert EntryOk(dirs, dead, d, name, c);
    ChainCons(dirs, c, path);
    var longer := [c] + path;
    forall i | 0 <= i < |path| ensures path[i] != c {
      NoCycle(dirs, longer, 0, i + 1);
      assert longer[i + 1] == path[i];
    }
  }

  lemma GrandchildNotAbove(
    dirs: map<Id, Dir>, dead: set<Id>, d: Id, name: Name, c: Id, above: Id, aboveName: Name, path: seq<Id>)
    requires Tree(dirs, dead) && d !in dead && above !in dead && Holds(dirs, d, name, c) && Holds(dirs, above, aboveName, d)
    requires ChainFrom(dirs, above, path)
    ensures c !in path
  {
    assert EntryOk(dirs, dead, above, aboveName, d);
    ChainCons(dirs, d, path);
    ChildNotAbove(dirs, dead, d, name, c, [d] + path);
  }

  // ----- the operations -----

  predicate IsEmptyDir(dirs: map<Id, Dir>, e: Entry) {
    e.DirEntry? && e.id in dirs && dirs[e.id].items == map[]
  }

  /** What `can_rename` says of the entries, apart from the directory it must lock. */
  function CanRename(moved: Entry, present: bool, replaced: Entry, empty: bool, checkIsDir: bool): Outcome {
    if checkIsDir && !moved.DirEntry? then NotDir
    else if !present then Done
    else if moved.NonDir? then (if replaced.NonDir? then Done else IsDir)
    else if replaced.NonDir? then NotDir
    else if empty then Done
    else NotEmpty
  }

  /** `a` is the directory `d` or one of its ancestors. */
  ghost predicate Above(dirs: map<Id, Dir>, a: Id, d: Id) {
    exists path {:trigger ChainFrom(dirs, d, path)} :: ChainFrom(dirs, d, path) && a in path
  }

  lemma AboveExact(dirs: map<Id, Dir>, d: Id, path: seq<Id>)
    requires ChainFrom(dirs, d, path)
    ensures forall a {:trigger Above(dirs, a, d)} :: Above(dirs, a, d) <==> a in path
  {
    forall a | Above(dirs, a, d) ensures a in path {
      var other :| ChainFrom(dirs, d, other) && a in other;
      OneChain(dirs, path, other);
    }
  }

  ghost predicate AncestorsLive(dirs: map<Id, Dir>, dead: set<Id>, d: Id) {
    forall a {:trigger Above(dirs, a, d)} :: Above(dirs, a, d) ==> a !in dead
  }

  /** A directory moved to where the directory it is moved out of is. */
  ghost predicate OverItsParent(dirs: map<Id, Dir>, d: Id, oldName: Name, target: Id, newName: Name) {
    && d != target && d in dirs && oldName in dirs[d].items && dirs[d].items[oldName].DirEntry?
    && Holds(dirs, target, newName, d)
  }

  /** When a rename between two different places is allowed. */
  ghost predicate MayMove(
    dirs: map<Id, Dir>, dead: set<Id>, d: Id, oldName: Name, checkIsDir: bool, target: Id, newName: Name, noReplace: bool)
    requires d in dirs && target in dirs
  {
    && oldName in dirs[d].items
    && var moved := dirs[d].items[oldName];
       var present := newName in dirs[target].items;
       && (checkIsDir ==> moved.DirEntry?)
       && (present ==> !noReplace)
       && (present && moved.NonDir? ==> dirs[target].items[newName].NonDir?)
       && (present && moved.DirEntry? ==> IsEmptyDir(dirs, dirs[target].items[newName]))
       && (d != target ==> AncestorsLive(dirs, dead, target))
       && (d != target && moved.DirEntry? ==> !Above(dirs, moved.id, target))
  }

  /** What each refusal of a rename says about the two places. */
  ghost predicate Explains(
    dirs: map<Id, Dir>, dead: set<Id>, r: Outcome, d: Id, oldName: Name, checkIsDir: bool, target: Id, newName: Name, noReplace: bool)
    requires d in dirs && target in dirs && oldName in dirs[d].items
  {
    var moved := dirs[d].items[oldName];
    var present := newName in dirs[target].items;
    match r
    case Exist => noReplace && present
    case NotDir =>
      (checkIsDir && moved.NonDir?) || (moved.DirEntry? && present && dirs[target].items[newName].NonDir?)
    case IsDir => moved.NonDir? && present && dirs[target].items[newName].DirEntry?
    case NotEmpty => moved.DirEntry? && present && !IsEmptyDir(dirs, dirs[target].items[newName])
    case Inval => d != target && moved.DirEntry? && Above(dirs, moved.id, target)
    case NoEnt => d != target && !AncestorsLive(dirs, dead, target)
    case Deadlock => OverItsParent(dirs, d, oldName, target, newName)
    case Done => true
  }

  class FileSystem {
    var dirs: map<Id, Dir>
    var dead: set<Id>
    var next: Id

    ghost predicate Valid()
      reads this
    {
      && Tree(dirs, dead)
      && (forall d :: d in dirs ==> d < next) && (forall d :: d in dead ==> d in dirs)
    }

    /** A directory a caller still has a reference to. */
    predicate Live(d: Id)
      reads this
    {
      d in dirs && d !in dead
    }

    constructor ()
      ensures Valid() && dirs == map[ROOT := Dir(map[], Root)] && dead == {}
    {
      dirs, dead, next := map[ROOT := Dir(map[], Root)], {}, 1;
      new;
      assert ChainFrom(dirs, ROOT, [ROOT]);
    }

    /** `create_dir`. */
    method CreateDir(d: Id, name: Name) returns (r: Outcome, c: Id)
      requires Valid() && Live(d)
      modifies this
      ensures Valid() && dead == old(dead)
      ensures r == if name in old(dirs)[d].items then Exist else Done
      ensures r.Exist? ==> dirs == old(dirs)
      ensures r.Done? ==> c !in old(dirs) && dirs == Created(old(dirs), d, name, c)
    {
      if name in dirs[d].items {
        return Exist, 0;
      }
      c := next;
      CreatedKeeps(dirs, dead, d, name, c);
      dirs := Created(dirs, d, name, c);
      next := next + 1;
      r := Done;
    }

    /** `create_file` and its like, and `create_link` when `replace` is set: that one also
        takes the place of a directory. */
    method CreateNonDir(d: Id, name: Name, replace: bool) returns (r: Outcome)
      requires Valid() && Live(d)
      modifies this`dirs
      ensures Valid()
      ensures r == if name in old(dirs)[d].items && !replace then Exist else Done
      ensures dirs == if r.Done? then WithItems(old(dirs), d, old(dirs)[d].items[name := NonDir]) else old(dirs)
    {
      if name in dirs[d].items && !replace {
        return Exist;
      }
      ItemsKeep(dirs, dead, d, dirs[d].items[name := NonDir]);
      dirs := WithItems(dirs, d, dirs[d].items[name := NonDir]);
      r := Done;
    }

    /** `delete_dir` and `delete_non_dir`. */
    method Delete(d: Id, name: Name, wantDir: bool) returns (r: Outcome)
      requires Valid() && Live(d)
      modifies this`dirs
      ensures Valid()
      ensures r.Done? <==>
                && name in old(dirs)[d].items
                && (if wantDir then IsEmptyDir(old(dirs), old(dirs)[d].items[name]) else old(dirs)[d].items[name].NonDir?)
      ensures r.NoEnt? <==> name !in old(dirs)[d].items
      ensures r.NotDir? <==> wantDir && name in old(dirs)[d].items && old(dirs)[d].items[name].NonDir?
      ensures r.IsDir? <==> !wantDir && name in old(dirs)[d].items && old(dirs)[d].items[name].DirEntry?
      ensures r.Done? || r.NoEnt? || r.NotDir? || r.IsDir? || r.NotEmpty?
      ensures dirs == if r.Done? then WithItems(old(dirs), d, Without(old(dirs)[d].items, name)) else old(dirs)
    {
      if name !in dirs[d].items {
        return NoEnt;
      }
      var entry := dirs[d].items[name];
      if wantDir && entry.NonDir? {
        return NotDir;
      }
      if !wantDir && entry.DirEntry? {
        return IsDir;
      }
      if wantDir && !IsEmptyDir(dirs, entry) {
        return NotEmpty;
      }
      ItemsKeep(dirs, dead, d, Without(dirs[d].items, name));
      dirs := WithItems(dirs, d, Without(dirs[d].items, name));
      r := Done;
    }

    /** The loop over the target's ancestors, along its chain. */
    method WalkAncestors(entry: Entry, target: Id, ghost path: seq<Id>) returns (r: Outcome, ghost i: nat)
      requires Valid() && Live(target) && ChainFrom(dirs, target, path)
      ensures i < |path|
      ensures r.Done? || r.Inval? || r.NoEnt?
      ensures r.Done? ==> forall k | 0 <= k < |path| :: path[k] !in dead && entry != DirEntry(path[k])
      ensures r.Inval? ==> entry == DirEntry(path[i])
      ensures r.NoEnt? ==> path[i] in dead
    {
      var parent := target;
      i := 0;
      while true
        invariant 0 <= i < |path| && path[i] == parent
        invariant forall k | 0 <= k <= i :: path[k] !in dead
        invariant forall k | 0 <= k < i :: entry != DirEntry(path[k])
        decreases |path| - i
      {
        if entry == DirEntry(parent) {
          return Inval, i;
        }
        ChainAt(dirs, path, i);
        if dirs[parent].location.Root? {
          return Done, i;
        }
        parent := dirs[parent].location.parent;
        i := i + 1;
        if parent in dead {
          return NoEnt, i;
        }
      }
    }

    /** The ancestor check of `rename`: it lets the rename go on exactly when the entry is
        not the target or above it and every ancestor is still there. */
    method CheckAncestors(entry: Entry, target: Id) returns (r: Outcome)
      requires Valid() && Live(target)
      ensures r.Done? || r.Inval? || r.NoEnt?
      ensures r.Done? <==> (entry.DirEntry? ==> !Above(dirs, entry.id, target)) && AncestorsLive(dirs, dead, target)
      ensures r.Inval? ==> entry.DirEntry? && Above(dirs, entry.id, target)
      ensures r.NoEnt? ==> !AncestorsLive(dirs, dead, target)
    {
      assert ReachesRoot(dirs, target);
      ghost var path :| ChainFrom(dirs, target, path);
      ghost var i;
      r, i := WalkAncestors(entry, target, path);
      AboveExact(dirs, target, path);
      assert Above(dirs, path[i], target);
    }

    /** `rename`. Moving a directory over the directory it is moved out of locks that
        directory twice. */
    method Rename(d: Id, oldName: Name, checkIsDir: bool, target: Id, newName: Name, noReplace: bool) returns (r: Outcome)
      requires Valid() && Live(d) && Live(target)
      modifies this`dirs
      ensures Valid()
      ensures r.Done? && (d != target || oldName != newName) ==>
                oldName in old(dirs)[d].items && dirs == Moved(old(dirs), d, oldName, target, newName)
      ensures !r.Done? || (d == target && oldName == newName) ==> dirs == old(dirs)
      ensures oldName !in old(dirs)[d].items ==> r.NoEnt?
      ensures d != target || oldName != newName ==>
                (r.Done? <==> MayMove(old(dirs), dead, d, oldName, checkIsDir, target, newName, noReplace))
      ensures d == target && oldName == newName && oldName in old(dirs)[d].items ==>
                (r.Done? <==> !noReplace && (checkIsDir ==> old(dirs)[d].items[oldName].DirEntry?))
      ensures !r.Done? && oldName in old(dirs)[d].items ==>
                Explains(old(dirs), dead, r, d, oldName, checkIsDir, target, newName, noReplace)
      ensures r.Deadlock? <==>
                OverItsParent(old(dirs), d, oldName, target, newName) && AncestorsLive(old(dirs), dead, target)
    {
      if oldName !in dirs[d].items {
        return NoEnt;
      }
      var entry := dirs[d].items[oldName];
      if d == target && oldName == newName {
        if noReplace {
          return Exist;
        }
        return CanRename(entry, false, NonDir, true, checkIsDir);
      }
      var present := newName in dirs[target].items;
      var replaced := if present then dirs[target].items[newName] else NonDir;
      assert ReachesRoot(dirs, target);
      ghost var path :| ChainFrom(dirs, target, path);
      AboveExact(dirs, target, path);
      if d == target {
        if noReplace && present {
          return Exist;
        }
        r := CanRename(entry, present, replaced, IsEmptyDir(dirs, replaced), checkIsDir);
        if !r.Done? {
          return;
        }
        if entry.DirEntry? {
          ChildNotAbove(dirs, dead, d, oldName, entry.id, path);
        }
      } else {
        if OverItsParent(dirs, d, oldName, target, newName) {
          GrandchildNotAbove(dirs, dead, d, oldName, entry.id, target, newName, path);
        }
        r := CheckAncestors(entry, target);
        if !r.Done? {
          return;
        }
        if entry.DirEntry? && replaced == DirEntry(d) {
          return Deadlock;
        }
        r := CanRename(entry, present, replaced, IsEmptyDir(dirs, replaced), checkIsDir);
        if !r.Done? {
          return;
        }
        if noReplace && present {
          return Exist;
        }
      }
      MovedKeeps(dirs, dead, d, oldName, target, newName, path);
      dirs := Moved(dirs, d, oldName, target, newName);
    }

    /** The last reference to an unlinked directory goes away. */
    method Drop(d: Id)
      requires Valid() && d != ROOT && Live(d)
      requires forall e, n {:trigger Holds(dirs, e, n, d)} :: e !in dead ==> !Holds(dirs, e, n, d)
      modifies this`dead
      ensures Valid() && dead == old(dead) + {d}
    {
      DroppedKeeps(dirs, dead, d);
      dead := dead + {d};
    }
  }

  /** The self-lock happens: with `/a/x` in place, renaming `/a/x` to `/a` never returns. */
  method DeadlockExample() returns (r: Outcome)
    ensures r.Deadlock?
  {
    var fs := new FileSystem();
    var made, a := fs.CreateDir(ROOT, [97]);
    var madeToo, x := fs.CreateDir(a, [120]);
    r := fs.Rename(a, [120], false, ROOT, [97], false);
  }
}
