/** A run in which hot-unplug panics: one CPU plugs a slot and takes one frame, another
    frees that frame and stops between the two shared counters, and the first gives its
    group up. */
module FrameUnplug {
  import opened Basics
  import opened FrameWord
  import opened FrameAllocator
  import opened FrameProof
  import opened FrameTheorems

  lemma {:induction false} RunSnoc(s: State, labels: seq<Label>, t: State, l: Label)
    requires Run(s, labels, t) && Typed(t) && Enabled(t, l.cpu, l.action)
    ensures Run(s, labels + [l], Apply(t, l.cpu, l.action))
    decreases |labels|
  {
    if labels == [] {
      assert Run(Apply(t, l.cpu, l.action), [], Apply(t, l.cpu, l.action));
      assert ([l])[1..] == [];
    } else {
      RunSnoc(Apply(s, labels[0].cpu, labels[0].action), labels[1..], t, l);
      assert (labels + [l])[1..] == labels[1..] + [l];
    }
  }

  lemma NextReachable(s: State, p: nat, a: Action)
    requires Reachable(s) && Typed(s) && Enabled(s, p, a)
    ensures Reachable(Apply(s, p, a))
  {
    var s0, labels :| Initial(s0) && Run(s0, labels, s);
    RunSnoc(s0, labels, s, Label(p, a));
  }

  /** One more action of a run. */
  lemma Extend(s: State, p: nat, a: Action) returns (t: State)
    requires Reachable(s) && Enabled(s, p, a)
    ensures Typed(s) && Here(s, p) && t == Apply(s, p, a) && Reachable(t)
  {
    ReachableInv(s);
    TypedHere(s, p);
    NextReachable(s, p, a);
    t := Apply(s, p, a);
  }

  // ----- one action at a time -----

  lemma Starts(s: State, p: nat) returns (t: State)
    requires Reachable(s) && p in s.cpus && s.cpus[p].pc.Idle? && s.cpus[p].guard.None?
    ensures Here(s, p) && Reachable(t) && t == SetPc(s, p, Claim)
  {
    t := Extend(s, p, StartAlloc);
  }

  lemma Claims(s: State, p: nat, g: nat) returns (t: State)
    requires Reachable(s) && p in s.cpus && s.cpus[p].pc.Claim? && Enabled(s, p, ClaimGroup(g))
    ensures Here(s, p) && Reachable(t) && t == DoClaim(s, p, g, true)
  {
    t := Extend(s, p, ClaimGroup(g));
  }

  lemma BuildsL1(s: State, p: nat, priv: Private, k: nat) returns (t: State)
    requires Reachable(s) && p in s.cpus && s.cpus[p].pc == BuildL1(priv, k, true)
    ensures Here(s, p) && Reachable(t) && t == DoBuildL1(s, p, priv, k, true)
  {
    t := Extend(s, p, Go);
  }

  lemma BuildsAddr(s: State, p: nat, priv: Private, k: nat) returns (t: State)
    requires Reachable(s) && p in s.cpus && s.cpus[p].pc == BuildAddr(priv, k, true)
    ensures Here(s, p) && Reachable(t) && t == DoBuildAddr(s, p, priv, k, true)
  {
    t := Extend(s, p, Go);
  }

  lemma Chooses(s: State, p: nat) returns (t: State)
    requires Reachable(s) && p in s.cpus && s.cpus[p].pc.Choose?
    ensures Here(s, p) && Reachable(t) && t == DoChoose(s, p)
  {
    t := Extend(s, p, Go);
  }

  lemma RefreshesL1(s: State, p: nat, k: nat) returns (t: State)
    requires Reachable(s) && p in s.cpus && s.cpus[p].pc == RefreshL1(k, false)
    ensures Here(s, p) && Reachable(t) && t == DoRefreshL1(s, p, k, false)
  {
    t := Extend(s, p, Go);
  }

  lemma RefreshesL2(s: State, p: nat) returns (t: State)
    requires Reachable(s) && p in s.cpus && s.cpus[p].pc == RefreshL2(false)
    ensures Here(s, p) && Reachable(t) && t == DoRefreshL2(s, p, false)
  {
    t := Extend(s, p, Go);
  }

  lemma Plugs(s: State, p: nat, c: nat, slot: nat) returns (t: State)
    requires Reachable(s) && p in s.cpus && s.cpus[p].pc == PlugAsk(c) && slot in s.pool
    ensures Here(s, p) && Reachable(t) && t == DoPlug(s, p, c, slot)
  {
    t := Extend(s, p, Slot(slot));
  }

  lemma Maps(s: State, p: nat, c: nat) returns (t: State)
    requires Reachable(s) && p in s.cpus && s.cpus[p].pc == PlugMap(c)
    ensures Here(s, p) && Reachable(t) && t == DoMap(s, p, c)
  {
    t := Extend(s, p, Go);
  }

  lemma Scans(s: State, p: nat, c: nat, i: nat) returns (t: State)
    requires Reachable(s) && p in s.cpus && s.cpus[p].pc == Scan(c, i)
    ensures Here(s, p) && Reachable(t) && t == DoScan(s, p, c, i)
  {
    t := Extend(s, p, Go);
  }

  lemma Takes(s: State, p: nat, c: nat, f: nat) returns (t: State)
    requires Reachable(s) && p in s.cpus && s.cpus[p].pc == Take(c, f)
    ensures Here(s, p) && Reachable(t) && t == DoTake(s, p, c, f)
  {
    t := Extend(s, p, Go);
  }

  lemma StartsFree(s: State, p: nat, f: Frame) returns (t: State)
    requires Reachable(s) && p in s.cpus && s.cpus[p].pc.Idle? && Enabled(s, p, StartFree(f))
    ensures Here(s, p) && Reachable(t) && t == SetPc(s, p, FreeMap(f))
  {
    t := Extend(s, p, StartFree(f));
  }

  lemma LooksUp(s: State, p: nat, f: Frame) returns (t: State)
    requires Reachable(s) && p in s.cpus && s.cpus[p].pc == FreeMap(f)
    ensures Reachable(t) && f.0 < |s.rmap| && t == SetPc(s, p, FreeClear(f, s.rmap[f.0].0, s.rmap[f.0].1))
  {
    t := Extend(s, p, Go);
  }

  lemma ClearsBit(s: State, p: nat, f: Frame, g: nat, c: nat) returns (t: State)
    requires Reachable(s) && p in s.cpus && s.cpus[p].pc == FreeClear(f, g, c)
    ensures Here(s, p) && Reachable(t) && t == DoFreeClear(s, p, f, g, c)
  {
    t := Extend(s, p, Go);
  }

  lemma CountsL1(s: State, p: nat, g: nat, c: nat) returns (t: State)
    requires Reachable(s) && p in s.cpus && s.cpus[p].pc == FreeL1(g, c)
    ensures Here(s, p) && Reachable(t) && t == DoFreeL1(s, p, g, c)
  {
    t := Extend(s, p, Go);
  }

  lemma Releases(s: State, p: nat) returns (t: State)
    requires Reachable(s) && p in s.cpus && s.cpus[p].pc.Idle? && s.cpus[p].guard.Some?
    ensures Here(s, p) && Reachable(t) && t == BeginDrop(s, p, false)
  {
    t := Extend(s, p, StartRelease);
  }

  lemma DropsL1(s: State, p: nat, priv: Private, k: nat) returns (t: State)
    requires Reachable(s) && p in s.cpus && s.cpus[p].pc == DropL1(priv, k, false)
    ensures Here(s, p) && Reachable(t) && t == DoDropL1(s, p, priv, k, false)
  {
    t := Extend(s, p, Go);
  }

  lemma DropsL2(s: State, p: nat, priv: Private) returns (t: State)
    requires Reachable(s) && p in s.cpus && s.cpus[p].pc == DropL2(priv, false)
    ensures Here(s, p) && Reachable(t) && t == DoDropL2(s, p, priv, false)
  {
    t := Extend(s, p, Go);
  }

  lemma Unplugs(s: State, p: nat, priv: Private, k: nat) returns (t: State)
    requires Reachable(s) && p in s.cpus && s.cpus[p].pc == Unplug(priv, k, false)
    ensures Here(s, p) && Reachable(t) && t == DoUnplug(s, p, priv, k, false)
  {
    t := Extend(s, p, Go);
  }

  // ----- the run -----

  const UNUSED: Group := Group(L2Word(0, false, NO_PLUGGED), ZEROS, NO_USED, ZEROS)
  const OWNED: Group := Group(L2Word(0, true, NO_PLUGGED), ZEROS, NO_USED, ZEROS)
  const ONE_USED: Group := Group(L2Word(0, true, NO_PLUGGED), ZEROS, [{0}, {}, {}, {}, {}, {}, {}, {}], ZEROS)
  /** The frame is free again; level 1 has been told, level 2 has not. */
  const COUNTED: Group := Group(L2Word(0, true, NO_PLUGGED), [1, 0, 0, 0, 0, 0, 0, 0], NO_USED, ZEROS)

  /** A private copy of group 0 in which only chunk 0 can be plugged. */
  function Copy(plugged: bool, count: int, free: int): Private {
    Private(0, [plugged, false, false, false, false, false, false, false], free, [count, 0, 0, 0, 0, 0, 0, 0], ZEROS)
  }

  /** The parts of a reachable state that the run looks at. */
  ghost predicate Scene(s: State, grp: Group, cpu0: Cpu, cpu1: Cpu) {
    Reachable(s) && |s.groups| == SUPER_GROUP_SIZE && s.groups[0] == grp
    && s.cpus.Keys == {0, 1} && s.cpus[0] == cpu0 && s.cpus[1] == cpu1
  }

  lemma NothingToSwap(priv: Private, k: nat)
    requires k < 8 && |priv.l1| == 8
    ensures ZEROS[k := 0] == ZEROS && OWNED.(l1 := OWNED.l1[k := 0]) == OWNED && Swapped(priv, OWNED, k) == priv
  {
    assert ZEROS[k] == 0;
    assert priv.l1[k := priv.l1[k] + 0] == priv.l1;
  }

  lemma UsedOnce()
    ensures NO_USED[0 := NO_USED[0] + {0}] == ONE_USED.used && ONE_USED.used[0 := ONE_USED.used[0] - {0}] == NO_USED
  {
    var empty: set<nat> := {};
    assert empty + {0} == {0} && {0} - {0} == empty;
  }

  lemma Fresh() returns (t: State)
    ensures Scene(t, UNUSED, Cpu(None, Idle), Cpu(None, Idle)) && 0 in t.pool && t.out == {}
  {
    t := State(seq(SUPER_GROUP_SIZE, _ => UNUSED), seq(SLOTS, _ => (0, 0)), {0},
               map[0 := Cpu(None, Idle), 1 := Cpu(None, Idle)], map[], map[], {});
    assert Initial(t) && Run(t, [], t);
  }

  lemma Claimed() returns (t: State)
    ensures Scene(t, OWNED, Cpu(None, BuildL1(Copy(false, 0, 0), 0, true)), Cpu(None, Idle)) && 0 in t.pool && t.out == {}
  {
    var s := Fresh();
    s := Starts(s, 0);
    assert CountZeros(NO_PLUGGED) > 0;
    t := Claims(s, 0, 0);
  }

  lemma {:induction false} BuiltL1(s: State, k: nat) returns (t: State)
    requires k < 8 && 0 in s.pool && s.out == {}
    requires Scene(s, OWNED, Cpu(None, BuildL1(Copy(false, 0, 0), k, true)), Cpu(None, Idle))
    ensures Scene(t, OWNED, Cpu(None, BuildAddr(Copy(false, 0, 0), 0, true)), Cpu(None, Idle)) && 0 in t.pool && t.out == {}
    decreases 8 - k
  {
    t := BuildsL1(s, 0, Copy(false, 0, 0), k);
    NothingToSwap(Copy(false, 0, 0), k);
    if k + 1 < 8 {
      t := BuiltL1(t, k + 1);
    }
  }

  lemma {:induction false} BuiltAddr(s: State, k: nat) returns (t: State)
    requires k < 8 && 0 in s.pool && s.out == {}
    requires Scene(s, OWNED, Cpu(None, BuildAddr(Copy(false, 0, 0), k, true)), Cpu(None, Idle))
    ensures Scene(t, OWNED, Cpu(Some(Copy(false, 0, 0)), Choose), Cpu(None, Idle)) && 0 in t.pool && t.out == {}
    decreases 8 - k
  {
    t := BuildsAddr(s, 0, Copy(false, 0, 0), k);
    NothingToSwap(Copy(false, 0, 0), k);
    if k + 1 < 8 {
      t := BuiltAddr(t, k + 1);
    }
  }

  lemma {:induction false} Refreshed(s: State, k: nat) returns (t: State)
    requires k < 8 && 0 in s.pool && s.out == {}
    requires Scene(s, OWNED, Cpu(Some(Copy(false, 0, 0)), RefreshL1(k, false)), Cpu(None, Idle))
    ensures Scene(t, OWNED, Cpu(Some(Copy(false, 0, 0)), RefreshL2(false)), Cpu(None, Idle)) && 0 in t.pool && t.out == {}
    decreases 8 - k
  {
    t := RefreshesL1(s, 0, k);
    NothingToSwap(Copy(false, 0, 0), k);
    if k + 1 < 8 {
      t := Refreshed(t, k + 1);
    }
  }

  lemma Entered() returns (t: State)
    ensures Scene(t, OWNED, Cpu(Some(Copy(false, 0, 0)), RefreshL1(0, false)), Cpu(None, Idle)) && 0 in t.pool && t.out == {}
  {
    var s := Claimed();
    s := BuiltL1(s, 0);
    s := BuiltAddr(s, 0);
    t := Chooses(s, 0);
  }

  /** A group without a plugged chunk asks for a slot. */
  lemma Asked() returns (t: State)
    ensures Scene(t, OWNED, Cpu(Some(Copy(false, 0, 0)), PlugAsk(0)), Cpu(None, Idle)) && 0 in t.pool && t.out == {}
  {
    var s := Entered();
    s := Refreshed(s, 0);
    t := RefreshesL2(s, 0);
    assert FirstZero(NO_PLUGGED, 0) == Some(0);
  }

  lemma PluggedIn() returns (t: State)
    ensures Scene(t, OWNED, Cpu(Some(Copy(true, 512, 512)), PlugMap(0)), Cpu(None, Idle)) && t.out == {}
  {
    var s := Asked();
    t := Plugs(s, 0, 0, 0);
    assert ZEROS[0 := 0] == ZEROS && ([0, 0, 0, 0, 0, 0, 0, 0])[0 := 512] == [512, 0, 0, 0, 0, 0, 0, 0];
    assert NO_PLUGGED[0 := true] == [true, false, false, false, false, false, false, false];
  }

  lemma Mapped() returns (t: State)
    ensures Scene(t, OWNED, Cpu(Some(Copy(true, 512, 512)), Choose), Cpu(None, Idle)) && t.out == {}
    ensures |t.rmap| > 0 && t.rmap[0] == (0, 0)
  {
    var s := PluggedIn();
    t := Maps(s, 0, 0);
  }

  lemma Scanning() returns (t: State)
    ensures Scene(t, OWNED, Cpu(Some(Copy(true, 512, 512)), Scan(0, 0)), Cpu(None, Idle)) && t.out == {}
    ensures |t.rmap| > 0 && t.rmap[0] == (0, 0)
  {
    var s := Mapped();
    t := Chooses(s, 0);
    assert FirstCounted([512, 0, 0, 0, 0, 0, 0, 0], 0) == Some(0);
  }

  lemma Found() returns (t: State)
    ensures Scene(t, OWNED, Cpu(Some(Copy(true, 512, 512)), Take(0, 0)), Cpu(None, Idle)) && t.out == {}
    ensures |t.rmap| > 0 && t.rmap[0] == (0, 0)
  {
    var s := Scanning();
    t := Scans(s, 0, 0, 0);
    assert LowestClear({}, 0, 64) == Some(0);
  }

  lemma Allocated() returns (t: State)
    ensures Scene(t, ONE_USED, Cpu(Some(Copy(true, 511, 511)), Idle), Cpu(None, Idle)) && t.out == {(0, 0)}
    ensures |t.rmap| > 0 && t.rmap[0] == (0, 0)
  {
    var s := Found();
    t := Takes(s, 0, 0, 0);
    assert ([512, 0, 0, 0, 0, 0, 0, 0])[0 := 511] == [511, 0, 0, 0, 0, 0, 0, 0];
    UsedOnce();
  }

  lemma Returned() returns (t: State)
    ensures Scene(t, ONE_USED, Cpu(Some(Copy(true, 511, 511)), Idle), Cpu(None, FreeMap((0, 0))))
    ensures |t.rmap| > 0 && t.rmap[0] == (0, 0)
  {
    var s := Allocated();
    t := StartsFree(s, 1, (0, 0));
  }

  lemma Freed() returns (t: State)
    ensures Scene(t, ONE_USED, Cpu(Some(Copy(true, 511, 511)), Idle), Cpu(None, FreeClear((0, 0), 0, 0)))
  {
    var s := Returned();
    t := LooksUp(s, 1, (0, 0));
  }

  /** The other CPU clears the frame's bit. */
  lemma Cleared() returns (t: State)
    ensures Scene(t, OWNED, Cpu(Some(Copy(true, 511, 511)), Idle), Cpu(None, FreeL1(0, 0)))
  {
    var s := Freed();
    t := ClearsBit(s, 1, (0, 0), 0, 0);
    UsedOnce();
  }

  /** It adds to level 1 and stops before level 2. */
  lemma HalfFreed() returns (t: State)
    ensures Scene(t, COUNTED, Cpu(Some(Copy(true, 511, 511)), Idle), Cpu(None, FreeL2(0, 0, false)))
  {
    var s := Cleared();
    t := CountsL1(s, 1, 0, 0);
    assert ZEROS[0 := 1] == COUNTED.l1;
  }

  lemma {:induction false} Collected(s: State, k: nat) returns (t: State)
    requires 1 <= k < 8
    requires Scene(s, OWNED, Cpu(None, DropL1(Copy(true, 512, 511), k, false)), Cpu(None, FreeL2(0, 0, false)))
    ensures Scene(t, OWNED, Cpu(None, DropL2(Copy(true, 512, 511), false)), Cpu(None, FreeL2(0, 0, false)))
    decreases 8 - k
  {
    t := DropsL1(s, 0, Copy(true, 512, 511), k);
    NothingToSwap(Copy(true, 512, 511), k);
    if k + 1 < 8 {
      t := Collected(t, k + 1);
    }
  }

  lemma Released() returns (t: State)
    ensures Scene(t, COUNTED, Cpu(None, DropL1(Copy(true, 511, 511), 0, false)), Cpu(None, FreeL2(0, 0, false)))
  {
    var s := HalfFreed();
    t := Releases(s, 0);
  }

  /** The first CPU gives its group up and collects the level-1 count alone. */
  lemma Dropping() returns (t: State)
    ensures Scene(t, OWNED, Cpu(None, DropL1(Copy(true, 512, 511), 1, false)), Cpu(None, FreeL2(0, 0, false)))
  {
    var s := Released();
    t := DropsL1(s, 0, Copy(true, 511, 511), 0);
    assert ([511, 0, 0, 0, 0, 0, 0, 0])[0 := 512] == [512, 0, 0, 0, 0, 0, 0, 0];
    assert COUNTED.l1[0 := 0] == ZEROS;
  }

  lemma Unplugging() returns (t: State)
    ensures Scene(t, OWNED, Cpu(None, Unplug(Copy(true, 512, 511), 0, false)), Cpu(None, FreeL2(0, 0, false)))
  {
    var s := Dropping();
    s := Collected(s, 1);
    t := DropsL2(s, 0, Copy(true, 512, 511));
  }

  /** Hot-unplug does panic: a run of two CPUs ends with one of them stopped in it. */
  lemma UnplugPanics()
    ensures exists t, p :: Reachable(t) && p in t.cpus && t.cpus[p].pc.Panicked?
  {
    var s := Unplugging();
    var t := Unplugs(s, 0, Copy(true, 512, 511), 0);
    assert t.cpus[0].pc.Panicked?;
  }
}
