/** What holds in every run of the frame allocator, for any number of CPUs and any
    interleaving of allocations, deallocations, claims, refreshes and releases. */
module FrameTheorems {
  import opened Basics
  import opened FrameWord
  import opened FrameAllocator
  import opened FrameView
  import opened FrameProof

  // ----- the invariant along runs -----

  /** The program points of `allocate_frame` and `release_private`. */
  lemma AllocStepKeeps(s: State, p: nat, a: Action)
    requires Inv(s) && Enabled(s, p, a)
    requires !PcPriv(s.cpus[p].pc).Some? && !PcGroup(s.cpus[p].pc).Some? && !s.cpus[p].pc.FreeMap?
    ensures Inv(Apply(s, p, a))
  {
    TypedHere(s, p);
    match s.cpus[p].pc
    case Idle => if a.StartRelease? { BeginDropKeeps(s, p, false); } else { StartKeeps(s, p, a); }
    case Claim => ClaimStepKeeps(s, p, a.g, true);
    case Choose => ChooseStepKeeps(s, p);
    case Scan(c, i) => ScanStepKeeps(s, p, c, i);
    case Take(c, f) => TakeStepKeeps(s, p, c, f);
    case RefreshL1(k, any) => RefreshL1StepKeeps(s, p, k, any);
    case RefreshL2(any) => RefreshL2StepKeeps(s, p, any);
    case PlugAsk(c) => PlugStepKeeps(s, p, c, a.slot);
    case PlugMap(c) => MapStepKeeps(s, p, c);
    case _ =>
  }

  /** The program points of `PrivateState::new` and `PrivateState::drop`. */
  lemma BuildStepKeeps(s: State, p: nat, a: Action)
    requires Inv(s) && Enabled(s, p, a) && (s.cpus[p].pc.BuildL1? || s.cpus[p].pc.BuildAddr?)
    ensures Inv(Apply(s, p, a))
  {
    TypedHere(s, p);
    match s.cpus[p].pc
    case BuildL1(priv, k, keep) => BuildL1StepKeeps(s, p, priv, k, keep);
    case BuildAddr(priv, k, keep) =>
      if keep && k + 1 == 8 { KeepStepKeeps(s, p, priv); } else { BuildAddrStepKeeps(s, p, priv, k, keep); }
  }

  lemma PrivateStepKeeps(s: State, p: nat, a: Action)
    requires Inv(s) && Enabled(s, p, a) && PcPriv(s.cpus[p].pc).Some?
    ensures Inv(Apply(s, p, a))
  {
    TypedHere(s, p);
    match s.cpus[p].pc
    case BuildL1(_, _, _) => BuildStepKeeps(s, p, a);
    case BuildAddr(_, _, _) => BuildStepKeeps(s, p, a);
    case DropL1(priv, k, resume) => DropL1StepKeeps(s, p, priv, k, resume);
    case DropL2(priv, resume) => DropL2StepKeeps(s, p, priv, resume);
    case Unplug(priv, k, resume) =>
      if UnplugTaken(s, p, priv, k, resume) { UnplugStepKeeps(s, p, priv, k, resume); }
      else { UnplugSkipStepKeeps(s, p, priv, k, resume); }
    case Store(priv, k, resume) => StoreStepKeeps(s, p, priv, k, resume);
    case Add(priv, k, resume) => AddStepKeeps(s, p, priv, k, resume);
    case Cas(priv, resume) => CasStepKeeps(s, p, priv, resume);
    case _ =>
  }

  /** The program points of `deallocate_frame`. */
  lemma FreeStepKeeps(s: State, p: nat, a: Action)
    requires Inv(s) && Enabled(s, p, a)
    requires PcPriv(s.cpus[p].pc).None? && (PcGroup(s.cpus[p].pc).Some? || s.cpus[p].pc.FreeMap?)
    ensures Inv(Apply(s, p, a))
  {
    TypedHere(s, p);
    match s.cpus[p].pc
    case FreeMap(f) => FreeMapStepKeeps(s, p, f);
    case FreeClear(f, g, c) => FreeClearStepKeeps(s, p, f, g, c);
    case FreeL1(g, c) => FreeL1StepKeeps(s, p, g, c);
    case FreeL2(g, c, full) => FreeL2StepKeeps(s, p, g, c, full);
    case FreeClaim(g) => if a.GiveUp? { GiveUpStepKeeps(s, p, g); } else { ClaimStepKeeps(s, p, g, false); }
    case _ =>
  }

  lemma StepKeeps(s: State, p: nat, a: Action)
    requires Inv(s) && Enabled(s, p, a)
    ensures Inv(Apply(s, p, a))
  {
    if PcPriv(s.cpus[p].pc).Some? { PrivateStepKeeps(s, p, a); }
    else if PcGroup(s.cpus[p].pc).Some? || s.cpus[p].pc.FreeMap? { FreeStepKeeps(s, p, a); }
    else { AllocStepKeeps(s, p, a); }
  }

  lemma {:induction false} RunKeeps(s: State, labels: seq<Label>, t: State)
    requires Inv(s) && Run(s, labels, t)
    ensures Inv(t)
    decreases |labels|
  {
    if labels != [] {
      StepKeeps(s, labels[0].cpu, labels[0].action);
      RunKeeps(Apply(s, labels[0].cpu, labels[0].action), labels[1..], t);
    }
  }

  /** Some run from the initial state leads here. */
  ghost predicate Reachable(t: State) {
    exists s, labels :: Initial(s) && Run(s, labels, t)
  }

  lemma ReachableInv(t: State)
    requires Reachable(t)
    ensures Inv(t)
  {
    var s, labels :| Initial(s) && Run(s, labels, t);
    InitialInv(s);
    RunKeeps(s, labels, t);
  }

  // ----- the theorems -----

  lemma OutOnlyAtTwoPoints(s: State, p: nat, a: Action)
    requires Typed(s) && Enabled(s, p, a) && !s.cpus[p].pc.Take? && !s.cpus[p].pc.FreeClear?
    ensures Apply(s, p, a).out == s.out
  {
  }

  lemma FreeClearTakesBack(t: State, p: nat, a: Action, x: Frame, g: nat, c: nat)
    requires Inv(t) && Enabled(t, p, a) && Here(t, p) && t.cpus[p].pc == FreeClear(x, g, c)
    ensures x in t.out && Apply(t, p, a).out == t.out - {x}
  {
    FreeClearBit(t, p, x, g, c);
  }

  /** Whatever a CPU does next, the set of handed-out frames stays the same, or
      gains one frame that was not in it, or loses one. So a frame handed out and
      not yet returned is never handed out again. */
  lemma NeverHandedOutTwice(t: State, p: nat, a: Action)
    requires Reachable(t) && Typed(t) && Enabled(t, p, a)
    ensures var u := Apply(t, p, a);
            match t.cpus[p].pc
            case Take(c, f) => exists x: Frame :: x !in t.out && u.out == t.out + {x}
            case FreeClear(x, _, _) => x in t.out && u.out == t.out - {x}
            case _ => u.out == t.out
  {
    ReachableInv(t);
    TypedHere(t, p);
    match t.cpus[p].pc
    case Take(c, f) => TakeHandsOut(t, p, a, c, f);
    case FreeClear(x, g, c) => FreeClearTakesBack(t, p, a, x, g, c);
    case _ => OutOnlyAtTwoPoints(t, p, a);
  }

  lemma TakeHandsOut(t: State, p: nat, a: Action, c: nat, f: nat)
    requires Inv(t) && Enabled(t, p, a) && Here(t, p) && t.cpus[p].pc == Take(c, f)
    ensures exists x: Frame :: x !in t.out && Apply(t, p, a).out == t.out + {x}
  {
    var x := (t.cpus[p].guard.value.addr[c], f);
    TakeStepKeeps(t, p, c, f);
    assert x !in t.out && Apply(t, p, a).out == t.out + {x};
  }

  /** Level 1: the private count, the shared count and the deallocations between
      clearing their bit and adding to the counter add up to the clear bits of a
      plugged chunk; an unplugged chunk has no bit set and counts nothing. */
  lemma ChunkLedgerHolds(t: State, g: nat, c: nat)
    requires Reachable(t) && Typed(t) && g < SUPER_GROUP_SIZE && c < 8
    requires GroupShape(t.groups[g])
    ensures var private := if g in t.owner && PrivAt(t, t.owner[g]).Some? && c < |PrivAt(t, t.owner[g]).value.l1|
                           then PrivAt(t, t.owner[g]).value.l1[c] else 0;
            private + t.groups[g].l1[c] + |At1(t.cpus, g, c)|
            == if (g, c) in t.plug then CHUNK_SIZE - |t.groups[g].used[c]| else 0
    ensures (g, c) !in t.plug ==> t.groups[g].used[c] == {}
    ensures t.groups[g].l1[c] + |At1(t.cpus, g, c)| <= CHUNK_SIZE
  {
    ReachableInv(t);
    var v := ViewOf(t, g);
    assert LocalInv(v);
    assert ChunkInv(v, c);
    PrivFreeBound(t, g);
    CountBounds(v);
    assert g in t.owner ==> OwnerOk(t, g);
  }

  lemma PrivFreeBound(t: State, g: nat)
    requires Inv(t) && g < SUPER_GROUP_SIZE
    ensures PrivFree(ViewOf(t, g)) >= -CHUNK_SIZE
  {
    if g in t.owner {
      assert OwnerOk(t, g);
      var p := t.owner[g].cpu;
      TypedHere(t, p);
      assert CpuInv(t, p);
    }
  }

  /** Level 2: the private count, the shared count and the deallocations that have
      cleared a bit but not reached the word add up to the clear bits of all plugged
      chunks of the group. */
  lemma GroupLedgerHolds(t: State, g: nat)
    requires Reachable(t) && Typed(t) && g < SUPER_GROUP_SIZE
    ensures ViewShape(ViewOf(t, g))
    ensures PrivFree(ViewOf(t, g)) + t.groups[g].word.free + |At2(t.cpus, g)| == TotalClear(ViewOf(t, g), 8)
    ensures Fits(t.groups[g].word) && t.groups[g].word.free + |At2(t.cpus, g)| < FREE_LIMIT
  {
    ReachableInv(t);
    assert LocalInv(ViewOf(t, g));
    PrivFreeBound(t, g);
    CountBounds(ViewOf(t, g));
  }

  /** `find_free` never falls off its last word. */
  lemma FindFreeNeverFails(t: State, p: nat)
    requires Reachable(t) && p in t.cpus
    ensures !t.cpus[p].pc.Unreachable?
  {
    ReachableInv(t);
    assert CpuInv(t, p);
  }

  /** What the source does to the 32-bit word of group `g` in the next action. */
  function PackedAfter(n: nat, cpu: Cpu, a: Action, g: nat): int {
    match cpu.pc
    case Claim => if a == ClaimGroup(g) then n - FreeBits(n) + 8192 else n
    case FreeClaim(_) => if a == ClaimGroup(g) then n - FreeBits(n) + 8192 else n
    case RefreshL2(_) => if cpu.guard.Some? && cpu.guard.value.group == g then n - FreeBits(n) else n
    case DropL2(priv, _) => if priv.group == g then n - FreeBits(n) else n
    case FreeL2(i, _, _) => if i == g then n + 1 else n
    case Cas(priv, _) => if priv.group == g then FreeBits(n) + priv.free + 16384 * EncodeMask(priv.mask) else n
    case _ => n
  }

  /** The word of group `g` after the next action, field by field. */
  function WordNext(w: L2Word, cpu: Cpu, a: Action, g: nat): L2Word {
    match cpu.pc
    case Claim => if a == ClaimGroup(g) then w.(free := 0, owned := true) else w
    case FreeClaim(_) => if a == ClaimGroup(g) then w.(free := 0, owned := true) else w
    case RefreshL2(_) => if cpu.guard.Some? && cpu.guard.value.group == g then w.(free := 0) else w
    case DropL2(priv, _) => if priv.group == g then w.(free := 0) else w
    case FreeL2(i, _, _) => if i == g then w.(free := w.free + 1) else w
    case Cas(priv, _) => if priv.group == g && priv.free >= 0 then L2Word(w.free + priv.free, false, priv.mask) else w
    case _ => w
  }

  lemma RestWordAfter(s: State, p: nat, a: Action, g: nat)
    requires Typed(s) && Enabled(s, p, a) && g < SUPER_GROUP_SIZE
    ensures ApplyRest(s, p, a).groups[g].word == s.groups[g].word ||
            ApplyRest(s, p, a).groups[g].word == WordNext(s.groups[g].word, s.cpus[p], a, g)
    ensures s.cpus[p].pc.FreeClaim? || s.cpus[p].pc.DropL2? || s.cpus[p].pc.FreeL2? || s.cpus[p].pc.Cas? ==>
              ApplyRest(s, p, a).groups[g].word == WordNext(s.groups[g].word, s.cpus[p], a, g)
  {
    TypedHere(s, p);
  }

  lemma WordAfter(s: State, p: nat, a: Action, g: nat)
    requires Typed(s) && Enabled(s, p, a) && g < SUPER_GROUP_SIZE
    ensures Apply(s, p, a).groups[g].word == WordNext(s.groups[g].word, s.cpus[p], a, g)
  {
    TypedHere(s, p);
    RestWordAfter(s, p, a, g);
  }

  /** The packed form follows as long as the one addition does not carry. */
  lemma PackNext(w: L2Word, cpu: Cpu, a: Action, g: nat)
    requires Fits(w) && CpuShape(cpu)
    requires a == ClaimGroup(g) && (cpu.pc.Claim? || cpu.pc.FreeClaim?) ==> !w.owned
    requires PendsL2(cpu.pc, g) ==> Pack(w.(free := w.free + 1)) == Pack(w) + 1
    ensures Pack(WordNext(w, cpu, a, g)) == PackedAfter(Pack(w), cpu, a, g)
  {
    PackRoundTrip(w);
    ClearFreeField(w);
  }

  lemma AddStaysInField(t: State, p: nat, g: nat)
    requires Reachable(t) && Typed(t) && g < SUPER_GROUP_SIZE && p in t.cpus && PendsL2(t.cpus[p].pc, g)
    ensures Fits(t.groups[g].word) && Pack(t.groups[g].word.(free := t.groups[g].word.free + 1)) == Pack(t.groups[g].word) + 1
  {
    GroupLedgerHolds(t, g);
    assert p in At2(t.cpus, g);
    assert |At2(t.cpus, g)| > 0;
    FetchAddCarry(t.groups[g].word);
  }

  /** The arithmetic on the packed word does to its three fields exactly what the
      state machine does, in every reachable state: in particular the unmasked
      `fetch_add` never carries into the owner bit. */
  lemma PackedWordRefines(t: State, p: nat, a: Action, g: nat)
    requires Reachable(t) && Typed(t) && Enabled(t, p, a) && g < SUPER_GROUP_SIZE
    ensures Pack(Apply(t, p, a).groups[g].word) == PackedAfter(Pack(t.groups[g].word), t.cpus[p], a, g)
  {
    assert CpuShape(t.cpus[p]);
    GroupLedgerHolds(t, g);
    WordAfter(t, p, a, g);
    if PendsL2(t.cpus[p].pc, g) { AddStaysInField(t, p, g); }
    PackNext(t.groups[g].word, t.cpus[p], a, g);
  }

  /** For every frame in use the reverse map gives the one chunk that the frame's slot
      backs, within the range in which a packed location is read back exactly, and the
      frame's own bit in it is set. */
  lemma ReverseMapExact(t: State, x: Frame)
    requires Reachable(t) && Typed(t) && x in t.out
    ensures var a := t.rmap[x.0];
            && a in t.plug && t.plug[a] == x.0 && a.0 < SUPER_GROUP_SIZE && a.1 < GROUP_SIZE
            && x.1 in Used(t, a)
    ensures forall b :: b in t.plug && t.plug[b] == x.0 ==> b == t.rmap[x.0]
  {
    ReachableInv(t);
    assert Backed(t, x);
    assert SlotOk(t, t.rmap[x.0]);
  }

  /** Freeing a frame clears the bit its allocation set, whoever frees it and
      whatever was plugged, unplugged or claimed in between. */
  lemma FreeClearsOwnBit(t: State, p: nat, x: Frame, g: nat, c: nat)
    requires Reachable(t) && Typed(t) && p in t.cpus && t.cpus[p].pc == FreeClear(x, g, c)
    ensures (g, c) in t.plug && t.plug[(g, c)] == x.0 && x.1 in Used(t, (g, c))
  {
    ReachableInv(t);
    TypedHere(t, p);
    FreeClearBit(t, p, x, g, c);
  }

  /** A group has at most one private copy, and one exactly when its owner bit is set. */
  lemma AtMostOneOwner(t: State, h: Holder, h': Holder)
    requires Reachable(t) && PrivAt(t, h).Some? && PrivAt(t, h').Some?
    requires PrivAt(t, h).value.group == PrivAt(t, h').value.group
    ensures h == h'
    ensures PrivAt(t, h).value.group < |t.groups| && t.groups[PrivAt(t, h).value.group].word.owned
  {
    ReachableInv(t);
    assert HoldsOk(t, h.cpu) && HoldsOk(t, h'.cpu);
    assert OwnerOk(t, PrivAt(t, h).value.group);
    assert LocalInv(ViewOf(t, PrivAt(t, h).value.group));
  }

  /** No slot backs two chunks, and none is also in the supervisor's pool. */
  lemma SlotsNotShared(t: State, a: (nat, nat), b: (nat, nat))
    requires Reachable(t) && Typed(t) && a in t.plug && b in t.plug
    ensures t.plug[a] == t.plug[b] ==> a == b
    ensures t.plug[a] !in t.pool
  {
    ReachableInv(t);
    assert SlotOk(t, a);
  }

  lemma UnplugOverdraws(t: State, p: nat, priv: Private, k: nat, resume: bool)
    requires Inv(t) && UnplugTaken(t, p, priv, k, resume)
    ensures t.groups[priv.group].word.free + |At2(t.cpus, priv.group)| > 0
  {
    assert HoldsOk(t, p);
    var v := ViewOf(t, priv.group);
    assert LocalInv(v);
    assert ChunkInv(v, k);
    ClearBounds(v);
    TotalBounds(v, 8, k);
  }

  lemma UnplugReturnsSlot(t: State, p: nat, priv: Private, k: nat, resume: bool)
    requires Inv(t) && UnplugTaken(t, p, priv, k, resume)
    ensures DoUnplug(t, p, priv, k, resume).pool != t.pool
  {
    UnplugSlot(t, p, priv, k, resume);
    assert SlotOk(t, (priv.group, k));
  }

  lemma UnplugStep(t: State, p: nat, priv: Private, k: nat, resume: bool)
    requires Inv(t) && Here(t, p) && t.cpus[p].pc == Unplug(priv, k, resume)
    ensures var u := DoUnplug(t, p, priv, k, resume);
            && (u.cpus[p].pc.Panicked? <==> priv.l1[k] == CHUNK_SIZE && priv.free < CHUNK_SIZE)
            && (u.pool != t.pool <==> u.cpus[p].pc.Panicked?)
            && (u.cpus[p].pc.Panicked? ==> t.groups[priv.group].word.free + |At2(t.cpus, priv.group)| > 0)
  {
    if UnplugTaken(t, p, priv, k, resume) {
      UnplugReturnsSlot(t, p, priv, k, resume);
      UnplugOverdraws(t, p, priv, k, resume);
    }
  }

  /** The hot-unplug loop gives slot `k` back exactly when its count is full and the
      group's free count is below one chunk, and then it always panics. Only frees
      that overlap the drop lead there: with nothing arrived at or on its way to the
      level-2 word, an unused chunk stays plugged. */
  lemma UnplugExactly(t: State, p: nat, priv: Private, k: nat, resume: bool)
    requires Reachable(t) && Typed(t) && p in t.cpus && t.cpus[p].pc == Unplug(priv, k, resume)
    requires |priv.l1| == 8 && k < 8 && priv.group < SUPER_GROUP_SIZE
    ensures var u := Apply(t, p, Go);
            && (u.cpus[p].pc.Panicked? <==> priv.l1[k] == CHUNK_SIZE && priv.free < CHUNK_SIZE)
            && (u.pool != t.pool <==> u.cpus[p].pc.Panicked?)
            && (u.cpus[p].pc.Panicked? ==> t.groups[priv.group].word.free + |At2(t.cpus, priv.group)| > 0)
  {
    ReachableInv(t);
    TypedHere(t, p);
    UnplugStep(t, p, priv, k, resume);
  }

  /** No other action returns a slot to the supervisor: hot-unplug never completes. */
  lemma SlotsReturnOnlyByPanic(t: State, p: nat, a: Action)
    requires Typed(t) && Enabled(t, p, a)
    ensures Apply(t, p, a).pool <= t.pool || Apply(t, p, a).cpus[p].pc.Panicked?
  {
  }
}
