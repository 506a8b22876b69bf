/** The invariant of the frame allocator and its preservation by every action. */
module FrameProof {
  import opened Basics
  import opened FrameWord
  import opened FrameAllocator
  import opened FrameView

  // ----- views of a state -----

  ghost function PrivAt(s: State, h: Holder): Option<Private> {
    if h.cpu !in s.cpus then None
    else if h.Guard? then s.cpus[h.cpu].guard
    else PcPriv(s.cpus[h.cpu].pc)
  }

  predicate PendsL2(pc: Pc, g: nat) {
    (pc.FreeL1? || pc.FreeL2?) && pc.g == g
  }

  /** CPUs that cleared a bit of chunk (g, c) and have not added to its counter. */
  ghost function At1(cpus: map<nat, Cpu>, g: nat, c: nat): set<nat> {
    set p | p in cpus && cpus[p].pc == FreeL1(g, c)
  }

  /** CPUs that cleared a bit of group g and have not added to its word. */
  ghost function At2(cpus: map<nat, Cpu>, g: nat): set<nat> {
    set p | p in cpus && PendsL2(cpus[p].pc, g)
  }

  /** Leading chunks whose entry in the shared slot table is current. */
  function SharedOf(pc: Pc): nat {
    match pc
    case BuildL1(_, _, _) => 8
    case BuildAddr(_, _, _) => 8
    case Store(_, k, _) => if k < 8 then k else 8
    case Add(_, k, _) => if k < 8 then k + 1 else 8
    case Cas(_, _) => 8
    case _ => 0
  }

  /** Leading chunks whose slot has been copied into the private copy. */
  function LoadedOf(pc: Pc): nat {
    match pc
    case BuildL1(_, _, _) => 0
    case BuildAddr(_, k, _) => if k < 8 then k else 8
    case _ => 8
  }

  ghost function SharedAt(s: State, g: nat): nat {
    if g !in s.owner then 8
    else if s.owner[g].Guard? || s.owner[g].cpu !in s.cpus then 0
    else SharedOf(s.cpus[s.owner[g].cpu].pc)
  }

  ghost function LoadedAt(s: State, g: nat): nat {
    if g !in s.owner || s.owner[g].Guard? || s.owner[g].cpu !in s.cpus then 8
    else LoadedOf(s.cpus[s.owner[g].cpu].pc)
  }

  ghost function SlotAt(s: State, g: nat, c: nat): Option<nat> {
    if (g, c) in s.plug then Some(s.plug[(g, c)]) else None
  }

  /** The private copy of a group, if it has an owner. */
  ghost function PrivAtG(s: State, g: nat): Option<Private> {
    if g in s.owner then PrivAt(s, s.owner[g]) else None
  }

  ghost function ViewOf(s: State, g: nat): View
    requires g < |s.groups|
  {
    View(s.groups[g], PrivAtG(s, g),
         seq(8, c requires 0 <= c < 8 => SlotAt(s, g, c)),
         seq(8, c requires 0 <= c < 8 => |At1(s.cpus, g, c)|),
         |At2(s.cpus, g)|, SharedAt(s, g), LoadedAt(s, g))
  }

  // ----- the invariant -----

  /** The recorded owner of `g` has a private copy of `g`. */
  ghost predicate OwnerOk(s: State, g: nat)
    requires g in s.owner
  {
    g < SUPER_GROUP_SIZE && PrivAt(s, s.owner[g]).Some? && PrivAt(s, s.owner[g]).value.group == g
  }

  /** The private copies of `p` are recorded as owners. */
  ghost predicate HoldsOk(s: State, p: nat)
    requires p in s.cpus
  {
    var cpu := s.cpus[p];
    && (cpu.guard.Some? ==> cpu.guard.value.group in s.owner && s.owner[cpu.guard.value.group] == Guard(p))
    && (PcPriv(cpu.pc).Some? ==>
          PcPriv(cpu.pc).value.group in s.owner && s.owner[PcPriv(cpu.pc).value.group] == Temp(p))
  }

  ghost predicate OwnerInv(s: State) {
    && (forall g {:trigger OwnerOk(s, g)} :: g in s.owner ==> OwnerOk(s, g))
    && (forall p {:trigger HoldsOk(s, p)} :: p in s.cpus ==> HoldsOk(s, p))
  }

  ghost predicate Ledgers(s: State)
    requires Typed(s)
  {
    forall g {:trigger ViewOf(s, g)} :: 0 <= g < SUPER_GROUP_SIZE ==> LocalInv(ViewOf(s, g))
  }

  /** The chunk has its slot but the reverse map has not been written yet. */
  ghost predicate MapPending(s: State, gc: (nat, nat)) {
    && gc.0 in s.owner && s.owner[gc.0].Guard? && s.owner[gc.0].cpu in s.cpus
    && s.cpus[s.owner[gc.0].cpu].pc == PlugMap(gc.1)
  }

  /** No slot backs two chunks. */
  ghost predicate Injective(plug: map<(nat, nat), nat>) {
    forall a, b :: a in plug && b in plug && plug[a] == plug[b] ==> a == b
  }

  ghost predicate SlotOk(s: State, a: (nat, nat))
    requires a in s.plug
  {
    a.0 < SUPER_GROUP_SIZE && a.1 < 8 && s.plug[a] < SLOTS && s.plug[a] !in s.pool
  }

  ghost predicate Mapped(s: State, a: (nat, nat))
    requires Typed(s) && a in s.plug && SlotOk(s, a)
  {
    s.rmap[s.plug[a]] == a || MapPending(s, a)
  }

  /** Slots back at most one chunk, are not also in the supervisor's pool, and are
      found again through the reverse map. */
  ghost predicate SlotInv(s: State)
    requires Typed(s)
  {
    && Injective(s.plug)
    && (forall a {:trigger SlotOk(s, a)} :: a in s.plug ==> SlotOk(s, a))
    && (forall a {:trigger Mapped(s, a)} :: a in s.plug ==> SlotOk(s, a) && Mapped(s, a))
  }

  /** The set bits of a chunk. */
  ghost function Used(s: State, a: (nat, nat)): set<nat> {
    if a.0 < |s.groups| && a.1 < |s.groups[a.0].used| then s.groups[a.0].used[a.1] else {}
  }

  /** A bit is set exactly for the frames that are handed out. */
  ghost predicate OutInv(s: State)
    requires Typed(s)
  {
    && (forall f {:trigger Backed(s, f)} :: f in s.out ==> Backed(s, f))
    && (forall a {:trigger Accounted(s, a)} :: a in s.plug ==> Accounted(s, a))
  }

  /** Every set bit of a backed chunk belongs to a handed-out frame. */
  ghost predicate Accounted(s: State, a: (nat, nat))
    requires a in s.plug
  {
    forall f :: f in Used(s, a) ==> (s.plug[a], f) in s.out
  }

  /** The reverse map leads from the frame to the chunk whose bit is its own. */
  ghost predicate Backed(s: State, f: Frame)
    requires Typed(s) && f in s.out
  {
    && s.rmap[f.0] in s.plug && s.plug[s.rmap[f.0]] == f.0
    && f.1 in Used(s, s.rmap[f.0])
  }

  ghost predicate HasClear(used: set<nat>, lo: nat) {
    exists f :: lo <= f < CHUNK_SIZE && f !in used
  }

  ghost predicate CpuInv(s: State, p: nat)
  {
    Here(s, p) &&
    var cpu := s.cpus[p];
    match cpu.pc
    case Scan(c, i) =>
      var priv := cpu.guard.value;
      priv.l1[c] > 0 && priv.free > 0 && HasClear(s.groups[priv.group].used[c], 64 * i)
    case Take(c, f) =>
      var priv := cpu.guard.value;
      priv.l1[c] > 0 && priv.free > 0 && f !in s.groups[priv.group].used[c]
    case PlugAsk(c) => !cpu.guard.value.mask[c]
    case PlugMap(c) =>
      var priv := cpu.guard.value;
      priv.mask[c] && s.groups[priv.group].used[c] == {}
    case Store(priv, k, _) => forall c :: 0 <= c < k ==> priv.l1[c] == 0
    case Add(priv, k, _) => forall c :: 0 <= c < k ==> priv.l1[c] == 0
    case Cas(priv, _) => forall c :: 0 <= c < 8 ==> priv.l1[c] == 0
    case Panicked(priv) => -CHUNK_SIZE <= priv.free < 0
    case FreeMap(f) => f in s.out
    case FreeClear(f, g, c) => f in s.out && (g, c) == s.rmap[f.0]
    case Unreachable => false
    case _ => true
  }

  ghost predicate Inv(s: State) {
    && Typed(s) && OwnerInv(s) && Ledgers(s) && SlotInv(s) && OutInv(s)
    && (forall p {:trigger CpuInv(s, p)} :: p in s.cpus ==> CpuInv(s, p))
    && OneFreer(s)
  }

  lemma InitialInv(s: State)
    requires Initial(s)
    ensures Inv(s)
  {
    forall g | 0 <= g < SUPER_GROUP_SIZE ensures LocalInv(ViewOf(s, g)) {
      var v := ViewOf(s, g);
      assert forall c :: At1(s.cpus, g, c) == {};
      assert At2(s.cpus, g) == {};
      forall c | 0 <= c < 8 ensures ChunkInv(v, c) {}
      TotalZero(v, 8);
    }
  }

  lemma {:induction false} TotalZero(v: View, n: nat)
    requires n <= |v.slots| && n <= |v.grp.used|
    requires forall c :: 0 <= c < n ==> ClearBits(v, c) == 0
    ensures TotalClear(v, n) == 0
  {
    if n > 0 { TotalZero(v, n - 1); }
  }

  // ----- framing -----

  /** What an action of CPU `p` leaves alone in group `g`. */
  ghost predicate Untouched(s: State, t: State, p: nat, g: nat)
    requires g < |s.groups| && g < |t.groups|
  {
    && p in s.cpus && p in t.cpus && t.cpus == s.cpus[p := t.cpus[p]]
    && t.groups[g] == s.groups[g]
    && (g in t.owner <==> g in s.owner) && (g in s.owner ==> t.owner[g] == s.owner[g])
    && (forall c :: 0 <= c < 8 ==> SlotAt(t, g, c) == SlotAt(s, g, c))
    && !PendsL2(s.cpus[p].pc, g) && !PendsL2(t.cpus[p].pc, g)
    && (g in s.owner && s.owner[g] == Guard(p) ==> t.cpus[p].guard == s.cpus[p].guard)
    && (g in s.owner && s.owner[g] == Temp(p) ==> t.cpus[p].pc == s.cpus[p].pc)
  }

  lemma AtSame(cpus: map<nat, Cpu>, p: nat, cpu: Cpu, g: nat)
    requires p in cpus && !PendsL2(cpus[p].pc, g) && !PendsL2(cpu.pc, g)
    ensures At2(cpus[p := cpu], g) == At2(cpus, g)
    ensures forall c :: At1(cpus[p := cpu], g, c) == At1(cpus, g, c)
  {
  }

  lemma SameView(s: State, t: State, p: nat, g: nat)
    requires g < |s.groups| && g < |t.groups| && Untouched(s, t, p, g)
    ensures ViewOf(t, g) == ViewOf(s, g)
  {
    AtSame(s.cpus, p, t.cpus[p], g);
    var v, w := ViewOf(s, g), ViewOf(t, g);
    assert w.slots == v.slots;
    assert w.at1 == v.at1;
  }

  /** Every group but `g` is left alone and `g` is in order. */
  lemma AssembleLedgers(s: State, t: State, p: nat, g: nat)
    requires Typed(s) && Typed(t) && Ledgers(s) && g < SUPER_GROUP_SIZE
    requires forall i {:trigger Untouched(s, t, p, i)} :: 0 <= i < SUPER_GROUP_SIZE && i != g ==> Untouched(s, t, p, i)
    requires LocalInv(ViewOf(t, g))
    ensures Ledgers(t)
  {
    forall i | 0 <= i < SUPER_GROUP_SIZE ensures LocalInv(ViewOf(t, i)) {
      if i != g {
        SameView(s, t, p, i);
        assert LocalInv(ViewOf(s, i));
      }
    }
  }

  lemma AllUntouched(s: State, t: State, p: nat)
    requires Typed(s) && Typed(t) && Ledgers(s)
    requires forall i {:trigger Untouched(s, t, p, i)} :: 0 <= i < SUPER_GROUP_SIZE ==> Untouched(s, t, p, i)
    ensures Ledgers(t)
  {
    assert Untouched(s, t, p, 0);
    SameView(s, t, p, 0);
    assert LocalInv(ViewOf(s, 0));
    AssembleLedgers(s, t, p, 0);
  }

  /** Slots, handed-out frames and bitmaps are as before. */
  ghost predicate Quiet(s: State, t: State, p: nat)
  {
    && p in s.cpus && p in t.cpus && t.cpus == s.cpus[p := t.cpus[p]]
    && |t.groups| == |s.groups|
    && (forall g :: 0 <= g < |s.groups| ==> t.groups[g].used == s.groups[g].used)
    && t.out == s.out && t.plug == s.plug && t.rmap == s.rmap && t.pool == s.pool
  }

  /** Guards of other CPUs keep their groups. */
  ghost predicate GuardsKept(s: State, t: State, p: nat) {
    forall g :: g in s.owner && s.owner[g].Guard? && s.owner[g].cpu != p ==> g in t.owner && t.owner[g] == s.owner[g]
  }

  lemma PendingKept(s: State, t: State, p: nat, a: (nat, nat))
    requires p in s.cpus && p in t.cpus && t.cpus == s.cpus[p := t.cpus[p]] && GuardsKept(s, t, p)
    requires !s.cpus[p].pc.PlugMap? && MapPending(s, a)
    ensures MapPending(t, a)
  {
  }

  lemma QuietSlots(s: State, t: State, p: nat)
    requires Typed(s) && Typed(t) && SlotInv(s)
    requires p in s.cpus && p in t.cpus && t.cpus == s.cpus[p := t.cpus[p]]
    requires t.plug == s.plug && t.rmap == s.rmap && t.pool == s.pool
    requires !s.cpus[p].pc.PlugMap? && GuardsKept(s, t, p)
    ensures SlotInv(t)
  {
    forall a | a in t.plug ensures SlotOk(t, a) {
      assert SlotOk(s, a);
    }
    forall a | a in t.plug ensures Mapped(t, a) {
      assert Mapped(s, a);
      if MapPending(s, a) { PendingKept(s, t, p, a); }
    }
  }

  lemma QuietOut(s: State, t: State, p: nat)
    requires Typed(s) && Typed(t) && Quiet(s, t, p) && OutInv(s)
    ensures OutInv(t)
  {
    forall f | f in t.out ensures Backed(t, f) { assert Backed(s, f); }
    forall a | a in t.plug ensures Accounted(t, a) { assert Accounted(s, a); }
  }

  lemma QuietCpu(s: State, t: State, p: nat, q: nat)
    requires Quiet(s, t, p) && q in s.cpus && q != p && CpuInv(s, q) && Here(t, q)
    ensures CpuInv(t, q)
  {
  }

  ghost predicate OneFreer(s: State) {
    forall p, q, f :: p in s.cpus && q in s.cpus && Freeing(s.cpus[p].pc, f) && Freeing(s.cpus[q].pc, f) ==> p == q
  }

  lemma QuietFreer(s: State, t: State, p: nat)
    requires p in s.cpus && p in t.cpus && t.cpus == s.cpus[p := t.cpus[p]] && OneFreer(s)
    requires forall f :: Freeing(t.cpus[p].pc, f) ==>
               Freeing(s.cpus[p].pc, f) || forall q | q in s.cpus :: !Freeing(s.cpus[q].pc, f)
    ensures OneFreer(t)
  {
  }

  // ----- pieces shared by the step lemmas -----

  /** CPU `p` moves; of the groups only `g` may change, and it stays well formed. */
  ghost predicate Moves(s: State, t: State, p: nat, g: nat) {
    && p in s.cpus && p in t.cpus && t.cpus == s.cpus[p := t.cpus[p]]
    && g < |s.groups| == |t.groups| && t.groups == s.groups[g := t.groups[g]]
  }

  lemma TypedStep(s: State, t: State, p: nat, g: nat)
    requires Typed(s) && Moves(s, t, p, g)
    requires CpuShape(t.cpus[p]) && GroupShape(t.groups[g])
    requires t.rmap == s.rmap && t.pool == s.pool && t.out == s.out
    ensures Typed(t)
  {
  }

  /** The owners are unchanged, and so are the groups that `p` holds. */
  lemma OwnerSame(s: State, t: State, p: nat, g: nat)
    requires OwnerInv(s) && Moves(s, t, p, g) && t.owner == s.owner
    requires t.cpus[p].guard.Some? == s.cpus[p].guard.Some?
    requires s.cpus[p].guard.Some? ==> t.cpus[p].guard.value.group == s.cpus[p].guard.value.group
    requires PcPriv(t.cpus[p].pc).Some? == PcPriv(s.cpus[p].pc).Some?
    requires PcPriv(s.cpus[p].pc).Some? ==> PcPriv(t.cpus[p].pc).value.group == PcPriv(s.cpus[p].pc).value.group
    ensures OwnerInv(t)
  {
    forall i | i in t.owner ensures OwnerOk(t, i) { assert OwnerOk(s, i); }
    forall q | q in t.cpus ensures HoldsOk(t, q) { assert HoldsOk(s, q); }
  }

  /** `p` touches no private copy or pending count outside group `g`. */
  ghost predicate ActsOn(s: State, t: State, p: nat, g: nat)
    requires p in s.cpus && p in t.cpus
  {
    && (forall i :: PendsL2(s.cpus[p].pc, i) || PendsL2(t.cpus[p].pc, i) ==> i == g)
    && (t.cpus[p].guard == s.cpus[p].guard || s.cpus[p].guard.None? || s.cpus[p].guard.value.group == g)
    && (t.cpus[p].pc == s.cpus[p].pc || PcPriv(s.cpus[p].pc).None? || PcPriv(s.cpus[p].pc).value.group == g)
  }

  /** Owners and slots of the other groups are as before. */
  ghost predicate OthersKept(s: State, t: State, g: nat) {
    && (forall i :: i != g ==> (i in t.owner <==> i in s.owner) && (i in s.owner ==> t.owner[i] == s.owner[i]))
    && (forall i, c :: i != g ==> SlotAt(t, i, c) == SlotAt(s, i, c))
  }

  lemma OthersUntouched(s: State, t: State, p: nat, g: nat)
    requires OwnerInv(s) && Moves(s, t, p, g) && |s.groups| == SUPER_GROUP_SIZE
    requires ActsOn(s, t, p, g) && OthersKept(s, t, g)
    ensures forall i {:trigger Untouched(s, t, p, i)} :: 0 <= i < SUPER_GROUP_SIZE && i != g ==> Untouched(s, t, p, i)
  {
    forall i | 0 <= i < SUPER_GROUP_SIZE && i != g ensures Untouched(s, t, p, i) {
      if i in s.owner { assert OwnerOk(s, i); }
    }
  }

  /** A step of `p` on the counters of group `g`: bitmaps, slots, the reverse map
      and the handed-out frames are as before. */
  ghost predicate CounterStep(s: State, t: State, p: nat, g: nat) {
    && Here(s, p) && g < SUPER_GROUP_SIZE && Moves(s, t, p, g) && ActsOn(s, t, p, g)
    && CpuShape(t.cpus[p]) && GroupShape(t.groups[g]) && t.groups[g].used == s.groups[g].used
    && t.out == s.out && t.plug == s.plug && t.rmap == s.rmap && t.pool == s.pool
    && !s.cpus[p].pc.PlugMap?
    && (forall f :: !Freeing(t.cpus[p].pc, f))
  }

  /** The same private copies are held. */
  ghost predicate SameHolds(s: State, t: State, p: nat)
    requires p in s.cpus && p in t.cpus
  {
    && t.owner == s.owner
    && t.cpus[p].guard.Some? == s.cpus[p].guard.Some?
    && (s.cpus[p].guard.Some? ==> t.cpus[p].guard.value.group == s.cpus[p].guard.value.group)
    && PcPriv(t.cpus[p].pc).Some? == PcPriv(s.cpus[p].pc).Some?
    && (PcPriv(s.cpus[p].pc).Some? ==> PcPriv(t.cpus[p].pc).value.group == PcPriv(s.cpus[p].pc).value.group)
  }

  /** A counter step keeps the invariant if the owners, the ledger of its group and
      the program point it reaches are in order. */
  lemma CounterFinish(s: State, t: State, p: nat, g: nat)
    requires Inv(s) && CounterStep(s, t, p, g) && OwnerInv(t) && GuardsKept(s, t, p) && OthersKept(s, t, g)
    requires LocalInv(ViewOf(t, g))
    requires CpuInv(t, p)
    ensures Inv(t)
  {
    assert Typed(t) by { TypedStep(s, t, p, g); }
    assert Ledgers(t) by {
      OthersUntouched(s, t, p, g);
      AssembleLedgers(s, t, p, g);
    }
    assert SlotInv(t) by { QuietSlots(s, t, p); }
    assert OutInv(t) by { QuietOut(s, t, p); }
    forall q | q in t.cpus ensures CpuInv(t, q) {
      if q != p {
        assert CpuInv(s, q);
        TypedHere(t, q);
        QuietCpu(s, t, p, q);
      }
    }
    assert OneFreer(t) by { QuietFreer(s, t, p); }
  }

  lemma SimpleFinish(s: State, t: State, p: nat, g: nat)
    requires Inv(s) && CounterStep(s, t, p, g) && SameHolds(s, t, p)
    requires LocalInv(ViewOf(t, g))
    requires CpuInv(t, p)
    ensures Inv(t)
  {
    assert OwnerInv(t) by { OwnerSame(s, t, p, g); }
    CounterFinish(s, t, p, g);
  }

  // ----- what a step does to the view of its group -----

  /** Nothing pending changes and the slots are as before. */
  lemma PlainView(s: State, t: State, p: nat, g: nat)
    requires Moves(s, t, p, g) && t.plug == s.plug
    requires !PendsL2(s.cpus[p].pc, g) && !PendsL2(t.cpus[p].pc, g)
    ensures ViewOf(t, g) == ViewOf(s, g).(grp := t.groups[g], priv := ViewOf(t, g).priv,
                                          shared := SharedAt(t, g), loaded := LoadedAt(t, g))
  {
    var v, w := ViewOf(s, g), ViewOf(t, g);
    AtSame(s.cpus, p, t.cpus[p], g);
    assert w.slots == v.slots;
    assert w.at1 == v.at1;
  }

  lemma GuardView(s: State, t: State, p: nat, g: nat)
    requires Moves(s, t, p, g) && t.plug == s.plug && t.owner == s.owner && HoldsOk(s, p)
    requires s.cpus[p].guard.Some? && s.cpus[p].guard.value.group == g
    requires !PendsL2(s.cpus[p].pc, g) && !PendsL2(t.cpus[p].pc, g)
    ensures ViewOf(s, g).priv == s.cpus[p].guard && ViewOf(s, g).shared == 0
    ensures ViewOf(t, g) == ViewOf(s, g).(grp := t.groups[g], priv := t.cpus[p].guard)
  {
    PlainView(s, t, p, g);
  }

  lemma TempView(s: State, t: State, p: nat, g: nat)
    requires Moves(s, t, p, g) && t.plug == s.plug && t.owner == s.owner && HoldsOk(s, p)
    requires PcPriv(s.cpus[p].pc).Some? && PcPriv(s.cpus[p].pc).value.group == g && PcPriv(t.cpus[p].pc).Some?
    ensures ViewOf(s, g).priv == PcPriv(s.cpus[p].pc)
    ensures ViewOf(s, g).shared == SharedOf(s.cpus[p].pc) && ViewOf(s, g).loaded == LoadedOf(s.cpus[p].pc)
    ensures ViewOf(t, g) == ViewOf(s, g).(grp := t.groups[g], priv := PcPriv(t.cpus[p].pc),
                                          shared := SharedOf(t.cpus[p].pc), loaded := LoadedOf(t.cpus[p].pc))
  {
    PlainView(s, t, p, g);
  }

  // ----- freeing: the shared counters -----

  lemma FreeL1At(cpus: map<nat, Cpu>, p: nat, cpu: Cpu, g: nat, c: nat)
    requires p in cpus && cpus[p].pc == FreeL1(g, c) && cpu.pc.FreeL2? && cpu.pc.g == g
    ensures At2(cpus[p := cpu], g) == At2(cpus, g)
    ensures p in At1(cpus, g, c) && At1(cpus[p := cpu], g, c) == At1(cpus, g, c) - {p}
    ensures forall i :: i != c ==> At1(cpus[p := cpu], g, i) == At1(cpus, g, i)
  {
  }

  lemma FreeL1View(s: State, t: State, p: nat, g: nat, c: nat)
    requires Here(s, p) && s.cpus[p].pc == FreeL1(g, c) && t == DoFreeL1(s, p, g, c)
    requires ViewShape(ViewOf(s, g))
    ensures ViewOf(s, g).at1[c] > 0 && ViewOf(t, g) == VFreeL1(ViewOf(s, g), c)
  {
    FreeL1Counts(s, t, p, g, c);
    assert PrivAtG(t, g) == PrivAtG(s, g) && SharedAt(t, g) == SharedAt(s, g) && LoadedAt(t, g) == LoadedAt(s, g);
  }

  lemma FreeL1Counts(s: State, t: State, p: nat, g: nat, c: nat)
    requires p in s.cpus && s.cpus[p].pc == FreeL1(g, c) && p in t.cpus && t.cpus[p].pc.FreeL2? && t.cpus[p].pc.g == g
    requires t.cpus == s.cpus[p := t.cpus[p]] && t.plug == s.plug && g < |s.groups| == |t.groups| && c < 8
    ensures ViewOf(t, g).slots == ViewOf(s, g).slots && ViewOf(s, g).at1[c] > 0
    ensures ViewOf(t, g).at1 == ViewOf(s, g).at1[c := ViewOf(s, g).at1[c] - 1]
    ensures ViewOf(t, g).at2 == ViewOf(s, g).at2
  {
    FreeL1At(s.cpus, p, t.cpus[p], g, c);
    var v, w := ViewOf(s, g).at1, ViewOf(t, g).at1;
    forall i | 0 <= i < 8 ensures w[i] == v[c := v[c] - 1][i] {
      assert w[i] == |At1(t.cpus, g, i)| && v[i] == |At1(s.cpus, g, i)|;
    }
  }

  lemma FreeL1Frame(s: State, p: nat, g: nat, c: nat)
    requires Here(s, p) && s.cpus[p].pc == FreeL1(g, c)
    ensures CounterStep(s, DoFreeL1(s, p, g, c), p, g) && SameHolds(s, DoFreeL1(s, p, g, c), p)
  {
  }

  lemma FreeL1StepKeeps(s: State, p: nat, g: nat, c: nat)
    requires Inv(s) && Here(s, p) && s.cpus[p].pc == FreeL1(g, c)
    ensures Inv(DoFreeL1(s, p, g, c))
  {
    var t := DoFreeL1(s, p, g, c);
    FreeL1Frame(s, p, g, c);
    assert LocalInv(ViewOf(t, g)) by {
      assert LocalInv(ViewOf(s, g));
      FreeL1View(s, t, p, g, c);
      FreeL1Keeps(ViewOf(s, g), c);
    }
    SimpleFinish(s, t, p, g);
  }

  lemma FreeL2At(cpus: map<nat, Cpu>, p: nat, cpu: Cpu, g: nat)
    requires p in cpus && cpus[p].pc.FreeL2? && cpus[p].pc.g == g && !PendsL2(cpu.pc, g)
    ensures p in At2(cpus, g) && At2(cpus[p := cpu], g) == At2(cpus, g) - {p}
    ensures forall i :: At1(cpus[p := cpu], g, i) == At1(cpus, g, i)
  {
  }

  lemma FreeL2View(s: State, t: State, p: nat, g: nat, c: nat, full: bool)
    requires Here(s, p) && s.cpus[p].pc == FreeL2(g, c, full) && t == DoFreeL2(s, p, g, c, full)
    ensures ViewOf(s, g).at2 > 0 && ViewOf(t, g) == VFreeL2(ViewOf(s, g))
  {
    var v, w := ViewOf(s, g), ViewOf(t, g);
    FreeL2At(s.cpus, p, t.cpus[p], g);
    assert w.slots == v.slots;
    assert w.at1 == v.at1;
  }

  lemma FreeL2Frame(s: State, p: nat, g: nat, c: nat, full: bool)
    requires Here(s, p) && s.cpus[p].pc == FreeL2(g, c, full)
    ensures CounterStep(s, DoFreeL2(s, p, g, c, full), p, g) && SameHolds(s, DoFreeL2(s, p, g, c, full), p)
  {
  }

  lemma FreeL2StepKeeps(s: State, p: nat, g: nat, c: nat, full: bool)
    requires Inv(s) && Here(s, p) && s.cpus[p].pc == FreeL2(g, c, full)
    ensures Inv(DoFreeL2(s, p, g, c, full))
  {
    var t := DoFreeL2(s, p, g, c, full);
    FreeL2Frame(s, p, g, c, full);
    assert LocalInv(ViewOf(t, g)) by {
      assert LocalInv(ViewOf(s, g));
      FreeL2View(s, t, p, g, c, full);
      FreeL2Keeps(ViewOf(s, g));
    }
    SimpleFinish(s, t, p, g);
  }

  // ----- refreshing the kept copy -----

  lemma RefreshL1Frame(s: State, p: nat, k: nat, any: bool)
    requires Here(s, p) && s.cpus[p].pc == RefreshL1(k, any)
    ensures CounterStep(s, DoRefreshL1(s, p, k, any), p, s.cpus[p].guard.value.group) && SameHolds(s, DoRefreshL1(s, p, k, any), p)
  {
  }

  lemma RefreshL1StepKeeps(s: State, p: nat, k: nat, any: bool)
    requires Inv(s) && Here(s, p) && s.cpus[p].pc == RefreshL1(k, any)
    ensures Inv(DoRefreshL1(s, p, k, any))
  {
    var t := DoRefreshL1(s, p, k, any);
    RefreshL1Frame(s, p, k, any);
    var g := s.cpus[p].guard.value.group;
    assert LocalInv(ViewOf(t, g)) by {
      assert HoldsOk(s, p);
      assert LocalInv(ViewOf(s, g));
      GuardView(s, t, p, g);
      SwapKeeps(ViewOf(s, g), k);
    }
    SimpleFinish(s, t, p, g);
  }

  // ----- building and dropping a copy -----

  lemma BuildL1Frame(s: State, p: nat, priv: Private, k: nat, keep: bool)
    requires Here(s, p) && s.cpus[p].pc == BuildL1(priv, k, keep)
    ensures CounterStep(s, DoBuildL1(s, p, priv, k, keep), p, priv.group) && SameHolds(s, DoBuildL1(s, p, priv, k, keep), p)
  {
  }

  lemma BuildL1StepKeeps(s: State, p: nat, priv: Private, k: nat, keep: bool)
    requires Inv(s) && Here(s, p) && s.cpus[p].pc == BuildL1(priv, k, keep)
    ensures Inv(DoBuildL1(s, p, priv, k, keep))
  {
    var t := DoBuildL1(s, p, priv, k, keep);
    BuildL1Frame(s, p, priv, k, keep);
    var g := priv.group;
    assert LocalInv(ViewOf(t, g)) by {
      assert HoldsOk(s, p);
      assert LocalInv(ViewOf(s, g));
      TempView(s, t, p, g);
      SwapKeeps(ViewOf(s, g), k);
    }
    SimpleFinish(s, t, p, g);
  }

  lemma DropL1Frame(s: State, p: nat, priv: Private, k: nat, resume: bool)
    requires Here(s, p) && s.cpus[p].pc == DropL1(priv, k, resume)
    ensures CounterStep(s, DoDropL1(s, p, priv, k, resume), p, priv.group) && SameHolds(s, DoDropL1(s, p, priv, k, resume), p)
  {
  }

  lemma DropL1StepKeeps(s: State, p: nat, priv: Private, k: nat, resume: bool)
    requires Inv(s) && Here(s, p) && s.cpus[p].pc == DropL1(priv, k, resume)
    ensures Inv(DoDropL1(s, p, priv, k, resume))
  {
    var t := DoDropL1(s, p, priv, k, resume);
    DropL1Frame(s, p, priv, k, resume);
    var g := priv.group;
    assert LocalInv(ViewOf(t, g)) by {
      assert HoldsOk(s, p);
      assert LocalInv(ViewOf(s, g));
      TempView(s, t, p, g);
      SwapKeeps(ViewOf(s, g), k);
    }
    SimpleFinish(s, t, p, g);
  }

  lemma DropL2Frame(s: State, p: nat, priv: Private, resume: bool)
    requires Here(s, p) && s.cpus[p].pc == DropL2(priv, resume)
    ensures CounterStep(s, DoDropL2(s, p, priv, resume), p, priv.group) && SameHolds(s, DoDropL2(s, p, priv, resume), p)
  {
  }

  lemma DropL2View(s: State, p: nat, priv: Private, resume: bool)
    requires Here(s, p) && s.cpus[p].pc == DropL2(priv, resume) && HoldsOk(s, p)
    ensures ViewOf(s, priv.group).priv == Some(priv)
    ensures ViewOf(DoDropL2(s, p, priv, resume), priv.group) == VTakeFree(ViewOf(s, priv.group))
  {
    TempView(s, DoDropL2(s, p, priv, resume), p, priv.group);
  }

  lemma DropL2StepKeeps(s: State, p: nat, priv: Private, resume: bool)
    requires Inv(s) && Here(s, p) && s.cpus[p].pc == DropL2(priv, resume)
    ensures Inv(DoDropL2(s, p, priv, resume))
  {
    var t := DoDropL2(s, p, priv, resume);
    DropL2Frame(s, p, priv, resume);
    var g := priv.group;
    assert LocalInv(ViewOf(t, g)) by {
      assert HoldsOk(s, p);
      assert LocalInv(ViewOf(s, g));
      DropL2View(s, p, priv, resume);
      TakeFreeKeeps(ViewOf(s, g));
    }
    SimpleFinish(s, t, p, g);
  }

  lemma StoreFrame(s: State, p: nat, priv: Private, k: nat, resume: bool)
    requires Here(s, p) && s.cpus[p].pc == Store(priv, k, resume)
    ensures CounterStep(s, DoStore(s, p, priv, k, resume), p, priv.group) && SameHolds(s, DoStore(s, p, priv, k, resume), p)
  {
  }

  lemma StoreStepKeeps(s: State, p: nat, priv: Private, k: nat, resume: bool)
    requires Inv(s) && Here(s, p) && s.cpus[p].pc == Store(priv, k, resume)
    ensures Inv(DoStore(s, p, priv, k, resume))
  {
    var t := DoStore(s, p, priv, k, resume);
    StoreFrame(s, p, priv, k, resume);
    var g := priv.group;
    assert CpuInv(s, p);
    assert LocalInv(ViewOf(t, g)) by {
      assert HoldsOk(s, p);
      assert LocalInv(ViewOf(s, g));
      TempView(s, t, p, g);
      StoreKeeps(ViewOf(s, g), k);
    }
    SimpleFinish(s, t, p, g);
  }

  lemma AddFrame(s: State, p: nat, priv: Private, k: nat, resume: bool)
    requires Here(s, p) && s.cpus[p].pc == Add(priv, k, resume)
    ensures CounterStep(s, DoAdd(s, p, priv, k, resume), p, priv.group) && SameHolds(s, DoAdd(s, p, priv, k, resume), p)
  {
  }

  lemma AddView(s: State, p: nat, priv: Private, k: nat, resume: bool)
    requires Here(s, p) && s.cpus[p].pc == Add(priv, k, resume) && HoldsOk(s, p) && ViewShape(ViewOf(s, priv.group))
    ensures ViewOf(s, priv.group).priv == Some(priv)
    ensures ViewOf(DoAdd(s, p, priv, k, resume), priv.group) == VAdd(ViewOf(s, priv.group), k)
  {
    TempView(s, DoAdd(s, p, priv, k, resume), p, priv.group);
  }

  lemma AddStepKeeps(s: State, p: nat, priv: Private, k: nat, resume: bool)
    requires Inv(s) && Here(s, p) && s.cpus[p].pc == Add(priv, k, resume)
    ensures Inv(DoAdd(s, p, priv, k, resume))
  {
    var t := DoAdd(s, p, priv, k, resume);
    AddFrame(s, p, priv, k, resume);
    var g := priv.group;
    assert CpuInv(s, p);
    assert LocalInv(ViewOf(t, g)) by {
      assert HoldsOk(s, p);
      assert LocalInv(ViewOf(s, g));
      AddView(s, p, priv, k, resume);
      AddKeeps(ViewOf(s, g), k);
    }
    SimpleFinish(s, t, p, g);
  }

  lemma LoadedShape(priv: Private, k: nat, slot: nat)
    requires Shape(priv) && k < 8 && slot < SLOTS
    ensures Shape(priv.(addr := priv.addr[k := slot]))
  {
  }

  lemma BuildAddrShape(s: State, p: nat, priv: Private, k: nat, keep: bool)
    requires Here(s, p) && s.cpus[p].pc == BuildAddr(priv, k, keep)
    ensures CpuShape(DoBuildAddr(s, p, priv, k, keep).cpus[p])
  {
    LoadedShape(priv, k, s.groups[priv.group].addr[k]);
  }

  lemma BuildAddrFrame(s: State, p: nat, priv: Private, k: nat, keep: bool)
    requires Here(s, p) && s.cpus[p].pc == BuildAddr(priv, k, keep)
    ensures CounterStep(s, DoBuildAddr(s, p, priv, k, keep), p, priv.group)
  {
    BuildAddrShape(s, p, priv, k, keep);
  }

  lemma BuildAddrHolds(s: State, p: nat, priv: Private, k: nat, keep: bool)
    requires Here(s, p) && s.cpus[p].pc == BuildAddr(priv, k, keep) && !(keep && k + 1 == 8)
    ensures SameHolds(s, DoBuildAddr(s, p, priv, k, keep), p)
  {
  }

  lemma BuildAddrStepKeeps(s: State, p: nat, priv: Private, k: nat, keep: bool)
    requires Inv(s) && Here(s, p) && s.cpus[p].pc == BuildAddr(priv, k, keep) && !(keep && k + 1 == 8)
    ensures Inv(DoBuildAddr(s, p, priv, k, keep))
  {
    var t := DoBuildAddr(s, p, priv, k, keep);
    var g := priv.group;
    BuildAddrFrame(s, p, priv, k, keep);
    BuildAddrHolds(s, p, priv, k, keep);
    assert LocalInv(ViewOf(t, g)) by {
      assert HoldsOk(s, p);
      assert LocalInv(ViewOf(s, g));
      TempView(s, t, p, g);
      LoadAddrKeeps(ViewOf(s, g), k);
      if k + 1 == 8 { ForgetShared(VLoadAddr(ViewOf(s, g), k)); }
    }
    SimpleFinish(s, t, p, g);
  }

  lemma UnplugSkipFrame(s: State, p: nat, priv: Private, k: nat, resume: bool)
    requires Here(s, p) && s.cpus[p].pc == Unplug(priv, k, resume)
    requires !(priv.free < CHUNK_SIZE && priv.l1[k] == CHUNK_SIZE)
    ensures CounterStep(s, DoUnplug(s, p, priv, k, resume), p, priv.group) && SameHolds(s, DoUnplug(s, p, priv, k, resume), p)
  {
  }

  /** A round of the unplug loop that finds nothing to unplug. */
  lemma UnplugSkipStepKeeps(s: State, p: nat, priv: Private, k: nat, resume: bool)
    requires Inv(s) && Here(s, p) && s.cpus[p].pc == Unplug(priv, k, resume)
    requires !(priv.free < CHUNK_SIZE && priv.l1[k] == CHUNK_SIZE)
    ensures Inv(DoUnplug(s, p, priv, k, resume))
  {
    var t := DoUnplug(s, p, priv, k, resume);
    var g := priv.group;
    UnplugSkipFrame(s, p, priv, k, resume);
    assert LocalInv(ViewOf(t, g)) by {
      assert HoldsOk(s, p);
      assert LocalInv(ViewOf(s, g));
      TempView(s, t, p, g);
    }
    SimpleFinish(s, t, p, g);
  }

  // ----- moves of a CPU that touch no shared data -----

  lemma PcStepKeeps(s: State, p: nat, pc: Pc)
    requires Inv(s) && Here(s, p) && CpuShape(s.cpus[p].(pc := pc))
    requires PcPriv(s.cpus[p].pc).None? && PcPriv(pc).None? && !s.cpus[p].pc.PlugMap?
    requires forall g :: !PendsL2(s.cpus[p].pc, g) && !PendsL2(pc, g)
    requires forall f :: Freeing(pc, f) ==>
               Freeing(s.cpus[p].pc, f) || forall q | q in s.cpus :: !Freeing(s.cpus[q].pc, f)
    requires CpuInv(SetPc(s, p, pc), p)
    ensures Inv(SetPc(s, p, pc))
  {
    var t := SetPc(s, p, pc);
    assert Moves(s, t, p, 0);
    assert GroupShape(s.groups[0]);
    assert Typed(t) by { TypedStep(s, t, p, 0); }
    assert OwnerInv(t) by { OwnerSame(s, t, p, 0); }
    assert Ledgers(t) by {
      forall i | 0 <= i < SUPER_GROUP_SIZE ensures Untouched(s, t, p, i) {
        if i in s.owner { assert OwnerOk(s, i); }
      }
      AllUntouched(s, t, p);
    }
    assert SlotInv(t) by { QuietSlots(s, t, p); }
    assert OutInv(t) by { QuietOut(s, t, p); }
    forall q | q in t.cpus ensures CpuInv(t, q) {
      if q != p {
        assert CpuInv(s, q);
        TypedHere(t, q);
        QuietCpu(s, t, p, q);
      }
    }
    assert OneFreer(t) by { QuietFreer(s, t, p); }
  }

  lemma StartKeeps(s: State, p: nat, a: Action)
    requires Inv(s) && Here(s, p) && Enabled(s, p, a) && s.cpus[p].pc.Idle? && (a.StartAlloc? || a.StartFree?)
    ensures a.StartAlloc? ==> Inv(SetPc(s, p, if s.cpus[p].guard.None? then Claim else Choose))
    ensures a.StartFree? ==> Inv(SetPc(s, p, FreeMap(a.f)))
  {
    if a.StartAlloc? {
      PcStepKeeps(s, p, if s.cpus[p].guard.None? then Claim else Choose);
    } else {
      PcStepKeeps(s, p, FreeMap(a.f));
    }
  }

  lemma {:induction false} AllIn(used: set<nat>, n: nat)
    requires forall i :: 0 <= i < n ==> i in used
    ensures |used| >= n
    decreases n
  {
    if n > 0 {
      AllIn(used - {n - 1}, n - 1);
    }
  }

  /** A chunk that is not full has a clear bit. */
  lemma SomeClear(used: set<nat>)
    requires |used| < CHUNK_SIZE
    ensures HasClear(used, 0)
  {
    var r := LowestClear(used, 0, CHUNK_SIZE);
    if r.None? { AllIn(used, CHUNK_SIZE); }
  }

  lemma CountedHasClear(s: State, p: nat, c: nat)
    requires Inv(s) && Here(s, p) && s.cpus[p].pc.Choose?
    requires FirstCounted(s.cpus[p].guard.value.l1, 0) == Some(c)
    ensures HasClear(s.groups[s.cpus[p].guard.value.group].used[c], 0)
  {
    var priv := s.cpus[p].guard.value;
    assert HoldsOk(s, p);
    var v := ViewOf(s, priv.group);
    assert LocalInv(v);
    assert ChunkInv(v, c);
    SomeClear(s.groups[priv.group].used[c]);
  }

  lemma ChooseStepKeeps(s: State, p: nat)
    requires Inv(s) && Here(s, p) && s.cpus[p].pc.Choose?
    ensures Inv(DoChoose(s, p))
  {
    var priv := s.cpus[p].guard.value;
    var c := FirstCounted(priv.l1, 0);
    if priv.free > 0 && c.Some? {
      CountedHasClear(s, p, c.value);
      PcStepKeeps(s, p, Scan(c.value, 0));
    } else {
      PcStepKeeps(s, p, RefreshL1(0, false));
    }
  }

  /** The scan cannot run past a clear bit: the words behind it were full when they
      were loaded, and only this CPU sets bits of the chunk. */
  lemma ScanStepKeeps(s: State, p: nat, c: nat, i: nat)
    requires Inv(s) && Here(s, p) && s.cpus[p].pc == Scan(c, i)
    ensures Inv(DoScan(s, p, c, i))
    ensures !DoScan(s, p, c, i).cpus[p].pc.Unreachable?
  {
    assert CpuInv(s, p);
    var used := s.groups[s.cpus[p].guard.value.group].used[c];
    var bit := LowestClear(used, 64 * i, 64 * i + 64);
    if bit.Some? {
      PcStepKeeps(s, p, Take(c, bit.value));
    } else {
      assert HasClear(used, 64 * i);
      var f :| 64 * i <= f < CHUNK_SIZE && f !in used;
      assert 64 * (i + 1) <= f;
      assert HasClear(used, 64 * (i + 1));
      PcStepKeeps(s, p, Scan(c, i + 1));
    }
  }

  lemma FreeMapStepKeeps(s: State, p: nat, f: Frame)
    requires Inv(s) && Here(s, p) && s.cpus[p].pc == FreeMap(f)
    ensures Inv(SetPc(s, p, FreeClear(f, s.rmap[f.0].0, s.rmap[f.0].1)))
  {
    assert CpuInv(s, p);
    assert GroupShape(s.groups[s.rmap[f.0].0]);
    PcStepKeeps(s, p, FreeClear(f, s.rmap[f.0].0, s.rmap[f.0].1));
  }

  lemma GiveUpStepKeeps(s: State, p: nat, g: nat)
    requires Inv(s) && Here(s, p) && s.cpus[p].pc == FreeClaim(g)
    ensures Inv(SetPc(s, p, Idle))
  {
    PcStepKeeps(s, p, Idle);
  }

  // ----- taking and giving up ownership -----

  lemma ClaimOwner(s: State, t: State, p: nat, g: nat, keep: bool)
    requires OwnerInv(s) && p in s.cpus && g < |s.groups| == SUPER_GROUP_SIZE && g !in s.owner
    requires PcPriv(s.cpus[p].pc).None? && t == DoClaim(s, p, g, keep)
    ensures OwnerInv(t) && GuardsKept(s, t, p) && OthersKept(s, t, g)
  {
    forall i | i in t.owner ensures OwnerOk(t, i) { if i != g { assert OwnerOk(s, i); } }
    forall q | q in t.cpus ensures HoldsOk(t, q) { assert HoldsOk(s, q); }
  }

  lemma ClaimFrame(s: State, t: State, p: nat, g: nat, keep: bool)
    requires Here(s, p) && g < SUPER_GROUP_SIZE && GroupShape(s.groups[g])
    requires (s.cpus[p].pc.Claim? && keep) || (s.cpus[p].pc == FreeClaim(g) && !keep)
    requires t == DoClaim(s, p, g, keep)
    ensures CounterStep(s, t, p, g)
  {
  }

  lemma ClaimView(s: State, t: State, p: nat, g: nat, keep: bool)
    requires p in s.cpus && g < |s.groups| && t == DoClaim(s, p, g, keep) && g !in s.owner
    requires forall i :: !PendsL2(s.cpus[p].pc, i)
    ensures ViewOf(t, g) == VClaim(ViewOf(s, g), g)
  {
    PlainView(s, t, p, g);
  }

  lemma ClaimStepKeeps(s: State, p: nat, g: nat, keep: bool)
    requires Inv(s) && Here(s, p) && g < SUPER_GROUP_SIZE && !s.groups[g].word.owned
    requires (s.cpus[p].pc.Claim? && keep) || (s.cpus[p].pc == FreeClaim(g) && !keep)
    ensures Inv(DoClaim(s, p, g, keep))
  {
    var t := DoClaim(s, p, g, keep);
    assert GroupShape(s.groups[g]);
    assert LocalInv(ViewOf(s, g));
    assert g in s.owner ==> OwnerOk(s, g);
    ClaimOwner(s, t, p, g, keep);
    ClaimFrame(s, t, p, g, keep);
    assert LocalInv(ViewOf(t, g)) by {
      ClaimView(s, t, p, g, keep);
      ClaimKeeps(ViewOf(s, g), g);
    }
    CounterFinish(s, t, p, g);
  }

  lemma CasOwner(s: State, t: State, p: nat, priv: Private, resume: bool)
    requires Here(s, p) && s.cpus[p].pc == Cas(priv, resume) && OwnerInv(s) && t == DoCas(s, p, priv, resume)
    ensures OwnerInv(t) && GuardsKept(s, t, p) && OthersKept(s, t, priv.group)
  {
    assert HoldsOk(s, p);
    forall i | i in t.owner ensures OwnerOk(t, i) { assert OwnerOk(s, i); }
    forall q | q in t.cpus ensures HoldsOk(t, q) { assert HoldsOk(s, q); }
  }

  lemma CasFrame(s: State, t: State, p: nat, priv: Private, resume: bool)
    requires Here(s, p) && s.cpus[p].pc == Cas(priv, resume) && t == DoCas(s, p, priv, resume)
    ensures CounterStep(s, t, p, priv.group)
  {
  }

  lemma CasView(s: State, t: State, p: nat, priv: Private, resume: bool)
    requires Here(s, p) && s.cpus[p].pc == Cas(priv, resume) && t == DoCas(s, p, priv, resume) && HoldsOk(s, p)
    ensures ViewOf(s, priv.group).priv == Some(priv) && ViewOf(s, priv.group).shared == 8
    ensures ViewOf(s, priv.group).loaded == 8
    ensures ViewOf(t, priv.group) == VCas(ViewOf(s, priv.group))
  {
    PlainView(s, t, p, priv.group);
  }

  lemma CasStepKeeps(s: State, p: nat, priv: Private, resume: bool)
    requires Inv(s) && Here(s, p) && s.cpus[p].pc == Cas(priv, resume)
    ensures Inv(DoCas(s, p, priv, resume))
  {
    var t := DoCas(s, p, priv, resume);
    CasOwner(s, t, p, priv, resume);
    CasFrame(s, t, p, priv, resume);
    assert LocalInv(ViewOf(t, priv.group)) by {
      assert HoldsOk(s, p);
      assert CpuInv(s, p);
      assert LocalInv(ViewOf(s, priv.group));
      CasView(s, t, p, priv, resume);
      CasKeeps(ViewOf(s, priv.group));
    }
    CounterFinish(s, t, p, priv.group);
  }

  /** The last load of a copy that is kept: the builder becomes the guard. */
  lemma KeepStepKeeps(s: State, p: nat, priv: Private)
    requires Inv(s) && Here(s, p) && s.cpus[p].pc == BuildAddr(priv, 7, true)
    ensures Inv(DoBuildAddr(s, p, priv, 7, true))
  {
    var t := DoBuildAddr(s, p, priv, 7, true);
    var g := priv.group;
    BuildAddrFrame(s, p, priv, 7, true);
    KeepOwner(s, t, p, priv);
    assert LocalInv(ViewOf(t, g)) by {
      assert HoldsOk(s, p);
      assert LocalInv(ViewOf(s, g));
      PlainView(s, t, p, g);
      LoadAddrKeeps(ViewOf(s, g), 7);
      ForgetShared(VLoadAddr(ViewOf(s, g), 7));
    }
    CounterFinish(s, t, p, g);
  }

  lemma KeepOwner(s: State, t: State, p: nat, priv: Private)
    requires Here(s, p) && s.cpus[p].pc == BuildAddr(priv, 7, true) && OwnerInv(s)
    requires t == DoBuildAddr(s, p, priv, 7, true)
    ensures OwnerInv(t) && GuardsKept(s, t, p) && OthersKept(s, t, priv.group)
  {
    assert HoldsOk(s, p);
    forall i | i in t.owner ensures OwnerOk(t, i) { assert OwnerOk(s, i); }
    forall q | q in t.cpus ensures HoldsOk(t, q) { assert HoldsOk(s, q); }
  }

  lemma BeginDropOwner(s: State, t: State, p: nat, resume: bool)
    requires Here(s, p) && s.cpus[p].guard.Some? && PcPriv(s.cpus[p].pc).None? && OwnerInv(s)
    requires t == BeginDrop(s, p, resume)
    ensures OwnerInv(t) && GuardsKept(s, t, p) && OthersKept(s, t, s.cpus[p].guard.value.group)
  {
    assert HoldsOk(s, p);
    forall i | i in t.owner ensures OwnerOk(t, i) { assert OwnerOk(s, i); }
    forall q | q in t.cpus ensures HoldsOk(t, q) { assert HoldsOk(s, q); }
  }

  /** Handing the kept copy to a drop changes who holds it, not what it says. */
  lemma BeginDropKeeps(s: State, p: nat, resume: bool)
    requires Inv(s) && Here(s, p) && (s.cpus[p].pc.Idle? || s.cpus[p].pc.RefreshL2?) && s.cpus[p].guard.Some?
    ensures Inv(BeginDrop(s, p, resume))
  {
    var t := BeginDrop(s, p, resume);
    var g := s.cpus[p].guard.value.group;
    BeginDropOwner(s, t, p, resume);
    assert CounterStep(s, t, p, g);
    assert LocalInv(ViewOf(t, g)) by {
      assert HoldsOk(s, p);
      assert LocalInv(ViewOf(s, g));
      PlainView(s, t, p, g);
      assert ViewOf(t, g) == ViewOf(s, g);
    }
    CounterFinish(s, t, p, g);
  }

  // ----- refresh: the level-2 word -----

  /** The `fetch_and` and the addition to the private count, before the branch. */
  ghost function RefreshedL2(s: State, p: nat, any: bool): State
    requires Here(s, p) && s.cpus[p].pc == RefreshL2(any)
  {
    var priv := s.cpus[p].guard.value;
    SetCpu(TakeFree(s, priv.group), p,
           s.cpus[p].(guard := Some(priv.(free := priv.free + s.groups[priv.group].word.free))))
  }

  lemma RefreshedL2Frame(s: State, p: nat, any: bool)
    requires Here(s, p) && s.cpus[p].pc == RefreshL2(any)
    ensures CounterStep(s, RefreshedL2(s, p, any), p, s.cpus[p].guard.value.group)
    ensures SameHolds(s, RefreshedL2(s, p, any), p) && Here(RefreshedL2(s, p, any), p)
  {
  }

  lemma RefreshedL2View(s: State, p: nat, any: bool)
    requires Inv(s) && Here(s, p) && s.cpus[p].pc == RefreshL2(any)
    ensures LocalInv(ViewOf(RefreshedL2(s, p, any), s.cpus[p].guard.value.group))
  {
    var t := RefreshedL2(s, p, any);
    var g := s.cpus[p].guard.value.group;
    assert HoldsOk(s, p);
    assert LocalInv(ViewOf(s, g));
    GuardView(s, t, p, g);
    assert ViewOf(t, g) == VTakeFree(ViewOf(s, g));
    TakeFreeKeeps(ViewOf(s, g));
  }

  lemma RefreshedL2Keeps(s: State, p: nat, any: bool)
    requires Inv(s) && Here(s, p) && s.cpus[p].pc == RefreshL2(any)
    ensures Inv(RefreshedL2(s, p, any))
  {
    RefreshedL2Frame(s, p, any);
    RefreshedL2View(s, p, any);
    SimpleFinish(s, RefreshedL2(s, p, any), p, s.cpus[p].guard.value.group);
  }

  lemma RefreshL2StepKeeps(s: State, p: nat, any: bool)
    requires Inv(s) && Here(s, p) && s.cpus[p].pc == RefreshL2(any)
    ensures Inv(DoRefreshL2(s, p, any))
  {
    var t := RefreshedL2(s, p, any);
    RefreshedL2Keeps(s, p, any);
    RefreshedL2Frame(s, p, any);
    var c := FirstZero(s.cpus[p].guard.value.mask, 0);
    if any || s.groups[s.cpus[p].guard.value.group].word.free != 0 {
      PcStepKeeps(t, p, Choose);
    } else if c.Some? {
      PcStepKeeps(t, p, PlugAsk(c.value));
    } else {
      BeginDropKeeps(t, p, true);
    }
  }

  // ----- handing a frame out -----

  /** Only the owner of a group sets bits in it. */
  lemma OtherGuard(s: State, p: nat, q: nat)
    requires OwnerInv(s) && p in s.cpus && q in s.cpus && p != q
    requires s.cpus[p].guard.Some? && s.cpus[q].guard.Some?
    ensures s.cpus[p].guard.value.group != s.cpus[q].guard.value.group
  {
    assert HoldsOk(s, p) && HoldsOk(s, q);
  }

  lemma TakeTyped(s: State, p: nat, c: nat, f: nat)
    requires Typed(s) && Here(s, p) && s.cpus[p].pc == Take(c, f) && CpuInv(s, p)
    ensures Typed(DoTake(s, p, c, f))
  {
    var t := DoTake(s, p, c, f);
    forall i | 0 <= i < |t.groups| ensures GroupShape(t.groups[i]) { assert GroupShape(s.groups[i]); }
    forall q | q in t.cpus ensures CpuShape(t.cpus[q]) { assert CpuShape(s.cpus[q]); }
  }

  /** The slot in the private copy is the slot behind the chunk. */
  lemma GuardSlot(s: State, p: nat, c: nat)
    requires Typed(s) && OwnerInv(s) && Ledgers(s) && Here(s, p) && s.cpus[p].guard.Some? && c < 8
    requires s.cpus[p].guard.value.mask[c] || s.cpus[p].guard.value.l1[c] > 0
    ensures var priv := s.cpus[p].guard.value;
            (priv.group, c) in s.plug && s.plug[(priv.group, c)] == priv.addr[c]
  {
    assert HoldsOk(s, p);
    var v := ViewOf(s, s.cpus[p].guard.value.group);
    assert LocalInv(v);
    assert ChunkInv(v, c);
  }

  lemma TakeOut(s: State, p: nat, c: nat, f: nat)
    requires Inv(s) && Here(s, p) && s.cpus[p].pc == Take(c, f) && Typed(DoTake(s, p, c, f))
    ensures (s.cpus[p].guard.value.addr[c], f) !in s.out
    ensures OutInv(DoTake(s, p, c, f))
  {
    var t := DoTake(s, p, c, f);
    var priv := s.cpus[p].guard.value;
    var a := (priv.group, c);
    assert CpuInv(s, p);
    GuardSlot(s, p, c);
    assert SlotOk(s, a) && Mapped(s, a);
    assert !MapPending(s, a) by { assert HoldsOk(s, p); }
    assert s.rmap[priv.addr[c]] == a;
    assert (priv.addr[c], f) in s.out ==> Backed(s, (priv.addr[c], f));
    forall x | x in t.out ensures Backed(t, x) { if x in s.out { assert Backed(s, x); } }
    forall b | b in t.plug ensures Accounted(t, b) { assert Accounted(s, b); }
  }

  lemma TakeCpu(s: State, p: nat, c: nat, f: nat, q: nat)
    requires Inv(s) && Here(s, p) && s.cpus[p].pc == Take(c, f) && Typed(DoTake(s, p, c, f)) && q in s.cpus && q != p
    ensures CpuInv(DoTake(s, p, c, f), q)
  {
    var t := DoTake(s, p, c, f);
    assert CpuInv(s, q);
    TypedHere(t, q);
    if s.cpus[q].guard.Some? { OtherGuard(s, p, q); }
  }

  lemma TakeView(s: State, p: nat, c: nat, f: nat)
    requires Here(s, p) && s.cpus[p].pc == Take(c, f) && HoldsOk(s, p) && ViewShape(ViewOf(s, s.cpus[p].guard.value.group))
    ensures var g := s.cpus[p].guard.value.group;
            && ViewOf(s, g).priv == s.cpus[p].guard
            && ViewOf(DoTake(s, p, c, f), g) == VTake(ViewOf(s, g), c, f)
  {
    GuardView(s, DoTake(s, p, c, f), p, s.cpus[p].guard.value.group);
  }

  lemma TakeLocal(s: State, p: nat, c: nat, f: nat)
    requires Inv(s) && Here(s, p) && s.cpus[p].pc == Take(c, f)
    ensures LocalInv(ViewOf(DoTake(s, p, c, f), s.cpus[p].guard.value.group))
  {
    var g := s.cpus[p].guard.value.group;
    assert HoldsOk(s, p) && CpuInv(s, p);
    assert LocalInv(ViewOf(s, g));
    TakeView(s, p, c, f);
    TakeKeeps(ViewOf(s, g), c, f);
  }

  lemma TakeLedgers(s: State, p: nat, c: nat, f: nat)
    requires Inv(s) && Here(s, p) && s.cpus[p].pc == Take(c, f) && Typed(DoTake(s, p, c, f))
    ensures Ledgers(DoTake(s, p, c, f))
  {
    var t := DoTake(s, p, c, f);
    var g := s.cpus[p].guard.value.group;
    TakeLocal(s, p, c, f);
    OthersUntouched(s, t, p, g);
    AssembleLedgers(s, t, p, g);
  }

  lemma TakeStepKeeps(s: State, p: nat, c: nat, f: nat)
    requires Inv(s) && Here(s, p) && s.cpus[p].pc == Take(c, f)
    ensures Inv(DoTake(s, p, c, f))
    ensures (s.cpus[p].guard.value.addr[c], f) !in s.out
  {
    var t := DoTake(s, p, c, f);
    var g := s.cpus[p].guard.value.group;
    assert Typed(t) by { assert CpuInv(s, p); TakeTyped(s, p, c, f); }
    assert OwnerInv(t) by { OwnerSame(s, t, p, g); }
    assert Ledgers(t) by { TakeLedgers(s, p, c, f); }
    assert SlotInv(t) by { QuietSlots(s, t, p); }
    TakeOut(s, p, c, f);
    forall q | q in t.cpus ensures CpuInv(t, q) {
      if q != p { TakeCpu(s, p, c, f, q); } else { TypedHere(t, p); }
    }
    assert OneFreer(t) by { QuietFreer(s, t, p); }
  }

  // ----- plugging a slot in -----

  lemma PlugTyped(s: State, p: nat, c: nat, slot: nat)
    requires Typed(s) && Here(s, p) && s.cpus[p].pc == PlugAsk(c) && slot in s.pool
    ensures Typed(DoPlug(s, p, c, slot))
  {
    var t := DoPlug(s, p, c, slot);
    forall q | q in t.cpus ensures CpuShape(t.cpus[q]) { assert CpuShape(s.cpus[q]); }
  }

  lemma PlugView(s: State, p: nat, c: nat, slot: nat)
    requires Here(s, p) && s.cpus[p].pc == PlugAsk(c) && HoldsOk(s, p) && ViewShape(ViewOf(s, s.cpus[p].guard.value.group))
    ensures var g := s.cpus[p].guard.value.group;
            && ViewOf(s, g).priv == s.cpus[p].guard && ViewOf(s, g).shared == 0
            && ViewOf(DoPlug(s, p, c, slot), g) == VPlug(ViewOf(s, g), c, slot)
  {
    var t := DoPlug(s, p, c, slot);
    var g := s.cpus[p].guard.value.group;
    var v, w := ViewOf(s, g), ViewOf(t, g);
    AtSame(s.cpus, p, t.cpus[p], g);
    assert w.slots == v.slots[c := Some(slot)];
    assert w.at1 == v.at1;
  }

  lemma PlugEmpty(s: State, p: nat, c: nat)
    requires Inv(s) && Here(s, p) && s.cpus[p].pc == PlugAsk(c)
    ensures (s.cpus[p].guard.value.group, c) !in s.plug && Used(s, (s.cpus[p].guard.value.group, c)) == {}
  {
    var v := ViewOf(s, s.cpus[p].guard.value.group);
    assert HoldsOk(s, p) && CpuInv(s, p);
    assert LocalInv(v);
    assert ChunkInv(v, c);
  }

  lemma PlugLocal(s: State, p: nat, c: nat, slot: nat)
    requires Inv(s) && Here(s, p) && s.cpus[p].pc == PlugAsk(c) && slot in s.pool
    ensures LocalInv(ViewOf(DoPlug(s, p, c, slot), s.cpus[p].guard.value.group))
  {
    var g := s.cpus[p].guard.value.group;
    assert LocalInv(ViewOf(s, g));
    assert HoldsOk(s, p) && CpuInv(s, p);
    PlugView(s, p, c, slot);
    PlugKeeps(ViewOf(s, g), c, slot);
  }

  lemma PlugLedgers(s: State, p: nat, c: nat, slot: nat)
    requires Inv(s) && Here(s, p) && s.cpus[p].pc == PlugAsk(c) && slot in s.pool && Typed(DoPlug(s, p, c, slot))
    ensures Ledgers(DoPlug(s, p, c, slot))
  {
    var t := DoPlug(s, p, c, slot);
    var g := s.cpus[p].guard.value.group;
    PlugLocal(s, p, c, slot);
    OthersUntouched(s, t, p, g);
    AssembleLedgers(s, t, p, g);
  }

  lemma PlugSlots(s: State, p: nat, c: nat, slot: nat)
    requires Inv(s) && Here(s, p) && s.cpus[p].pc == PlugAsk(c) && slot in s.pool && Typed(DoPlug(s, p, c, slot))
    requires (s.cpus[p].guard.value.group, c) !in s.plug && Used(s, (s.cpus[p].guard.value.group, c)) == {}
    ensures SlotInv(DoPlug(s, p, c, slot)) && OutInv(DoPlug(s, p, c, slot))
  {
    var t := DoPlug(s, p, c, slot);
    var a := (s.cpus[p].guard.value.group, c);
    forall b | b in s.plug ensures s.plug[b] != slot { assert SlotOk(s, b); }
    forall b | b in t.plug ensures SlotOk(t, b) { if b != a { assert SlotOk(s, b); } }
    forall b | b in t.plug ensures Mapped(t, b) {
      if b != a {
        assert SlotOk(s, b) && Mapped(s, b);
        if MapPending(s, b) { PendingKept(s, t, p, b); }
      } else {
        assert HoldsOk(s, p);
      }
    }
    forall x | x in t.out ensures Backed(t, x) { assert Backed(s, x); }
    forall b | b in t.plug ensures Accounted(t, b) { if b != a { assert Accounted(s, b); } }
  }

  lemma PlugStepKeeps(s: State, p: nat, c: nat, slot: nat)
    requires Inv(s) && Here(s, p) && s.cpus[p].pc == PlugAsk(c) && slot in s.pool
    ensures Inv(DoPlug(s, p, c, slot))
  {
    var t := DoPlug(s, p, c, slot);
    var g := s.cpus[p].guard.value.group;
    PlugTyped(s, p, c, slot);
    assert OwnerInv(t) by { OwnerSame(s, t, p, g); }
    PlugEmpty(s, p, c);
    PlugLedgers(s, p, c, slot);
    assert SlotInv(t) && OutInv(t) by { PlugSlots(s, p, c, slot); }
    forall q | q in t.cpus ensures CpuInv(t, q) {
      assert CpuInv(s, q);
      TypedHere(t, q);
    }
    assert OneFreer(t) by { QuietFreer(s, t, p); }
  }

  // ----- writing the reverse map -----

  /** No frame of the slot being mapped is handed out yet. */
  lemma MapFresh(s: State, p: nat, c: nat, x: Frame)
    requires Inv(s) && Here(s, p) && s.cpus[p].pc == PlugMap(c) && x in s.out
    ensures x.0 != s.cpus[p].guard.value.addr[c]
  {
    assert CpuInv(s, p);
    GuardSlot(s, p, c);
    assert Backed(s, x);
  }

  lemma MapSlots(s: State, p: nat, c: nat)
    requires Inv(s) && Here(s, p) && s.cpus[p].pc == PlugMap(c) && Typed(DoMap(s, p, c))
    ensures SlotInv(DoMap(s, p, c)) && OutInv(DoMap(s, p, c))
  {
    var t := DoMap(s, p, c);
    assert CpuInv(s, p);
    GuardSlot(s, p, c);
    forall b | b in t.plug ensures SlotOk(t, b) { assert SlotOk(s, b); }
    forall b | b in t.plug ensures Mapped(t, b) {
      assert SlotOk(s, b) && Mapped(s, b);
      if MapPending(s, b) { assert OwnerOk(s, b.0); }
    }
    forall x | x in t.out ensures Backed(t, x) { assert Backed(s, x); MapFresh(s, p, c, x); }
    forall b | b in t.plug ensures Accounted(t, b) { assert Accounted(s, b); }
  }

  lemma MapTyped(s: State, p: nat, c: nat)
    requires Typed(s) && Here(s, p) && s.cpus[p].pc == PlugMap(c)
    ensures Typed(DoMap(s, p, c))
  {
    var t := DoMap(s, p, c);
    forall q | q in t.cpus ensures CpuShape(t.cpus[q]) { assert CpuShape(s.cpus[q]); }
  }

  lemma MapCpu(s: State, p: nat, c: nat, q: nat)
    requires Inv(s) && Here(s, p) && s.cpus[p].pc == PlugMap(c) && Typed(DoMap(s, p, c)) && q in s.cpus
    ensures CpuInv(DoMap(s, p, c), q)
  {
    var t := DoMap(s, p, c);
    assert CpuInv(s, q);
    TypedHere(t, q);
    if s.cpus[q].pc.FreeClear? { MapFresh(s, p, c, s.cpus[q].pc.f); }
  }

  lemma MapStepKeeps(s: State, p: nat, c: nat)
    requires Inv(s) && Here(s, p) && s.cpus[p].pc == PlugMap(c)
    ensures Inv(DoMap(s, p, c))
  {
    var t := DoMap(s, p, c);
    MapTyped(s, p, c);
    assert Moves(s, t, p, 0);
    assert OwnerInv(t) by { OwnerSame(s, t, p, 0); }
    assert Ledgers(t) by {
      forall i | 0 <= i < SUPER_GROUP_SIZE ensures Untouched(s, t, p, i) {
        if i in s.owner { assert OwnerOk(s, i); }
      }
      AllUntouched(s, t, p);
    }
    MapSlots(s, p, c);
    forall q | q in t.cpus ensures CpuInv(t, q) { MapCpu(s, p, c, q); }
    assert OneFreer(t) by { QuietFreer(s, t, p); }
  }

  // ----- freeing: clearing the bit -----

  /** The bit cleared is the bit of this very frame. */
  lemma FreeClearBit(s: State, p: nat, f: Frame, g: nat, c: nat)
    requires Inv(s) && Here(s, p) && s.cpus[p].pc == FreeClear(f, g, c)
    ensures f in s.out && (g, c) in s.plug && s.plug[(g, c)] == f.0 && f.1 in s.groups[g].used[c]
  {
    assert CpuInv(s, p);
    assert Backed(s, f);
  }

  lemma FreeClearTyped(s: State, p: nat, f: Frame, g: nat, c: nat)
    requires Typed(s) && Here(s, p) && s.cpus[p].pc == FreeClear(f, g, c)
    ensures Typed(DoFreeClear(s, p, f, g, c))
  {
    var t := DoFreeClear(s, p, f, g, c);
    forall i | 0 <= i < |t.groups| ensures GroupShape(t.groups[i]) { assert GroupShape(s.groups[i]); }
    forall q | q in t.cpus ensures CpuShape(t.cpus[q]) { assert CpuShape(s.cpus[q]); }
  }

  lemma FreeClearOut(s: State, p: nat, f: Frame, g: nat, c: nat)
    requires Inv(s) && Here(s, p) && s.cpus[p].pc == FreeClear(f, g, c) && Typed(DoFreeClear(s, p, f, g, c))
    ensures OutInv(DoFreeClear(s, p, f, g, c))
  {
    var t := DoFreeClear(s, p, f, g, c);
    FreeClearBit(s, p, f, g, c);
    forall x | x in t.out ensures Backed(t, x) { assert Backed(s, x); }
    forall b | b in t.plug ensures Accounted(t, b) { assert Accounted(s, b); }
  }

  lemma FewerUsed(used: set<nat>, used': set<nat>, lo: nat)
    requires HasClear(used, lo) && used' <= used
    ensures HasClear(used', lo)
  {
    var x :| lo <= x < CHUNK_SIZE && x !in used;
    assert x !in used';
  }

  lemma FreeClearScan(s: State, p: nat, f: Frame, g: nat, c: nat, q: nat)
    requires Here(s, p) && s.cpus[p].pc == FreeClear(f, g, c)
    requires q in s.cpus && q != p && s.cpus[q].pc.Scan? && CpuInv(s, q) && Here(DoFreeClear(s, p, f, g, c), q)
    ensures CpuInv(DoFreeClear(s, p, f, g, c), q)
  {
    var t := DoFreeClear(s, p, f, g, c);
    var pc, i := s.cpus[q].pc, s.cpus[q].guard.value.group;
    FewerUsed(s.groups[i].used[pc.chunk], t.groups[i].used[pc.chunk], 64 * pc.index);
  }

  lemma FreeClearFreer(s: State, p: nat, f: Frame, g: nat, c: nat, q: nat)
    requires Here(s, p) && s.cpus[p].pc == FreeClear(f, g, c) && OneFreer(s)
    requires q in s.cpus && q != p && (s.cpus[q].pc.FreeMap? || s.cpus[q].pc.FreeClear?)
    requires CpuInv(s, q) && Here(DoFreeClear(s, p, f, g, c), q)
    ensures CpuInv(DoFreeClear(s, p, f, g, c), q)
  {
    var pc := s.cpus[q].pc;
    assert Freeing(s.cpus[p].pc, f) && Freeing(pc, pc.f);
  }

  lemma FreeClearCpu(s: State, p: nat, f: Frame, g: nat, c: nat, q: nat)
    requires CpuInv(s, p) && Here(s, p) && s.cpus[p].pc == FreeClear(f, g, c) && OneFreer(s)
    requires q in s.cpus && q != p && CpuInv(s, q) && Here(DoFreeClear(s, p, f, g, c), q)
    ensures CpuInv(DoFreeClear(s, p, f, g, c), q)
  {
    var pc := s.cpus[q].pc;
    if pc.Scan? {
      FreeClearScan(s, p, f, g, c, q);
    } else if pc.FreeMap? || pc.FreeClear? {
      FreeClearFreer(s, p, f, g, c, q);
    }
  }

  lemma FreeClearAt(cpus: map<nat, Cpu>, p: nat, cpu: Cpu, g: nat, c: nat)
    requires p in cpus && cpus[p].pc.FreeClear? && cpu.pc == FreeL1(g, c)
    ensures p !in At2(cpus, g) && At2(cpus[p := cpu], g) == At2(cpus, g) + {p}
    ensures p !in At1(cpus, g, c) && At1(cpus[p := cpu], g, c) == At1(cpus, g, c) + {p}
    ensures forall i :: i != c ==> At1(cpus[p := cpu], g, i) == At1(cpus, g, i)
  {
  }

  lemma FreeClearView(s: State, p: nat, f: Frame, g: nat, c: nat)
    requires Here(s, p) && s.cpus[p].pc == FreeClear(f, g, c) && ViewShape(ViewOf(s, g))
    requires !(s.cpus[p].guard.Some? && s.cpus[p].guard.value.group == g)
    requires g in s.owner ==> s.owner[g] != Guard(p) && s.owner[g] != Temp(p)
    ensures ViewOf(DoFreeClear(s, p, f, g, c), g) == VFreeClear(ViewOf(s, g), c, f.1)
  {
    var t := DoFreeClear(s, p, f, g, c);
    FreeClearCounts(s, t, p, g, c);
    assert PrivAtG(t, g) == PrivAtG(s, g) && SharedAt(t, g) == SharedAt(s, g) && LoadedAt(t, g) == LoadedAt(s, g);
  }

  /** The two counts of pending frees and the slots, across the clearing of a bit. */
  lemma FreeClearCounts(s: State, t: State, p: nat, g: nat, c: nat)
    requires p in s.cpus && s.cpus[p].pc.FreeClear? && p in t.cpus && t.cpus[p].pc == FreeL1(g, c) && c < 8
    requires t.cpus == s.cpus[p := t.cpus[p]] && t.plug == s.plug && g < |s.groups| == |t.groups|
    ensures ViewOf(t, g).slots == ViewOf(s, g).slots
    ensures ViewOf(t, g).at1 == ViewOf(s, g).at1[c := ViewOf(s, g).at1[c] + 1]
    ensures ViewOf(t, g).at2 == ViewOf(s, g).at2 + 1
  {
    FreeClearAt(s.cpus, p, t.cpus[p], g, c);
    var v, w := ViewOf(s, g).at1, ViewOf(t, g).at1;
    forall i | 0 <= i < 8 ensures w[i] == v[c := v[c] + 1][i] {
      assert w[i] == |At1(t.cpus, g, i)| && v[i] == |At1(s.cpus, g, i)|;
    }
  }

  lemma FreeOwnView(s: State, p: nat, f: Frame, g: nat, c: nat)
    requires Here(s, p) && s.cpus[p].pc == FreeClear(f, g, c) && HoldsOk(s, p) && ViewShape(ViewOf(s, g))
    requires s.cpus[p].guard.Some? && s.cpus[p].guard.value.group == g
    ensures ViewOf(s, g).priv.Some? && ViewOf(DoFreeClear(s, p, f, g, c), g) == VFreeOwn(ViewOf(s, g), c, f.1)
  {
    GuardView(s, DoFreeClear(s, p, f, g, c), p, g);
  }

  lemma FreeClearLedgers(s: State, p: nat, f: Frame, g: nat, c: nat)
    requires Inv(s) && Here(s, p) && s.cpus[p].pc == FreeClear(f, g, c) && Typed(DoFreeClear(s, p, f, g, c))
    ensures Ledgers(DoFreeClear(s, p, f, g, c))
  {
    var t := DoFreeClear(s, p, f, g, c);
    assert LocalInv(ViewOf(t, g)) by {
      assert LocalInv(ViewOf(s, g));
      assert HoldsOk(s, p);
      assert g in s.owner ==> OwnerOk(s, g);
      FreeClearBit(s, p, f, g, c);
      if s.cpus[p].guard.Some? && s.cpus[p].guard.value.group == g {
        FreeOwnView(s, p, f, g, c);
        FreeOwnKeeps(ViewOf(s, g), c, f.1);
      } else {
        FreeClearView(s, p, f, g, c);
        FreeClearKeeps(ViewOf(s, g), c, f.1);
      }
    }
    OthersUntouched(s, t, p, g);
    AssembleLedgers(s, t, p, g);
  }

  lemma FreeClearCpus(s: State, p: nat, f: Frame, g: nat, c: nat)
    requires Inv(s) && Here(s, p) && s.cpus[p].pc == FreeClear(f, g, c) && Typed(DoFreeClear(s, p, f, g, c))
    ensures var t := DoFreeClear(s, p, f, g, c); forall q {:trigger CpuInv(t, q)} :: q in t.cpus ==> CpuInv(t, q)
  {
    var t := DoFreeClear(s, p, f, g, c);
    forall q | q in t.cpus ensures CpuInv(t, q) {
      assert CpuInv(s, q) && CpuInv(s, p);
      TypedHere(t, q);
      if q != p { FreeClearCpu(s, p, f, g, c, q); }
    }
  }

  lemma FreeClearStepKeeps(s: State, p: nat, f: Frame, g: nat, c: nat)
    requires Inv(s) && Here(s, p) && s.cpus[p].pc == FreeClear(f, g, c)
    ensures Inv(DoFreeClear(s, p, f, g, c))
  {
    var t := DoFreeClear(s, p, f, g, c);
    FreeClearTyped(s, p, f, g, c);
    assert OwnerInv(t) by { OwnerSame(s, t, p, g); }
    FreeClearLedgers(s, p, f, g, c);
    assert SlotInv(t) by { QuietSlots(s, t, p); }
    FreeClearOut(s, p, f, g, c);
    FreeClearCpus(s, p, f, g, c);
    assert OneFreer(t) by { QuietFreer(s, t, p); }
  }

  // ----- unplugging -----

  ghost predicate UnplugTaken(s: State, p: nat, priv: Private, k: nat, resume: bool) {
    && Here(s, p) && s.cpus[p].pc == Unplug(priv, k, resume)
    && priv.free < CHUNK_SIZE && priv.l1[k] == CHUNK_SIZE
  }

  lemma UnplugSlot(s: State, p: nat, priv: Private, k: nat, resume: bool)
    requires Inv(s) && UnplugTaken(s, p, priv, k, resume)
    ensures var a := (priv.group, k); a in s.plug && s.plug[a] == priv.addr[k] && Used(s, a) == {}
  {
    assert HoldsOk(s, p);
    var v := ViewOf(s, priv.group);
    assert LocalInv(v);
    UnplugKeeps(v, k);
    assert ChunkInv(v, k);
  }

  lemma UnplugTyped(s: State, p: nat, priv: Private, k: nat, resume: bool)
    requires Typed(s) && UnplugTaken(s, p, priv, k, resume)
    ensures Typed(DoUnplug(s, p, priv, k, resume))
  {
    var t := DoUnplug(s, p, priv, k, resume);
    forall q | q in t.cpus ensures CpuShape(t.cpus[q]) { assert CpuShape(s.cpus[q]); }
  }

  lemma UnplugView(s: State, p: nat, priv: Private, k: nat, resume: bool)
    requires UnplugTaken(s, p, priv, k, resume) && HoldsOk(s, p) && ViewShape(ViewOf(s, priv.group))
    ensures ViewOf(s, priv.group).priv == Some(priv)
    ensures ViewOf(DoUnplug(s, p, priv, k, resume), priv.group) == VUnplug(ViewOf(s, priv.group), k)
  {
    var t := DoUnplug(s, p, priv, k, resume);
    var g := priv.group;
    var v, w := ViewOf(s, g), ViewOf(t, g);
    AtSame(s.cpus, p, t.cpus[p], g);
    assert w.slots == v.slots[k := None];
    assert w.at1 == v.at1;
  }

  lemma UnplugSlots(s: State, p: nat, priv: Private, k: nat, resume: bool)
    requires Inv(s) && UnplugTaken(s, p, priv, k, resume) && Typed(DoUnplug(s, p, priv, k, resume))
    ensures SlotInv(DoUnplug(s, p, priv, k, resume)) && OutInv(DoUnplug(s, p, priv, k, resume))
  {
    var t := DoUnplug(s, p, priv, k, resume);
    UnplugSlot(s, p, priv, k, resume);
    forall b | b in t.plug ensures SlotOk(t, b) { assert SlotOk(s, b); }
    forall b | b in t.plug ensures Mapped(t, b) {
      assert SlotOk(s, b) && Mapped(s, b);
      if MapPending(s, b) { PendingKept(s, t, p, b); }
    }
    forall x | x in t.out ensures Backed(t, x) { assert Backed(s, x); }
    forall b | b in t.plug ensures Accounted(t, b) { assert Accounted(s, b); }
  }

  lemma UnplugLedgers(s: State, p: nat, priv: Private, k: nat, resume: bool)
    requires Inv(s) && UnplugTaken(s, p, priv, k, resume) && Typed(DoUnplug(s, p, priv, k, resume))
    ensures Ledgers(DoUnplug(s, p, priv, k, resume))
  {
    var t := DoUnplug(s, p, priv, k, resume);
    var g := priv.group;
    assert LocalInv(ViewOf(t, g)) by {
      assert HoldsOk(s, p);
      assert LocalInv(ViewOf(s, g));
      UnplugView(s, p, priv, k, resume);
      UnplugKeeps(ViewOf(s, g), k);
    }
    OthersUntouched(s, t, p, g);
    AssembleLedgers(s, t, p, g);
  }

  lemma UnplugStepKeeps(s: State, p: nat, priv: Private, k: nat, resume: bool)
    requires Inv(s) && UnplugTaken(s, p, priv, k, resume)
    ensures Inv(DoUnplug(s, p, priv, k, resume))
  {
    var t := DoUnplug(s, p, priv, k, resume);
    UnplugTyped(s, p, priv, k, resume);
    assert OwnerInv(t) by { OwnerSame(s, t, p, priv.group); }
    UnplugLedgers(s, p, priv, k, resume);
    UnplugSlots(s, p, priv, k, resume);
    forall q | q in t.cpus ensures CpuInv(t, q) {
      assert CpuInv(s, q);
      TypedHere(t, q);
    }
    assert OneFreer(t) by { QuietFreer(s, t, p); }
  }
}
