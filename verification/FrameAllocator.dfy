/** The physical frame allocator as a state machine over any number of CPUs.
    One action is one atomic access together with the CPU-local work that
    follows it; memory is sequentially consistent. */
module FrameAllocator {
  import opened Basics
  import opened FrameWord

  /** A 4 KiB frame: the slot that backs its chunk and its index in the chunk. */
  type Frame = (nat, nat)

  /** The private copy a CPU keeps of a group it owns. `free` is an integer: the
      source's 32-bit subtraction is the one operation that can leave its range. */
  datatype Private = Private(group: nat, mask: seq<bool>, free: int, l1: seq<int>, addr: seq<nat>)

  datatype Group = Group(word: L2Word, l1: seq<nat>, used: seq<set<nat>>, addr: seq<nat>)

  /** Where a CPU stands. `resume` says whether `allocate_frame` goes on to claim
      another group after the drop; `keep` whether a claimed group is kept. */
  datatype Pc =
    | Idle
    // allocate_frame
    | Claim
    | Choose
    | Scan(chunk: nat, index: nat)
    | Take(chunk: nat, frame: nat)
    | RefreshL1(k: nat, any: bool)
    | RefreshL2(any: bool)
    | PlugAsk(chunk: nat)
    | PlugMap(chunk: nat)
    // PrivateState::new
    | BuildL1(priv: Private, k: nat, keep: bool)
    | BuildAddr(priv: Private, k: nat, keep: bool)
    // PrivateState::drop
    | DropL1(priv: Private, k: nat, resume: bool)
    | DropL2(priv: Private, resume: bool)
    | Unplug(priv: Private, k: nat, resume: bool)
    | Store(priv: Private, k: nat, resume: bool)
    | Add(priv: Private, k: nat, resume: bool)
    | Cas(priv: Private, resume: bool)
    // deallocate_frame
    | FreeMap(f: Frame)
    | FreeClear(f: Frame, g: nat, c: nat)
    | FreeL1(g: nat, c: nat)
    | FreeL2(g: nat, c: nat, full: bool)
    | FreeClaim(g: nat)
    // `self.free -= CHUNK_SIZE` left the range of u32
    | Panicked(priv: Private)
    // the `unreachable_unchecked` at the end of `find_free`
    | Unreachable

  datatype Cpu = Cpu(guard: Option<Private>, pc: Pc)

  /** Which private copy owns a group: the one kept between calls, or the one
      being built or dropped. */
  datatype Holder = Guard(cpu: nat) | Temp(cpu: nat)

  /** `owner`, `plug` and `out` are history: who owns each group, which slot backs
      each plugged chunk, which frames are handed out and not yet returned. */
  datatype State = State(
    groups: seq<Group>, rmap: seq<(nat, nat)>, pool: set<nat>, cpus: map<nat, Cpu>,
    owner: map<nat, Holder>, plug: map<(nat, nat), nat>, out: set<Frame>)

  datatype Action =
    | StartAlloc | StartFree(f: Frame) | StartRelease
    | ClaimGroup(g: nat) | GiveUp | Slot(slot: nat) | Go

  // ----- small helpers -----

  const NO_PLUGGED: seq<bool> := [false, false, false, false, false, false, false, false]
  const ZEROS: seq<nat> := [0, 0, 0, 0, 0, 0, 0, 0]
  const NO_USED: seq<set<nat>> := [{}, {}, {}, {}, {}, {}, {}, {}]

  /** The first chunk at or after `c` with a positive private count. */
  function FirstCounted(l1: seq<int>, c: nat): (r: Option<nat>)
    ensures r.Some? ==> c <= r.value < |l1| && l1[r.value] > 0
    ensures r.None? ==> forall i :: c <= i < |l1| ==> l1[i] <= 0
    decreases |l1| - c
  {
    if c >= |l1| then None else if l1[c] > 0 then Some(c) else FirstCounted(l1, c + 1)
  }

  /** `ChunkBitmask::find_zero`. */
  function FirstZero(mask: seq<bool>, c: nat): (r: Option<nat>)
    ensures r.Some? ==> c <= r.value < |mask| && !mask[r.value]
    ensures r.None? ==> forall i :: c <= i < |mask| ==> mask[i]
    decreases |mask| - c
  {
    if c >= |mask| then None else if !mask[c] then Some(c) else FirstZero(mask, c + 1)
  }

  function CountZeros(mask: seq<bool>): nat {
    if mask == [] then 0 else (if mask[0] then 0 else 1) + CountZeros(mask[1..])
  }

  /** The lowest clear bit of the 64-bit word that starts at bit `lo`. */
  function LowestClear(used: set<nat>, lo: nat, hi: nat): (r: Option<nat>)
    ensures r.Some? ==> lo <= r.value < hi && r.value !in used && forall i :: lo <= i < r.value ==> i in used
    ensures r.None? ==> forall i :: lo <= i < hi ==> i in used
    decreases hi - lo
  {
    if lo >= hi then None else if lo !in used then Some(lo) else LowestClear(used, lo + 1, hi)
  }

  function SetCpu(s: State, p: nat, c: Cpu): State { s.(cpus := s.cpus[p := c]) }
  function SetPc(s: State, p: nat, pc: Pc): State
    requires p in s.cpus
  { SetCpu(s, p, s.cpus[p].(pc := pc)) }

  // ----- actions -----

  predicate Enabled(s: State, p: nat, a: Action)
  {
    && p in s.cpus
    && var cpu := s.cpus[p];
    match cpu.pc
    case Idle =>
      (match a
       case StartAlloc => true
       case StartFree(f) =>
         // the caller owns the frame and frees it once
         f in s.out && forall q | q in s.cpus :: !Freeing(s.cpus[q].pc, f)
       case StartRelease => cpu.guard.Some?
       case _ => false)
    case Claim => a.ClaimGroup? && a.g < |s.groups| && !s.groups[a.g].word.owned && Available(s.groups[a.g].word) != 0
    case PlugAsk(_) => a.Slot? && a.slot in s.pool
    case FreeClaim(g) =>
      g < |s.groups| && if s.groups[g].word.owned then a.GiveUp? else a == ClaimGroup(g)
    case Panicked(_) => false
    case Unreachable => false
    case _ => a.Go?
  }

  predicate Freeing(pc: Pc, f: Frame) {
    (pc.FreeMap? || pc.FreeClear?) && pc.f == f
  }

  function Available(w: L2Word): nat { w.free + CountZeros(w.plugged) * CHUNK_SIZE }

  /** `L2GroupMetadata::claim`: the successful compare-exchange. */
  function DoClaim(s: State, p: nat, g: nat, keep: bool): State
    requires p in s.cpus && g < |s.groups|
  {
    var w := s.groups[g].word;
    var priv := Private(g, w.plugged, w.free, ZEROS, ZEROS);
    SetPc(s.(groups := s.groups[g := s.groups[g].(word := w.(free := 0, owned := true))],
             owner := s.owner[g := Temp(p)]), p, BuildL1(priv, 0, keep))
  }

  /** One `swap(0)` of a level-1 counter into a private copy. */
  function Swapped(priv: Private, grp: Group, k: nat): Private
    requires k < |priv.l1| && k < |grp.l1|
  {
    priv.(l1 := priv.l1[k := priv.l1[k] + grp.l1[k]])
  }

  function SwapOut(s: State, g: nat, k: nat): State
    requires g < |s.groups| && k < |s.groups[g].l1|
  {
    s.(groups := s.groups[g := s.groups[g].(l1 := s.groups[g].l1[k := 0])])
  }

  /** The `fetch_and` that empties the free field. */
  function TakeFree(s: State, g: nat): State
    requires g < |s.groups|
  {
    s.(groups := s.groups[g := s.groups[g].(word := s.groups[g].word.(free := 0))])
  }

  /** Moves the kept private copy of `p` into a drop. */
  function BeginDrop(s: State, p: nat, resume: bool): State
    requires p in s.cpus && s.cpus[p].guard.Some?
  {
    var priv := s.cpus[p].guard.value;
    SetCpu(s.(owner := s.owner[priv.group := Temp(p)]), p, Cpu(None, DropL1(priv, 0, resume)))
  }

  ghost predicate Shape(priv: Private) {
    && priv.group < SUPER_GROUP_SIZE && |priv.mask| == 8 && |priv.l1| == 8 && |priv.addr| == 8
    && (forall c :: 0 <= c < 8 ==> priv.addr[c] < SLOTS)
    && (forall c :: 0 <= c < 8 ==> priv.l1[c] >= 0)
  }

  ghost predicate GroupShape(grp: Group) {
    && |grp.word.plugged| == 8 && |grp.l1| == 8 && |grp.used| == 8 && |grp.addr| == 8
    && (forall c :: 0 <= c < 8 ==> grp.addr[c] < SLOTS)
  }

  function PcPriv(pc: Pc): Option<Private> {
    match pc
    case BuildL1(priv, _, _) => Some(priv)
    case BuildAddr(priv, _, _) => Some(priv)
    case DropL1(priv, _, _) => Some(priv)
    case DropL2(priv, _) => Some(priv)
    case Unplug(priv, _, _) => Some(priv)
    case Store(priv, _, _) => Some(priv)
    case Add(priv, _, _) => Some(priv)
    case Cas(priv, _) => Some(priv)
    case Panicked(priv) => Some(priv)
    case _ => None
  }

  /** The counters and indices of a program point are in range. */
  ghost predicate PcShape(pc: Pc) {
    && (PcPriv(pc).Some? ==> Shape(PcPriv(pc).value) && (pc.Panicked? || PcPriv(pc).value.free >= 0))
    && match pc
       case Scan(c, i) => c < 8 && i < 8
       case Take(c, f) => c < 8 && f < CHUNK_SIZE
       case RefreshL1(k, _) => k < 8
       case PlugAsk(c) => c < 8
       case PlugMap(c) => c < 8
       case BuildL1(_, k, _) => k < 8
       case BuildAddr(_, k, _) => k < 8
       case DropL1(_, k, _) => k < 8
       case Unplug(_, k, _) => k < 8
       case Store(_, k, _) => k < 8
       case Add(_, k, _) => k < 8
       case FreeMap(f) => f.0 < SLOTS && f.1 < CHUNK_SIZE
       case FreeClear(f, g, c) => f.0 < SLOTS && f.1 < CHUNK_SIZE && g < SUPER_GROUP_SIZE && c < 8
       case FreeL1(g, c) => g < SUPER_GROUP_SIZE && c < 8
       case FreeL2(g, c, _) => g < SUPER_GROUP_SIZE && c < 8
       case FreeClaim(g) => g < SUPER_GROUP_SIZE
       case _ => true
  }

  /** Between `get_or_insert_with` and the return the guard is filled. */
  predicate NeedsGuard(pc: Pc) {
    pc.Choose? || pc.Scan? || pc.Take? || pc.RefreshL1? || pc.RefreshL2? || pc.PlugAsk? || pc.PlugMap?
  }

  predicate NeedsNoGuard(pc: Pc) {
    || pc.Claim?
    || ((pc.BuildL1? || pc.BuildAddr?) && pc.keep)
    || ((pc.DropL1? || pc.DropL2? || pc.Unplug? || pc.Store? || pc.Add? || pc.Cas?) && pc.resume)
  }

  ghost predicate CpuShape(cpu: Cpu) {
    && PcShape(cpu.pc)
    && (cpu.guard.Some? ==> Shape(cpu.guard.value) && cpu.guard.value.free >= 0)
    && (NeedsGuard(cpu.pc) ==> cpu.guard.Some?)
    && (NeedsNoGuard(cpu.pc) ==> cpu.guard.None?)
  }

  ghost predicate Typed(s: State) {
    && |s.groups| == SUPER_GROUP_SIZE && |s.rmap| == SLOTS
    && (forall g {:trigger GroupShape(s.groups[g])} :: 0 <= g < |s.groups| ==> GroupShape(s.groups[g]))
    && (forall i :: 0 <= i < |s.rmap| ==> s.rmap[i].0 < SUPER_GROUP_SIZE && s.rmap[i].1 < 8)
    && (forall p {:trigger CpuShape(s.cpus[p])} :: p in s.cpus ==> CpuShape(s.cpus[p]))
    && (forall x :: x in s.pool ==> x < SLOTS)
    && (forall f :: f in s.out ==> f.0 < SLOTS && f.1 < CHUNK_SIZE)
  }

  function PcGroup(pc: Pc): Option<nat> {
    match pc
    case FreeClear(_, g, _) => Some(g)
    case FreeL1(g, _) => Some(g)
    case FreeL2(g, _, _) => Some(g)
    case FreeClaim(g) => Some(g)
    case _ => if PcPriv(pc).Some? then Some(PcPriv(pc).value.group) else None
  }

  /** What the next action of CPU `p` needs to know about its own data. */
  ghost predicate Here(s: State, p: nat) {
    && |s.groups| == SUPER_GROUP_SIZE && |s.rmap| == SLOTS
    && p in s.cpus && CpuShape(s.cpus[p])
    && (s.cpus[p].guard.Some? ==> GroupShape(s.groups[s.cpus[p].guard.value.group]))
    && (PcGroup(s.cpus[p].pc).Some? ==>
          PcGroup(s.cpus[p].pc).value < SUPER_GROUP_SIZE && GroupShape(s.groups[PcGroup(s.cpus[p].pc).value]))
  }

  lemma TypedHere(s: State, p: nat)
    requires Typed(s) && p in s.cpus
    ensures Here(s, p)
  {
    var cpu := s.cpus[p];
    assert CpuShape(cpu);
    if cpu.guard.Some? { assert GroupShape(s.groups[cpu.guard.value.group]); }
    if PcGroup(cpu.pc).Some? { assert GroupShape(s.groups[PcGroup(cpu.pc).value]); }
  }

  /** The state after CPU `p` takes action `a`. */
  ghost function Apply(s: State, p: nat, a: Action): (r: State)
    requires Typed(s) && Enabled(s, p, a)
    ensures |r.groups| == |s.groups| && p in r.cpus
  {
    TypedHere(s, p);
    var cpu := s.cpus[p];
    match cpu.pc
    case Idle =>
      (match a
       case StartAlloc => SetPc(s, p, if cpu.guard.None? then Claim else Choose)
       case StartFree(f) => SetPc(s, p, FreeMap(f))
       case _ => BeginDrop(s, p, false))
    case Claim => DoClaim(s, p, a.g, true)
    case Choose => DoChoose(s, p)
    case Scan(c, i) => DoScan(s, p, c, i)
    case Take(c, f) => DoTake(s, p, c, f)
    case RefreshL1(k, any) => DoRefreshL1(s, p, k, any)
    case RefreshL2(any) => DoRefreshL2(s, p, any)
    case PlugAsk(c) => DoPlug(s, p, c, a.slot)
    case PlugMap(c) => DoMap(s, p, c)
    case BuildL1(priv, k, keep) => DoBuildL1(s, p, priv, k, keep)
    case BuildAddr(priv, k, keep) => DoBuildAddr(s, p, priv, k, keep)
    case _ => ApplyRest(s, p, a)
  }

  /** The steps of giving a group up and of returning a frame. */
  ghost function ApplyRest(s: State, p: nat, a: Action): (r: State)
    requires Typed(s) && Enabled(s, p, a)
    ensures |r.groups| == |s.groups| && p in r.cpus
  {
    TypedHere(s, p);
    match s.cpus[p].pc
    case DropL1(priv, k, resume) => DoDropL1(s, p, priv, k, resume)
    case DropL2(priv, resume) => DoDropL2(s, p, priv, resume)
    case Unplug(priv, k, resume) => DoUnplug(s, p, priv, k, resume)
    case Store(priv, k, resume) => DoStore(s, p, priv, k, resume)
    case Add(priv, k, resume) => DoAdd(s, p, priv, k, resume)
    case Cas(priv, resume) => DoCas(s, p, priv, resume)
    case FreeMap(f) => SetPc(s, p, FreeClear(f, s.rmap[f.0].0, s.rmap[f.0].1))
    case FreeClear(f, g, c) => DoFreeClear(s, p, f, g, c)
    case FreeL1(g, c) => DoFreeL1(s, p, g, c)
    case FreeL2(g, c, full) => DoFreeL2(s, p, g, c, full)
    case FreeClaim(g) => if a.GiveUp? then SetPc(s, p, Idle) else DoClaim(s, p, g, false)
    case _ => s
  }

  /** The head of the inner loop: the first counted chunk, or a refresh. */
  ghost function DoChoose(s: State, p: nat): State
    requires Here(s, p) && s.cpus[p].pc.Choose?
  {
    var priv := s.cpus[p].guard.value;
    var c := FirstCounted(priv.l1, 0);
    SetPc(s, p, if priv.free > 0 && c.Some? then Scan(c.value, 0) else RefreshL1(0, false))
  }

  /** `find_free`: load one 64-bit word of the bitmap. */
  ghost function DoScan(s: State, p: nat, c: nat, i: nat): State
    requires Here(s, p) && s.cpus[p].pc == Scan(c, i)
  {
    var used := s.groups[s.cpus[p].guard.value.group].used[c];
    var bit := LowestClear(used, 64 * i, 64 * i + 64);
    SetPc(s, p, if bit.Some? then Take(c, bit.value) else if i + 1 < 8 then Scan(c, i + 1) else Unreachable)
  }

  /** `find_free`: the `fetch_or`, then the private counters and the return. */
  ghost function DoTake(s: State, p: nat, c: nat, f: nat): State
    requires Here(s, p) && s.cpus[p].pc == Take(c, f)
  {
    var priv := s.cpus[p].guard.value;
    var grp := s.groups[priv.group];
    SetCpu(s.(groups := s.groups[priv.group := grp.(used := grp.used[c := grp.used[c] + {f}])],
              out := s.out + {(priv.addr[c], f)}),
           p, Cpu(Some(priv.(l1 := priv.l1[c := priv.l1[c] - 1], free := priv.free - 1)), Idle))
  }

  /** `refresh`: one level-1 counter. */
  ghost function DoRefreshL1(s: State, p: nat, k: nat, any: bool): State
    requires Here(s, p) && s.cpus[p].pc == RefreshL1(k, any)
  {
    var priv := s.cpus[p].guard.value;
    var grp := s.groups[priv.group];
    var any' := any || grp.l1[k] != 0;
    SetCpu(SwapOut(s, priv.group, k), p,
           Cpu(Some(Swapped(priv, grp, k)), if k + 1 < 8 then RefreshL1(k + 1, any') else RefreshL2(any')))
  }

  /** `refresh`: the level-2 word; then use what came in, plug, or give up. */
  ghost function DoRefreshL2(s: State, p: nat, any: bool): State
    requires Here(s, p) && s.cpus[p].pc == RefreshL2(any)
  {
    var priv := s.cpus[p].guard.value;
    var free := s.groups[priv.group].word.free;
    var priv' := priv.(free := priv.free + free);
    var t := SetCpu(TakeFree(s, priv.group), p, s.cpus[p].(guard := Some(priv')));
    var c := FirstZero(priv.mask, 0);
    if any || free != 0 then SetPc(t, p, Choose)
    else if c.Some? then SetPc(t, p, PlugAsk(c.value))
    else BeginDrop(t, p, true)
  }

  /** A slot arrives from the supervisor and becomes chunk `c`. */
  ghost function DoPlug(s: State, p: nat, c: nat, slot: nat): State
    requires Here(s, p) && s.cpus[p].pc == PlugAsk(c)
  {
    var priv := s.cpus[p].guard.value;
    var priv' := priv.(addr := priv.addr[c := slot], mask := priv.mask[c := true],
                       l1 := priv.l1[c := CHUNK_SIZE], free := priv.free + CHUNK_SIZE);
    SetCpu(s.(pool := s.pool - {slot}, plug := s.plug[(priv.group, c) := slot]), p, Cpu(Some(priv'), PlugMap(c)))
  }

  /** `REVERSE_MAP.set`. */
  ghost function DoMap(s: State, p: nat, c: nat): State
    requires Here(s, p) && s.cpus[p].pc == PlugMap(c)
  {
    var priv := s.cpus[p].guard.value;
    SetPc(s.(rmap := s.rmap[priv.addr[c] := (priv.group, c)]), p, Choose)
  }

  ghost function DoBuildL1(s: State, p: nat, priv: Private, k: nat, keep: bool): State
    requires Here(s, p) && s.cpus[p].pc == BuildL1(priv, k, keep)
  {
    var priv' := Swapped(priv, s.groups[priv.group], k);
    SetPc(SwapOut(s, priv.group, k), p, if k + 1 < 8 then BuildL1(priv', k + 1, keep) else BuildAddr(priv', 0, keep))
  }

  ghost function DoBuildAddr(s: State, p: nat, priv: Private, k: nat, keep: bool): State
    requires Here(s, p) && s.cpus[p].pc == BuildAddr(priv, k, keep)
  {
    var priv' := priv.(addr := priv.addr[k := s.groups[priv.group].addr[k]]);
    if k + 1 < 8 then SetPc(s, p, BuildAddr(priv', k + 1, keep))
    else if keep then SetCpu(s.(owner := s.owner[priv.group := Guard(p)]), p, Cpu(Some(priv'), Choose))
    else SetPc(s, p, DropL1(priv', 0, false))
  }

  ghost function DoDropL1(s: State, p: nat, priv: Private, k: nat, resume: bool): State
    requires Here(s, p) && s.cpus[p].pc == DropL1(priv, k, resume)
  {
    var priv' := Swapped(priv, s.groups[priv.group], k);
    SetPc(SwapOut(s, priv.group, k), p, if k + 1 < 8 then DropL1(priv', k + 1, resume) else DropL2(priv', resume))
  }

  ghost function DoDropL2(s: State, p: nat, priv: Private, resume: bool): State
    requires Here(s, p) && s.cpus[p].pc == DropL2(priv, resume)
  {
    SetPc(TakeFree(s, priv.group), p, Unplug(priv.(free := priv.free + s.groups[priv.group].word.free), 0, resume))
  }

  /** One round of the hot-unplug loop, guard as written in the source. The
      guard says `free < CHUNK_SIZE`, so the subtraction that follows always
      leaves the range of u32 and, with overflow checks on, panics. */
  ghost function DoUnplug(s: State, p: nat, priv: Private, k: nat, resume: bool): State
    requires Here(s, p) && s.cpus[p].pc == Unplug(priv, k, resume)
  {
    if priv.free < CHUNK_SIZE && priv.l1[k] == CHUNK_SIZE then
      // the slot is returned before the subtraction is evaluated
      var priv' := priv.(l1 := priv.l1[k := 0], mask := priv.mask[k := false], free := priv.free - CHUNK_SIZE);
      SetPc(s.(pool := s.pool + {priv.addr[k]}, plug := s.plug - {(priv.group, k)}), p, Panicked(priv'))
    else
      SetPc(s, p, if k + 1 < 8 then Unplug(priv, k + 1, resume) else Store(priv, 0, resume))
  }

  /** Write back the slot of chunk `k`, then its counter. */
  ghost function DoStore(s: State, p: nat, priv: Private, k: nat, resume: bool): State
    requires Here(s, p) && s.cpus[p].pc == Store(priv, k, resume)
  {
    var grp := s.groups[priv.group];
    SetPc(s.(groups := s.groups[priv.group := grp.(addr := grp.addr[k := priv.addr[k]])]), p, Add(priv, k, resume))
  }

  ghost function DoAdd(s: State, p: nat, priv: Private, k: nat, resume: bool): State
    requires Here(s, p) && s.cpus[p].pc == Add(priv, k, resume)
  {
    var grp := s.groups[priv.group];
    var priv' := priv.(l1 := priv.l1[k := 0]);  // handed over, not read again
    SetPc(s.(groups := s.groups[priv.group := grp.(l1 := grp.l1[k := grp.l1[k] + priv.l1[k]])]), p,
          if k + 1 < 8 then Store(priv', k + 1, resume) else Cas(priv', resume))
  }

  /** The compare-exchange that gives the group up. */
  ghost function DoCas(s: State, p: nat, priv: Private, resume: bool): State
    requires Here(s, p) && s.cpus[p].pc == Cas(priv, resume)
  {
    var grp := s.groups[priv.group];
    SetPc(s.(groups := s.groups[priv.group := grp.(word := L2Word(grp.word.free + priv.free, false, priv.mask))],
             owner := s.owner - {priv.group}), p, if resume then Claim else Idle)
  }

  /** The `fetch_and` that clears the bit; a CPU that owns the group then counts
      the frame privately, any other CPU goes on to the shared counters. */
  ghost function DoFreeClear(s: State, p: nat, f: Frame, g: nat, c: nat): State
    requires Here(s, p) && s.cpus[p].pc == FreeClear(f, g, c)
  {
    var cpu := s.cpus[p];
    var grp := s.groups[g];
    var t := s.(groups := s.groups[g := grp.(used := grp.used[c := grp.used[c] - {f.1}])], out := s.out - {f});
    if cpu.guard.Some? && cpu.guard.value.group == g then
      var priv := cpu.guard.value;
      SetCpu(t, p, Cpu(Some(priv.(l1 := priv.l1[c := priv.l1[c] + 1], free := priv.free + 1)), Idle))
    else SetPc(t, p, FreeL1(g, c))
  }

  /** The `fetch_add` on the chunk's counter. */
  ghost function DoFreeL1(s: State, p: nat, g: nat, c: nat): State
    requires Here(s, p) && s.cpus[p].pc == FreeL1(g, c)
  {
    var grp := s.groups[g];
    SetPc(s.(groups := s.groups[g := grp.(l1 := grp.l1[c := grp.l1[c] + 1])]), p, FreeL2(g, c, grp.l1[c] + 1 == CHUNK_SIZE))
  }

  /** The `fetch_add` on the group's word; a chunk that became unused is followed up. */
  ghost function DoFreeL2(s: State, p: nat, g: nat, c: nat, full: bool): State
    requires Here(s, p) && s.cpus[p].pc == FreeL2(g, c, full)
  {
    var grp := s.groups[g];
    SetPc(s.(groups := s.groups[g := grp.(word := grp.word.(free := grp.word.free + 1))]), p,
          if full then FreeClaim(g) else Idle)
  }

  // ----- runs -----

  ghost predicate Initial(s: State) {
    && Typed(s)
    && (forall g :: 0 <= g < |s.groups| ==> s.groups[g] == Group(L2Word(0, false, NO_PLUGGED), ZEROS, NO_USED, ZEROS))
    && (forall p :: p in s.cpus ==> s.cpus[p] == Cpu(None, Idle))
    && s.owner == map[] && s.plug == map[] && s.out == {}
  }

  datatype Label = Label(cpu: nat, action: Action)

  /** `t` is reached from `s` by the labelled actions, in order. */
  ghost predicate Run(s: State, labels: seq<Label>, t: State)
    decreases |labels|
  {
    if labels == [] then s == t
    else
      && Typed(s) && Enabled(s, labels[0].cpu, labels[0].action)
      && Run(Apply(s, labels[0].cpu, labels[0].action), labels[1..], t)
  }
}
