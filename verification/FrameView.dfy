/** What one group looks like to the ledger: its shared counters and bitmap, the
    private copy of its owner if it has one, the slots behind its chunks and the
    deallocations that are part-way through. Each action of the allocator is a
    small change of one such view. */
module FrameView {
  import opened Basics
  import opened FrameWord
  import opened FrameAllocator

  /** `at1[c]`: deallocations that cleared a bit of chunk `c` and have not yet
      added to its level-1 counter. `at2`: deallocations that cleared a bit of the
      group and have not yet added to its level-2 word. `shared` and `loaded`: how
      many leading chunks have a current slot in the shared table and in the
      private copy. */
  datatype View = View(
    grp: Group, priv: Option<Private>, slots: seq<Option<nat>>, at1: seq<nat>, at2: nat, shared: nat, loaded: nat)

  ghost function PrivCount(v: View, c: nat): int
    requires v.priv.Some? ==> c < |v.priv.value.l1|
  {
    if v.priv.Some? then v.priv.value.l1[c] else 0
  }

  ghost function PrivFree(v: View): int {
    if v.priv.Some? then v.priv.value.free else 0
  }

  ghost function Mask(v: View): seq<bool> {
    if v.priv.Some? then v.priv.value.mask else v.grp.word.plugged
  }

  /** Clear bits of chunk `c` if it is backed by a slot. */
  ghost function ClearBits(v: View, c: nat): int
    requires c < |v.slots| && c < |v.grp.used|
  {
    if v.slots[c].Some? then CHUNK_SIZE - |v.grp.used[c]| else 0
  }

  ghost function TotalClear(v: View, n: nat): int
    requires n <= |v.slots| && n <= |v.grp.used|
  {
    if n == 0 then 0 else TotalClear(v, n - 1) + ClearBits(v, n - 1)
  }

  ghost predicate ViewShape(v: View) {
    && GroupShape(v.grp) && (v.priv.Some? ==> Shape(v.priv.value))
    && |v.slots| == 8 && |v.at1| == 8 && v.shared <= 8 && v.loaded <= 8
  }

  /** Level-1 ledger of chunk `c`. */
  ghost predicate ChunkLedger(v: View, c: nat)
    requires ViewShape(v) && c < 8
  {
    PrivCount(v, c) + v.grp.l1[c] + v.at1[c] == ClearBits(v, c)
  }

  /** Level-2 ledger of the group. */
  ghost predicate GroupLedger(v: View)
    requires ViewShape(v)
  {
    PrivFree(v) + v.grp.word.free + v.at2 == TotalClear(v, 8)
  }

  ghost predicate BitsOk(v: View, c: nat)
    requires ViewShape(v) && c < 8
  {
    && (forall f :: f in v.grp.used[c] ==> f < CHUNK_SIZE)
    && (v.slots[c].None? ==> v.grp.used[c] == {})
    && v.slots[c].Some? == Mask(v)[c]
  }

  ghost predicate AddrOk(v: View, c: nat)
    requires ViewShape(v) && c < 8
  {
    v.slots[c].Some? ==>
      && (c < v.shared ==> v.grp.addr[c] == v.slots[c].value)
      && (v.priv.Some? && c < v.loaded ==> v.priv.value.addr[c] == v.slots[c].value)
  }

  ghost predicate ChunkInv(v: View, c: nat)
    requires ViewShape(v) && c < 8
  {
    ChunkLedger(v, c) && BitsOk(v, c) && AddrOk(v, c)
  }

  ghost predicate LocalInv(v: View) {
    && ViewShape(v)
    && v.grp.word.owned == v.priv.Some?
    && (v.priv.None? ==> v.shared == 8)
    && (forall c {:trigger ChunkInv(v, c)} :: 0 <= c < 8 ==> ChunkInv(v, c))
    && GroupLedger(v)
  }

  // ----- sums -----

  lemma {:induction false} TotalSame(v: View, w: View, n: nat)
    requires n <= |v.slots| && n <= |v.grp.used| && n <= |w.slots| && n <= |w.grp.used|
    requires forall c :: 0 <= c < n ==> ClearBits(v, c) == ClearBits(w, c)
    ensures TotalClear(v, n) == TotalClear(w, n)
  {
    if n > 0 { TotalSame(v, w, n - 1); }
  }

  /** Changing one chunk changes the total by that chunk's difference. */
  lemma {:induction false} TotalChange(v: View, w: View, c: nat, n: nat)
    requires c < n <= |v.slots| && n <= |v.grp.used| && n <= |w.slots| && n <= |w.grp.used|
    requires forall i :: 0 <= i < n && i != c ==> ClearBits(v, i) == ClearBits(w, i)
    ensures TotalClear(w, n) == TotalClear(v, n) - ClearBits(v, c) + ClearBits(w, c)
  {
    if n - 1 == c { TotalSame(v, w, c); } else { TotalChange(v, w, c, n - 1); }
  }

  lemma {:induction false} TotalBounds(v: View, n: nat, c: nat)
    requires c < n <= |v.slots| && n <= |v.grp.used|
    requires forall i :: 0 <= i < n ==> 0 <= ClearBits(v, i) <= CHUNK_SIZE
    ensures ClearBits(v, c) <= TotalClear(v, n) <= n * CHUNK_SIZE
  {
    if n == 1 { assert TotalClear(v, 0) == 0; }
    else if n - 1 == c { TotalBounds(v, n - 1, 0); TotalNonNeg(v, n - 1); }
    else { TotalBounds(v, n - 1, c); }
  }

  lemma {:induction false} TotalNonNeg(v: View, n: nat)
    requires n <= |v.slots| && n <= |v.grp.used|
    requires forall i :: 0 <= i < n ==> 0 <= ClearBits(v, i)
    ensures 0 <= TotalClear(v, n)
  {
    if n > 0 { TotalNonNeg(v, n - 1); }
  }

  lemma ClearBounds(v: View)
    requires LocalInv(v)
    ensures forall c :: 0 <= c < 8 ==> 0 <= ClearBits(v, c) <= CHUNK_SIZE
    ensures forall c :: 0 <= c < 8 ==> |v.grp.used[c]| <= CHUNK_SIZE
    ensures 0 <= TotalClear(v, 8) <= 8 * CHUNK_SIZE
  {
    forall c | 0 <= c < 8
      ensures 0 <= ClearBits(v, c) <= CHUNK_SIZE && |v.grp.used[c]| <= CHUNK_SIZE
    {
      assert ChunkInv(v, c);
      BelowSize(v.grp.used[c], CHUNK_SIZE);
    }
    TotalBounds(v, 8, 0);
  }

  /** Every count of a group is bounded by the bits it counts, and the 13-bit
      field can take one more deallocation that is under way. */
  lemma CountBounds(v: View)
    requires LocalInv(v) && PrivFree(v) >= -CHUNK_SIZE
    ensures forall c :: 0 <= c < 8 ==> v.grp.l1[c] + v.at1[c] <= CHUNK_SIZE && PrivCount(v, c) <= CHUNK_SIZE
    ensures v.grp.word.free + v.at2 < FREE_LIMIT
    ensures PrivFree(v) + v.grp.word.free <= 8 * CHUNK_SIZE
  {
    ClearBounds(v);
    forall c | 0 <= c < 8
      ensures v.grp.l1[c] + v.at1[c] <= CHUNK_SIZE && PrivCount(v, c) <= CHUNK_SIZE
    {
      assert ChunkInv(v, c);
    }
  }

  // ----- the changes -----

  function VClaim(v: View, g: nat): View {
    v.(grp := v.grp.(word := v.grp.word.(free := 0, owned := true)),
       priv := Some(Private(g, v.grp.word.plugged, v.grp.word.free, ZEROS, ZEROS)), loaded := 0)
  }

  lemma ClaimKeeps(v: View, g: nat)
    requires LocalInv(v) && v.priv.None? && g < SUPER_GROUP_SIZE
    ensures LocalInv(VClaim(v, g))
  {
    var w := VClaim(v, g);
    TotalSame(v, w, 8);
    forall c | 0 <= c < 8 ensures ChunkInv(w, c) { assert ChunkInv(v, c); }
  }

  ghost function VSwap(v: View, k: nat): View
    requires ViewShape(v) && v.priv.Some? && k < 8
  {
    v.(grp := v.grp.(l1 := v.grp.l1[k := 0]), priv := Some(Swapped(v.priv.value, v.grp, k)))
  }

  lemma SwapKeeps(v: View, k: nat)
    requires LocalInv(v) && v.priv.Some? && k < 8
    ensures LocalInv(VSwap(v, k))
  {
    var w := VSwap(v, k);
    TotalSame(v, w, 8);
    forall c | 0 <= c < 8 ensures ChunkInv(w, c) { assert ChunkInv(v, c); }
  }

  ghost function VTakeFree(v: View): View
    requires v.priv.Some?
  {
    v.(grp := v.grp.(word := v.grp.word.(free := 0)),
       priv := Some(v.priv.value.(free := v.priv.value.free + v.grp.word.free)))
  }

  lemma TakeFreeKeeps(v: View)
    requires LocalInv(v) && v.priv.Some?
    ensures LocalInv(VTakeFree(v))
  {
    var w := VTakeFree(v);
    TotalSame(v, w, 8);
    forall c | 0 <= c < 8 ensures ChunkInv(w, c) { assert ChunkInv(v, c); }
  }

  ghost function VTake(v: View, c: nat, f: nat): View
    requires ViewShape(v) && v.priv.Some? && c < 8
  {
    var priv := v.priv.value;
    v.(grp := v.grp.(used := v.grp.used[c := v.grp.used[c] + {f}]),
       priv := Some(priv.(l1 := priv.l1[c := priv.l1[c] - 1], free := priv.free - 1)))
  }

  lemma TakeKeeps(v: View, c: nat, f: nat)
    requires LocalInv(v) && v.priv.Some? && c < 8 && f < CHUNK_SIZE
    requires f !in v.grp.used[c] && v.priv.value.l1[c] > 0
    ensures v.slots[c].Some?
    ensures LocalInv(VTake(v, c, f))
  {
    var w := VTake(v, c, f);
    assert ChunkInv(v, c);
    TotalChange(v, w, c, 8);
    forall i | 0 <= i < 8 ensures ChunkInv(w, i) { assert ChunkInv(v, i); }
  }

  ghost function VPlug(v: View, c: nat, slot: nat): View
    requires ViewShape(v) && v.priv.Some? && c < 8
  {
    var priv := v.priv.value;
    v.(slots := v.slots[c := Some(slot)],
       priv := Some(priv.(addr := priv.addr[c := slot], mask := priv.mask[c := true],
                          l1 := priv.l1[c := CHUNK_SIZE], free := priv.free + CHUNK_SIZE)))
  }

  lemma PlugKeeps(v: View, c: nat, slot: nat)
    requires LocalInv(v) && v.priv.Some? && c < 8 && slot < SLOTS && !v.priv.value.mask[c] && v.shared == 0
    ensures LocalInv(VPlug(v, c, slot))
  {
    var w := VPlug(v, c, slot);
    assert ChunkInv(v, c);
    TotalChange(v, w, c, 8);
    forall i | 0 <= i < 8 ensures ChunkInv(w, i) { assert ChunkInv(v, i); }
  }

  ghost function VUnplug(v: View, c: nat): View
    requires ViewShape(v) && v.priv.Some? && c < 8
  {
    var priv := v.priv.value;
    v.(slots := v.slots[c := None],
       priv := Some(priv.(l1 := priv.l1[c := 0], mask := priv.mask[c := false], free := priv.free - CHUNK_SIZE)))
  }

  /** A chunk whose private count is full has every bit clear and nothing pending. */
  lemma UnplugKeeps(v: View, c: nat)
    requires LocalInv(v) && v.priv.Some? && c < 8 && v.priv.value.l1[c] == CHUNK_SIZE
    ensures v.slots[c].Some? && v.grp.used[c] == {}
    ensures LocalInv(VUnplug(v, c))
  {
    var w := VUnplug(v, c);
    assert ChunkInv(v, c);
    assert |v.grp.used[c]| == 0;
    TotalChange(v, w, c, 8);
    forall i | 0 <= i < 8 ensures ChunkInv(w, i) { assert ChunkInv(v, i); }
  }

  /** The shared slot table is no longer relied on once the copy is complete. */
  lemma ForgetShared(v: View)
    requires LocalInv(v) && v.priv.Some?
    ensures LocalInv(v.(shared := 0))
  {
    var w := v.(shared := 0);
    TotalSame(v, w, 8);
    forall c | 0 <= c < 8 ensures ChunkInv(w, c) { assert ChunkInv(v, c); }
  }

  ghost function VLoadAddr(v: View, k: nat): View
    requires ViewShape(v) && v.priv.Some? && k < 8
  {
    v.(priv := Some(v.priv.value.(addr := v.priv.value.addr[k := v.grp.addr[k]])), loaded := k + 1)
  }

  lemma LoadAddrKeeps(v: View, k: nat)
    requires LocalInv(v) && v.priv.Some? && k < 8 && v.loaded == k && v.shared == 8
    ensures LocalInv(VLoadAddr(v, k))
  {
    var w := VLoadAddr(v, k);
    TotalSame(v, w, 8);
    forall c | 0 <= c < 8 ensures ChunkInv(w, c) { assert ChunkInv(v, c); }
  }

  ghost function VStore(v: View, k: nat): View
    requires ViewShape(v) && v.priv.Some? && k < 8
  {
    v.(grp := v.grp.(addr := v.grp.addr[k := v.priv.value.addr[k]]), shared := k + 1)
  }

  lemma StoreKeeps(v: View, k: nat)
    requires LocalInv(v) && v.priv.Some? && k < 8 && v.loaded == 8 && v.shared == k
    ensures LocalInv(VStore(v, k))
  {
    var w := VStore(v, k);
    TotalSame(v, w, 8);
    forall c | 0 <= c < 8 ensures ChunkInv(w, c) { assert ChunkInv(v, c); }
  }

  ghost function VAdd(v: View, k: nat): View
    requires ViewShape(v) && v.priv.Some? && k < 8
  {
    v.(grp := v.grp.(l1 := v.grp.l1[k := v.grp.l1[k] + v.priv.value.l1[k]]),
       priv := Some(v.priv.value.(l1 := v.priv.value.l1[k := 0])))
  }

  lemma AddKeeps(v: View, k: nat)
    requires LocalInv(v) && v.priv.Some? && k < 8
    ensures LocalInv(VAdd(v, k))
  {
    var w := VAdd(v, k);
    TotalSame(v, w, 8);
    forall c | 0 <= c < 8 ensures ChunkInv(w, c) { assert ChunkInv(v, c); }
  }

  ghost function VCas(v: View): View
    requires v.priv.Some? && v.priv.value.free >= 0
  {
    v.(grp := v.grp.(word := L2Word(v.grp.word.free + v.priv.value.free, false, v.priv.value.mask)), priv := None)
  }

  lemma CasKeeps(v: View)
    requires LocalInv(v) && v.priv.Some? && v.shared == 8 && v.priv.value.free >= 0
    requires forall c :: 0 <= c < 8 ==> v.priv.value.l1[c] == 0
    ensures LocalInv(VCas(v))
    ensures VCas(v).grp.word.free < FREE_LIMIT
  {
    var w := VCas(v);
    TotalSame(v, w, 8);
    CountBounds(v);
    forall c | 0 <= c < 8 ensures ChunkInv(w, c) { assert ChunkInv(v, c); }
  }

  /** A bit is cleared; the freeing CPU is now between its bit and its counters. */
  ghost function VFreeClear(v: View, c: nat, f: nat): View
    requires ViewShape(v) && c < 8
  {
    v.(grp := v.grp.(used := v.grp.used[c := v.grp.used[c] - {f}]), at1 := v.at1[c := v.at1[c] + 1], at2 := v.at2 + 1)
  }

  lemma FreeClearKeeps(v: View, c: nat, f: nat)
    requires LocalInv(v) && c < 8 && f in v.grp.used[c]
    ensures LocalInv(VFreeClear(v, c, f))
  {
    var w := VFreeClear(v, c, f);
    assert ChunkInv(v, c);
    TotalChange(v, w, c, 8);
    forall i | 0 <= i < 8 ensures ChunkInv(w, i) { assert ChunkInv(v, i); }
  }

  /** A bit is cleared by the owner, who counts it at once. */
  ghost function VFreeOwn(v: View, c: nat, f: nat): View
    requires ViewShape(v) && v.priv.Some? && c < 8
  {
    var priv := v.priv.value;
    v.(grp := v.grp.(used := v.grp.used[c := v.grp.used[c] - {f}]),
       priv := Some(priv.(l1 := priv.l1[c := priv.l1[c] + 1], free := priv.free + 1)))
  }

  lemma FreeOwnKeeps(v: View, c: nat, f: nat)
    requires LocalInv(v) && v.priv.Some? && c < 8 && f in v.grp.used[c]
    ensures LocalInv(VFreeOwn(v, c, f))
  {
    var w := VFreeOwn(v, c, f);
    assert ChunkInv(v, c);
    TotalChange(v, w, c, 8);
    forall i | 0 <= i < 8 ensures ChunkInv(w, i) { assert ChunkInv(v, i); }
  }

  ghost function VFreeL1(v: View, c: nat): View
    requires ViewShape(v) && c < 8 && v.at1[c] > 0
  {
    v.(grp := v.grp.(l1 := v.grp.l1[c := v.grp.l1[c] + 1]), at1 := v.at1[c := v.at1[c] - 1])
  }

  lemma FreeL1Keeps(v: View, c: nat)
    requires LocalInv(v) && c < 8 && v.at1[c] > 0
    ensures LocalInv(VFreeL1(v, c))
  {
    var w := VFreeL1(v, c);
    TotalSame(v, w, 8);
    forall i | 0 <= i < 8 ensures ChunkInv(w, i) { assert ChunkInv(v, i); }
  }

  ghost function VFreeL2(v: View): View
    requires v.at2 > 0
  {
    v.(grp := v.grp.(word := v.grp.word.(free := v.grp.word.free + 1)), at2 := v.at2 - 1)
  }

  lemma FreeL2Keeps(v: View)
    requires LocalInv(v) && v.at2 > 0
    ensures LocalInv(VFreeL2(v))
  {
    var w := VFreeL2(v);
    TotalSame(v, w, 8);
    forall i | 0 <= i < 8 ensures ChunkInv(w, i) { assert ChunkInv(v, i); }
  }
}
