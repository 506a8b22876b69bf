/** The supervisor's bitmap of 2 MiB slots. */
module SlotAllocator {

  const SLOTS: nat := 32768
  const BITMAP_SIZE: nat := SLOTS / 8
  /** `SlotIndex::new` refuses this value and above. */
  const INDEX_LIMIT: nat := 0xffff / 2

  /** One byte of the bitmap, lowest bit first. */
  type Bits = b: seq<bool> | |b| == 8 witness seq(8, _ => false)

  datatype Outcome = Full | Slot(index: nat) | Panic(index: nat)

  ghost predicate IsFull(b: Bits) {
    forall k | 0 <= k < 8 :: b[k]
  }

  ghost predicate OnlyLastClear(b: Bits) {
    !b[7] && forall k | 0 <= k < 7 :: b[k]
  }

  /** The k-th byte looked at by a search that starts at `start`. */
  function Visited(start: nat, k: nat): nat {
    if start + k < BITMAP_SIZE then start + k else start + k - BITMAP_SIZE
  }

  /** `(byte, bit)` is the first clear bit in search order. */
  ghost predicate FirstClear(bitmap: seq<Bits>, start: nat, byte: nat, bit: nat)
    requires |bitmap| == BITMAP_SIZE && start < BITMAP_SIZE && byte < BITMAP_SIZE && bit < 8
  {
    && !bitmap[byte][bit]
    && (forall k | 0 <= k < bit :: bitmap[byte][k])
    && exists steps: nat :: steps < BITMAP_SIZE && FoundAfter(bitmap, start, byte, steps)
  }

  ghost predicate FoundAfter(bitmap: seq<Bits>, start: nat, byte: nat, steps: nat)
    requires |bitmap| == BITMAP_SIZE && start < BITMAP_SIZE && steps < BITMAP_SIZE
  {
    Visited(start, steps) == byte && forall k: nat | k < steps :: IsFull(bitmap[Visited(start, k)])
  }

  /** The set bits as slot numbers. */
  ghost function UsedSlots(bitmap: seq<Bits>): set<nat>
    requires |bitmap| == BITMAP_SIZE
  {
    set slot: nat | slot < SLOTS && bitmap[slot / 8][slot % 8]
  }

  ghost predicate AllUsed(used: set<nat>) {
    forall slot: nat :: slot < SLOTS ==> slot in used
  }

  /** Every byte is visited. */
  lemma AllVisited(start: nat, byte: nat) returns (k: nat)
    requires start < BITMAP_SIZE && byte < BITMAP_SIZE
    ensures k < BITMAP_SIZE && Visited(start, k) == byte
  {
    k := if byte >= start then byte - start else byte + BITMAP_SIZE - start;
  }

  lemma FullUsesAll(bitmap: seq<Bits>)
    requires |bitmap| == BITMAP_SIZE && forall i | 0 <= i < BITMAP_SIZE :: IsFull(bitmap[i])
    ensures AllUsed(UsedSlots(bitmap))
  {
    forall slot: nat | slot < SLOTS ensures bitmap[slot / 8][slot % 8] {
      assert IsFull(bitmap[slot / 8]);
    }
  }

  /** Changing one bit changes one slot. */
  lemma BitSet(before: seq<Bits>, byte: nat, bit: nat, value: bool)
    requires |before| == BITMAP_SIZE && byte < BITMAP_SIZE && bit < 8
    ensures UsedSlots(before[byte := before[byte][bit := value]])
            == if value then UsedSlots(before) + {byte * 8 + bit} else UsedSlots(before) - {byte * 8 + bit}
  {
    var after := before[byte := before[byte][bit := value]];
    forall slot: nat | slot < SLOTS
      ensures after[slot / 8][slot % 8] == if slot == byte * 8 + bit then value else before[slot / 8][slot % 8]
    {
    }
  }

  /** When the search ends at the one slot whose number panics: its bit is clear, the
      rest of its byte is set, and so is every byte from the start of the search on. The
      slots before the start may all be free. */
  lemma PanicsExactly(bitmap: seq<Bits>, start: nat)
    requires |bitmap| == BITMAP_SIZE && start < BITMAP_SIZE
    ensures FirstClear(bitmap, start, INDEX_LIMIT / 8, INDEX_LIMIT % 8) <==>
              && OnlyLastClear(bitmap[BITMAP_SIZE - 1])
              && (forall i: nat | start <= i < BITMAP_SIZE - 1 :: IsFull(bitmap[i]))
  {
    var last := BITMAP_SIZE - 1;
    assert INDEX_LIMIT / 8 == last && INDEX_LIMIT % 8 == 7;
    if forall i: nat | start <= i < last :: IsFull(bitmap[i]) {
      assert FoundAfter(bitmap, start, last, last - start);
    }
    if FirstClear(bitmap, start, last, 7) {
      var steps: nat :| steps < BITMAP_SIZE && FoundAfter(bitmap, start, last, steps);
      forall i: nat | start <= i < last ensures IsFull(bitmap[i]) {
        assert Visited(start, i - start) == i;
      }
    }
  }

  class HostAllocator {
    const bitmap: array<Bits>
    var startOffset: nat

    ghost predicate Valid()
      reads this, bitmap
    {
      bitmap.Length == BITMAP_SIZE && startOffset < BITMAP_SIZE
    }

    ghost function Used(): set<nat>
      requires Valid()
      reads this, bitmap
    {
      UsedSlots(bitmap[..])
    }

    constructor ()
      ensures Valid() && Used() == {} && startOffset == 0 && fresh(bitmap)
    {
      bitmap := new Bits[BITMAP_SIZE](_ => seq(8, _ => false));
      startOffset := 0;
    }

    /** The lowest clear bit of one byte. */
    method FindBit(b: Bits) returns (bit: nat)
      ensures bit <= 8 && (forall k | 0 <= k < bit :: b[k]) && (bit < 8 ==> !b[bit])
    {
      bit := 0;
      while bit < 8 && b[bit]
        invariant bit <= 8 && forall k | 0 <= k < bit :: b[k]
      {
        bit := bit + 1;
      }
    }

    /** `allocate_slot_idx`: fails only when every bit is set; otherwise takes the first
        clear bit in wrap-around order, and panics after setting it when its number is
        beyond the index limit. */
    method AllocateSlot() returns (r: Outcome)
      requires Valid()
      modifies this, bitmap
      ensures Valid()
      ensures r.Full? <==> AllUsed(old(Used()))
      ensures r.Full? ==> Used() == old(Used()) && startOffset == old(startOffset)
      ensures !r.Full? ==>
                && r.index < SLOTS && r.index !in old(Used()) && Used() == old(Used()) + {r.index}
                && startOffset == r.index / 8
                && FirstClear(old(bitmap[..]), old(startOffset), r.index / 8, r.index % 8)
      ensures r.Panic? <==> !r.Full? && r.index >= INDEX_LIMIT
    {
      ghost var before := bitmap[..];
      var k := 0;
      while k < BITMAP_SIZE
        invariant k <= BITMAP_SIZE && bitmap[..] == before && startOffset == old(startOffset)
        invariant forall j: nat | j < k :: IsFull(before[Visited(startOffset, j)])
      {
        var i := Visited(startOffset, k);
        var bit := FindBit(bitmap[i]);
        if bit < 8 {
          assert FoundAfter(before, startOffset, i, k);
          BitSet(before, i, bit, true);
          bitmap[i] := bitmap[i][bit := true];
          assert bitmap[..] == before[i := before[i][bit := true]];
          startOffset := i;
          assert (i * 8 + bit) / 8 == i && (i * 8 + bit) % 8 == bit;
          assert i * 8 + bit !in UsedSlots(before);
          return if i * 8 + bit < INDEX_LIMIT then Slot(i * 8 + bit) else Panic(i * 8 + bit);
        }
        k := k + 1;
      }
      forall i | 0 <= i < BITMAP_SIZE ensures IsFull(before[i]) {
        var j := AllVisited(startOffset, i);
      }
      FullUsesAll(before);
      return Full;
    }

    /** `deallocate_slot_id`; `ok` says that its assertions hold: the index is in range
        and its bit was set. */
    method DeallocateSlot(slot: nat) returns (ok: bool)
      requires Valid()
      modifies bitmap
      ensures Valid() && ok == (slot < INDEX_LIMIT && slot in old(Used()))
      ensures Used() == if ok then old(Used()) - {slot} else old(Used())
    {
      if slot >= INDEX_LIMIT {
        return false;
      }
      ghost var before := bitmap[..];
      var byte, bit := slot / 8, slot % 8;
      ok := bitmap[byte][bit];
      BitSet(before, byte, bit, false);
      if ok {
        bitmap[byte] := bitmap[byte][bit := false];
        assert bitmap[..] == before[byte := before[byte][bit := false]];
      }
    }
  }

  /** Exactly the slots below `n`. */
  ghost predicate JustBelow(used: set<nat>, n: nat) {
    forall slot: nat :: slot in used <==> slot < n
  }

  /** Where the slots below `n` are used and the search starts at or before slot `n`, it
      ends there. */
  lemma NextSlot(bitmap: seq<Bits>, start: nat, n: nat, index: nat)
    requires |bitmap| == BITMAP_SIZE && n < SLOTS && start <= n / 8 && index < SLOTS
    requires JustBelow(UsedSlots(bitmap), n) && FirstClear(bitmap, start, index / 8, index % 8)
    ensures index == n
  {
    assert index !in UsedSlots(bitmap) && n !in UsedSlots(bitmap);
    assert Visited(start, n / 8 - start) == n / 8 && !IsFull(bitmap[n / 8]);
    var steps: nat :| steps < BITMAP_SIZE && FoundAfter(bitmap, start, index / 8, steps);
  }

  /** The panic happens: a new allocator that is only ever asked for slots hands out 0 to
      32766 in turn and then panics on slot 32767. */
  method LastSlotPanics() returns (r: Outcome)
    ensures r == Panic(INDEX_LIMIT)
  {
    var allocator := new HostAllocator();
    var n := 0;
    while n < INDEX_LIMIT
      invariant n <= INDEX_LIMIT && allocator.Valid() && fresh(allocator) && fresh(allocator.bitmap)
      invariant JustBelow(allocator.Used(), n) && allocator.startOffset <= n / 8
    {
      var slot := TakeNext(allocator, n);
      n := n + 1;
    }
    r := TakeNext(allocator, n);
  }

  method TakeNext(allocator: HostAllocator, n: nat) returns (r: Outcome)
    requires allocator.Valid() && n < SLOTS && JustBelow(allocator.Used(), n) && allocator.startOffset <= n / 8
    modifies allocator, allocator.bitmap
    ensures allocator.Valid() && JustBelow(allocator.Used(), n + 1) && allocator.startOffset <= (n + 1) / 8
    ensures r == if n < INDEX_LIMIT then Slot(n) else Panic(n)
  {
    ghost var before, start := allocator.bitmap[..], allocator.startOffset;
    assert n !in allocator.Used();
    r := allocator.AllocateSlot();
    NextSlot(before, start, n, r.index);
  }
}
