/** `try_unmap_user_pages`: four nested, clamped loops over the page tables, proved
    equal to one flat loop over the pages of the range. Pages are numbered in address
    order; a page number is four 9-bit table indices. */
module RangeWalk {
  import opened Basics

  const L2_SPAN := 0x200          // pages under one level-2 entry
  const L3_SPAN := 0x4_0000       // pages under one level-3 entry
  const L4_SPAN := 0x800_0000     // pages under one level-4 entry
  const LAST_USER_PAGE: nat := 0x7_ffff_ffff
  /** One more than the largest page number of the whole address space. */
  const PAGES: nat := 0x10_0000_0000

  datatype Bound = Included(page: nat) | Excluded(page: nat) | Unbounded

  /** The first page of the range, before clamping; `PAGES` if there is none. */
  function StartOf(b: Bound): nat {
    match b
    case Included(p) => p
    case Excluded(p) => p + 1
    case Unbounded => 0
  }

  /** One more than the last page of the range, before clamping. */
  function EndOf(b: Bound): nat {
    match b
    case Included(p) => p + 1
    case Excluded(p) => p
    case Unbounded => LAST_USER_PAGE + 1
  }

  /** The pages a caller names. */
  predicate InRange(start: Bound, end: Bound, page: nat) {
    StartOf(start) <= page < EndOf(end) && page <= LAST_USER_PAGE
  }

  // ----- the flat loop -----

  /** The mapped pages of `lo..=hi` in ascending order. */
  ghost function Flat(mapped: set<nat>, lo: nat, hi: int): (r: seq<nat>)
    decreases hi - lo
  {
    if lo > hi then [] else (if lo in mapped then [lo] else []) + Flat(mapped, lo + 1, hi)
  }

  ghost function FlatHead(mapped: set<nat>, lo: nat): seq<nat> {
    if lo in mapped then [lo] else []
  }

  /** The flat list holds the mapped pages of the range and no other. */
  lemma {:induction false} FlatHolds(mapped: set<nat>, lo: nat, hi: int, x: nat)
    ensures x in Flat(mapped, lo, hi) <==> x in mapped && lo <= x <= hi
    decreases hi - lo
  {
    if lo <= hi {
      FlatHolds(mapped, lo + 1, hi, x);
      assert Flat(mapped, lo, hi) == FlatHead(mapped, lo) + Flat(mapped, lo + 1, hi);
      assert x in FlatHead(mapped, lo) <==> x == lo && lo in mapped;
    }
  }

  /** The flat list holds each page once, in ascending order. */
  lemma {:induction false} FlatAscends(mapped: set<nat>, lo: nat, hi: int, i: nat, j: nat)
    requires i < j < |Flat(mapped, lo, hi)|
    ensures lo <= Flat(mapped, lo, hi)[i] < Flat(mapped, lo, hi)[j]
    decreases hi - lo
  {
    var head, rest := FlatHead(mapped, lo), Flat(mapped, lo + 1, hi);
    assert Flat(mapped, lo, hi) == head + rest;
    if i >= |head| {
      FlatAscends(mapped, lo + 1, hi, i - |head|, j - |head|);
    } else {
      FlatHolds(mapped, lo + 1, hi, rest[j - |head|]);
    }
  }

  lemma {:induction false} FlatSplit(mapped: set<nat>, lo: nat, mid: nat, hi: int)
    requires lo <= mid <= hi + 1
    ensures Flat(mapped, lo, mid - 1) + Flat(mapped, mid, hi) == Flat(mapped, lo, hi)
    decreases mid - lo
  {
    if lo < mid { FlatSplit(mapped, lo + 1, mid, hi); }
  }

  lemma {:induction false} FlatAgree(a: set<nat>, b: set<nat>, lo: nat, hi: int)
    requires forall x :: lo <= x <= hi ==> (x in a <==> x in b)
    ensures Flat(a, lo, hi) == Flat(b, lo, hi)
    decreases hi - lo
  {
    if lo <= hi { FlatAgree(a, b, lo + 1, hi); }
  }

  lemma {:induction false} FlatNone(mapped: set<nat>, lo: nat, hi: int)
    requires forall x :: lo <= x <= hi ==> x !in mapped
    ensures Flat(mapped, lo, hi) == []
    decreases hi - lo
  {
    if lo <= hi { FlatNone(mapped, lo + 1, hi); }
  }

  /** The pages of a range, removed. */
  ghost function Without(mapped: set<nat>, lo: nat, hi: int): set<nat> {
    set x | x in mapped && !(lo <= x <= hi)
  }

  /** A stretch without mapped pages can be skipped; one that has been unmapped can
      be appended. */
  lemma Advance(mapped: set<nat>, lo: nat, mid: nat, hi: int)
    requires lo <= mid <= hi + 1
    ensures Without(Without(mapped, lo, mid - 1), mid, hi) == Without(mapped, lo, hi)
    ensures Flat(mapped, lo, mid - 1) + Flat(Without(mapped, lo, mid - 1), mid, hi) == Flat(mapped, lo, hi)
    ensures (forall x :: mid <= x <= hi ==> x !in mapped) ==>
              Without(mapped, lo, mid - 1) == Without(mapped, lo, hi)
  {
    FlatSplit(mapped, lo, mid, hi);
    FlatAgree(Without(mapped, lo, mid - 1), mapped, mid, hi);
  }

  /** The walk from `lo` has come to `at`. */
  ghost predicate Walked(was: set<nat>, now: set<nat>, wasCleared: seq<nat>, cleared: seq<nat>, lo: nat, at: nat) {
    now == Without(was, lo, at - 1) && cleared == wasCleared + Flat(was, lo, at - 1)
  }

  lemma WalkedOn(
    was: set<nat>, before: set<nat>, now: set<nat>, wasCleared: seq<nat>, done: seq<nat>, cleared: seq<nat>,
    lo: nat, start: nat, end: nat)
    requires lo <= start <= end + 1 && Walked(was, before, wasCleared, done, lo, start)
    requires now == Without(before, start, end) && cleared == done + Flat(before, start, end)
    ensures Walked(was, now, wasCleared, cleared, lo, end + 1)
  {
    Advance(was, lo, start, end);
    Regroup(wasCleared, Flat(was, lo, start - 1), Flat(before, start, end));
  }

  // ----- clamping to one table -----

  /** Where the walk stands when it reaches child `k` of a level with this span. */
  function Reached(span: nat, lo: nat, hi: nat, k: nat): nat
    requires span > 0
  {
    if k > hi / span then hi + 1 else Max(lo, k * span)
  }

  /** The clamped piece of `lo..=hi` that lies under child `k`: not empty, inside the
      child, and followed by the piece of the next child. */
  predicate Clamped(span: nat, lo: nat, hi: nat, k: nat)
    requires span > 0
  {
    var start, end := Max(lo, k * span), Min(hi, k * span + span - 1);
    && lo <= start <= end <= hi && start / span == k && end / span == k
    && start == Reached(span, lo, hi, k) && end + 1 == Reached(span, lo, hi, k + 1)
  }

  lemma ClampL2(lo: nat, hi: nat, k: nat)
    requires lo <= hi && lo / L2_SPAN <= k <= hi / L2_SPAN
    ensures Clamped(L2_SPAN, lo, hi, k)
  {
  }

  lemma ClampL3(lo: nat, hi: nat, k: nat)
    requires lo <= hi && lo / L3_SPAN <= k <= hi / L3_SPAN
    ensures Clamped(L3_SPAN, lo, hi, k)
  {
  }

  lemma ClampL4(lo: nat, hi: nat, k: nat)
    requires lo <= hi && lo / L4_SPAN <= k <= hi / L4_SPAN
    ensures Clamped(L4_SPAN, lo, hi, k)
  {
  }

  /** Within one parent the 9-bit index of a page's child is its number less the
      parent's first child. */
  lemma IndexL2(page: nat)
    ensures page / L2_SPAN == page / L3_SPAN * 512 + page / L2_SPAN % 512
  {
  }

  lemma IndexL3(page: nat)
    ensures page / L3_SPAN == page / L4_SPAN * 512 + page / L3_SPAN % 512
  {
  }

  class AddressSpace {
    /** Present page entries, and the present entries of levels 4, 3 and 2, numbered
        by the page-number prefix they stand for. */
    var mapped: set<nat>
    var level4: set<nat>
    var level3: set<nat>
    var level2: set<nat>
    /** Page entries cleared by `try_unmap`, in the order it happened. */
    var cleared: seq<nat>

    /** A mapped page is a user page and has all its tables. */
    ghost predicate Valid()
      reads this
    {
      forall x :: x in mapped ==>
        x <= LAST_USER_PAGE && x / L2_SPAN in level2 && x / L3_SPAN in level3 && x / L4_SPAN in level4
    }

    /** The page-table loop: entries of one level-2 table. */
    method UnmapPages(table: nat, lo: nat, hi: nat)
      requires Valid() && lo <= hi && lo / L2_SPAN == table && hi / L2_SPAN == table
      modifies this`mapped, this`cleared
      ensures Valid()
      ensures mapped == Without(old(mapped), lo, hi)
      ensures cleared == old(cleared) + Flat(old(mapped), lo, hi)
    {
      var i := lo % L2_SPAN;
      while i <= hi % L2_SPAN
        invariant lo <= table * L2_SPAN + i <= hi + 1
        invariant mapped == Without(old(mapped), lo, table * L2_SPAN + i - 1)
        invariant cleared == old(cleared) + Flat(old(mapped), lo, table * L2_SPAN + i - 1)
      {
        var page := table * L2_SPAN + i;
        Advance(old(mapped), lo, page, page);
        assert Flat(mapped, page, page) == if page in mapped then [page] else [];
        if page in mapped {
          mapped := mapped - {page};
          cleared := cleared + [page];
        }
        i := i + 1;
      }
    }

    /** One level-2 entry: a page table, or nothing below it. */
    method UnmapTable(entry: nat, lo: nat, hi: nat)
      requires Valid() && lo <= hi && lo / L2_SPAN == entry && hi / L2_SPAN == entry
      modifies this`mapped, this`cleared
      ensures Valid()
      ensures mapped == Without(old(mapped), lo, hi)
      ensures cleared == old(cleared) + Flat(old(mapped), lo, hi)
    {
      if entry in level2 {
        UnmapPages(entry, lo, hi);
      } else {
        NoneUnder(mapped, level2, lo, hi, L2_SPAN, entry);
      }
    }

    /** The page-directory loop: page tables of one directory. */
    method UnmapTables(directory: nat, lo: nat, hi: nat)
      requires Valid() && lo <= hi && lo / L3_SPAN == directory && hi / L3_SPAN == directory
      modifies this`mapped, this`cleared
      ensures Valid()
      ensures mapped == Without(old(mapped), lo, hi)
      ensures cleared == old(cleared) + Flat(old(mapped), lo, hi)
    {
      IndexL2(lo);
      IndexL2(hi);
      var i := lo / L2_SPAN % 512;
      ghost var at := lo;
      while i <= hi / L2_SPAN % 512
        invariant lo / L2_SPAN <= directory * 512 + i <= hi / L2_SPAN + 1
        invariant Valid()
        invariant lo <= at <= hi + 1 && at == Reached(L2_SPAN, lo, hi, directory * 512 + i)
        invariant Walked(old(mapped), mapped, old(cleared), cleared, lo, at)
      {
        var entry := directory * 512 + i;
        ClampL2(lo, hi, entry);
        var start := Max(lo, entry * L2_SPAN);
        var end := Min(hi, entry * L2_SPAN + L2_SPAN - 1);
        ghost var before, done := mapped, cleared;
        UnmapTable(entry, start, end);
        WalkedOn(old(mapped), before, mapped, old(cleared), done, cleared, lo, start, end);
        at := end + 1;
        i := i + 1;
      }
    }

    /** One level-3 entry. */
    method UnmapDirectory(entry: nat, lo: nat, hi: nat)
      requires Valid() && lo <= hi && lo / L3_SPAN == entry && hi / L3_SPAN == entry
      modifies this`mapped, this`cleared
      ensures Valid()
      ensures mapped == Without(old(mapped), lo, hi)
      ensures cleared == old(cleared) + Flat(old(mapped), lo, hi)
    {
      if entry in level3 {
        UnmapTables(entry, lo, hi);
      } else {
        NoneUnder(mapped, level3, lo, hi, L3_SPAN, entry);
      }
    }

    /** The level-3 loop: directories below one level-4 entry. */
    method UnmapDirectories(upper: nat, lo: nat, hi: nat)
      requires Valid() && lo <= hi && lo / L4_SPAN == upper && hi / L4_SPAN == upper
      modifies this`mapped, this`cleared
      ensures Valid()
      ensures mapped == Without(old(mapped), lo, hi)
      ensures cleared == old(cleared) + Flat(old(mapped), lo, hi)
    {
      IndexL3(lo);
      IndexL3(hi);
      var i := lo / L3_SPAN % 512;
      ghost var at := lo;
      while i <= hi / L3_SPAN % 512
        invariant lo / L3_SPAN <= upper * 512 + i <= hi / L3_SPAN + 1
        invariant Valid()
        invariant lo <= at <= hi + 1 && at == Reached(L3_SPAN, lo, hi, upper * 512 + i)
        invariant Walked(old(mapped), mapped, old(cleared), cleared, lo, at)
      {
        var entry := upper * 512 + i;
        ClampL3(lo, hi, entry);
        var start := Max(lo, entry * L3_SPAN);
        var end := Min(hi, entry * L3_SPAN + L3_SPAN - 1);
        ghost var before, done := mapped, cleared;
        UnmapDirectory(entry, start, end);
        WalkedOn(old(mapped), before, mapped, old(cleared), done, cleared, lo, start, end);
        at := end + 1;
        i := i + 1;
      }
    }

    /** One level-4 entry. */
    method UnmapTopEntry(entry: nat, lo: nat, hi: nat)
      requires Valid() && lo <= hi && lo / L4_SPAN == entry && hi / L4_SPAN == entry
      modifies this`mapped, this`cleared
      ensures Valid()
      ensures mapped == Without(old(mapped), lo, hi)
      ensures cleared == old(cleared) + Flat(old(mapped), lo, hi)
    {
      if entry in level4 {
        UnmapDirectories(entry, lo, hi);
      } else {
        NoneUnder(mapped, level4, lo, hi, L4_SPAN, entry);
      }
    }

    /** The level-4 loop. */
    method UnmapAll(lo: nat, hi: nat)
      requires Valid() && lo <= hi <= LAST_USER_PAGE
      modifies this`mapped, this`cleared
      ensures Valid()
      ensures mapped == Without(old(mapped), lo, hi)
      ensures cleared == old(cleared) + Flat(old(mapped), lo, hi)
    {
      var i := lo / L4_SPAN;
      ghost var at := lo;
      while i <= hi / L4_SPAN
        invariant lo / L4_SPAN <= i <= hi / L4_SPAN + 1
        invariant Valid()
        invariant lo <= at <= hi + 1 && at == Reached(L4_SPAN, lo, hi, i)
        invariant Walked(old(mapped), mapped, old(cleared), cleared, lo, at)
      {
        ClampL4(lo, hi, i);
        var start := Max(lo, i * L4_SPAN);
        var end := Min(hi, i * L4_SPAN + L4_SPAN - 1);
        ghost var before, done := mapped, cleared;
        UnmapTopEntry(i, start, end);
        WalkedOn(old(mapped), before, mapped, old(cleared), done, cleared, lo, start, end);
        at := end + 1;
        i := i + 1;
      }
    }

    /** The whole operation: turn the bounds into a clamped inclusive range, then walk. */
    method TryUnmapUserPages(start: Bound, end: Bound)
      requires Valid()
      modifies this`mapped, this`cleared
      ensures Valid()
      ensures var lo, hi := Min(StartOf(start), LAST_USER_PAGE), Min(EndOf(end), LAST_USER_PAGE + 1) - 1;
              && mapped == Without(old(mapped), lo, hi)
              && cleared == old(cleared) + Flat(old(mapped), lo, hi)
      ensures !(StartOf(start) > LAST_USER_PAGE && EndOf(end) > LAST_USER_PAGE) ==>
                mapped == set x | x in old(mapped) && !InRange(start, end, x)
    {
      RangeExact(start, end);
      var first :=
        match start
        case Included(p) => p
        case Excluded(p) => if p + 1 < PAGES then p + 1 else LAST_USER_PAGE
        case Unbounded => 0;
      first := Min(first, LAST_USER_PAGE);
      if end == Excluded(0) { return; }
      var last :=
        match end
        case Included(p) => p
        case Excluded(p) => p - 1
        case Unbounded => LAST_USER_PAGE;
      last := Min(last, LAST_USER_PAGE);
      if first > last { return; }
      UnmapAll(first, last);
    }
  }

  /** No page is mapped under an absent table entry. */
  lemma NoneUnder(mapped: set<nat>, level: set<nat>, lo: nat, hi: nat, span: nat, entry: nat)
    requires span > 0 && lo <= hi && lo / span == entry && hi / span == entry && entry !in level
    requires forall x :: x in mapped ==> x / span in level
    ensures forall x :: lo <= x <= hi ==> x !in mapped
    ensures Flat(mapped, lo, hi) == []
  {
    forall x | lo <= x <= hi ensures x !in mapped {
      DivBetween(lo, x, hi, span);
    }
    FlatNone(mapped, lo, hi);
  }

  lemma MulMonotone(x: nat, y: nat, s: nat)
    ensures x <= y ==> x * s <= y * s
  {
    if x <= y { assert y * s == x * s + (y - x) * s; }
  }

  lemma DivBetween(a: nat, b: nat, c: nat, span: nat)
    requires span > 0 && a <= b <= c && a / span == c / span
    ensures b / span == a / span
  {
    var q, r := a / span, b / span;
    assert q * span <= a && c < (q + 1) * span;
    assert r * span <= b < (r + 1) * span;
    MulMonotone(q + 1, r, span);
    MulMonotone(r + 1, q, span);
  }

  /** The pages walked are exactly the user pages the caller named, unless the range
      starts above the user half and ends at or above its last page: then the last
      user page is unmapped although the range does not contain it. */
  lemma RangeExact(start: Bound, end: Bound)
    ensures var lo, hi := Min(StartOf(start), LAST_USER_PAGE), Min(EndOf(end), LAST_USER_PAGE + 1) - 1;
            (forall x: nat :: lo <= x <= hi <==> InRange(start, end, x))
            <==> !(StartOf(start) > LAST_USER_PAGE && EndOf(end) > LAST_USER_PAGE)
  {
    var lo, hi := Min(StartOf(start), LAST_USER_PAGE), Min(EndOf(end), LAST_USER_PAGE + 1) - 1;
    if StartOf(start) > LAST_USER_PAGE && EndOf(end) > LAST_USER_PAGE {
      assert lo <= LAST_USER_PAGE <= hi && !InRange(start, end, LAST_USER_PAGE);
    }
  }
}
