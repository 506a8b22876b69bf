/** Where every 2 MiB slot is: the supervisor's bitmap, the allocation buffer, the
    kernel's frame cache and users, and the queued deallocate commands, with any number
    of kernel CPUs running beside the supervisor. Every atomic operation and every lock
    section is one step. */
module SlotLedger {
  import opened SlotAllocator

  const ALLOCATIONS: nat := 32
  const CACHE_CAPACITY: nat := 128
  const EMPTY: nat := 0xffff

  datatype Request = Allocate | Deallocate(slot: nat)

  /** The supervisor between commands, filling the buffer, with a free entry in mind,
      with a fresh slot in hand, or stopped by a failed assertion. */
  datatype Supervisor = Ready | Filling | Found(entry: nat) | Holding(entry: nat, slot: nat) | Panicked

  /** `held` are slots handed out as frames; `transit` are slots a CPU is about to queue
      for deallocation. Both are multisets so that a slot given out twice would show. */
  datatype State = State(
    used: set<nat>,
    entries: seq<nat>,
    supervisor: Supervisor,
    requests: seq<Request>,
    cache: seq<nat>,
    held: multiset<nat>,
    transit: multiset<nat>)

  datatype Action =
    | PopCache
    | SwapEntry(entry: nat)
    | Ask
    | Release(slot: nat)
    | QueueDeallocate(slot: nat)
    | StartFilling
    | FindEntry(entry: nat)
    | StopFilling
    | TakeSlot(slot: nat)
    | SetEntry
    | HandleDeallocate

  /** Buffer entries may be swapped, and found empty, in any order. */
  ghost predicate Enabled(s: State, a: Action) {
    match a
    case PopCache => s.cache != []
    case SwapEntry(j) => j < |s.entries|
    case Ask => true
    case Release(slot) => slot in s.held
    case QueueDeallocate(slot) => slot in s.transit
    case StartFilling => s.supervisor.Ready? && s.requests != [] && s.requests[0].Allocate?
    case FindEntry(j) => s.supervisor.Filling? && j < |s.entries| && s.entries[j] == EMPTY
    case StopFilling => s.supervisor.Filling? || (s.supervisor.Found? && AllUsed(s.used))
    case TakeSlot(slot) => s.supervisor.Found? && slot < SLOTS && slot !in s.used
    case SetEntry => s.supervisor.Holding? && s.supervisor.entry < |s.entries|
    case HandleDeallocate => s.supervisor.Ready? && s.requests != [] && s.requests[0].Deallocate?
  }

  /** `allocate_frame` served from the cache. */
  function DoPopCache(s: State): State
    requires s.cache != []
  {
    var last := |s.cache| - 1;
    s.(cache := s.cache[..last], held := s.held + multiset{s.cache[last]})
  }

  /** One swap of `pop_allocation`. */
  function DoSwapEntry(s: State, j: nat): State
    requires j < |s.entries|
  {
    if s.entries[j] == EMPTY then s
    else s.(entries := s.entries[j := EMPTY], held := s.held + multiset{s.entries[j]})
  }

  /** `deallocate_frame`. */
  function DoRelease(s: State, slot: nat): State
    requires slot in s.held
  {
    if |s.cache| < CACHE_CAPACITY then s.(held := s.held - multiset{slot}, cache := s.cache + [slot])
    else s.(held := s.held - multiset{slot}, transit := s.transit + multiset{slot})
  }

  function DoQueueDeallocate(s: State, slot: nat): State
    requires slot in s.transit
  {
    s.(transit := s.transit - multiset{slot}, requests := s.requests + [Deallocate(slot)])
  }

  /** `allocate_frame` of the host allocator: an index beyond the limit panics after its
      bit was set. */
  function DoTakeSlot(s: State, slot: nat): State
    requires s.supervisor.Found?
  {
    s.(used := s.used + {slot},
       supervisor := if slot < INDEX_LIMIT then Holding(s.supervisor.entry, slot) else Panicked)
  }

  function DoSetEntry(s: State): State
    requires s.supervisor.Holding? && s.supervisor.entry < |s.entries|
  {
    s.(entries := s.entries[s.supervisor.entry := s.supervisor.slot], supervisor := Filling)
  }

  /** `deallocate_frame` of the host allocator with its two assertions. */
  function DoHandleDeallocate(s: State): State
    requires s.requests != [] && s.requests[0].Deallocate?
  {
    var slot := s.requests[0].slot;
    if slot < INDEX_LIMIT && slot in s.used then s.(used := s.used - {slot}, requests := s.requests[1..])
    else s.(supervisor := Panicked)
  }

  function Apply(s: State, a: Action): State
    requires Enabled(s, a)
  {
    match a
    case PopCache => DoPopCache(s)
    case SwapEntry(j) => DoSwapEntry(s, j)
    case Ask => s.(requests := s.requests + [Allocate])
    case Release(slot) => DoRelease(s, slot)
    case QueueDeallocate(slot) => DoQueueDeallocate(s, slot)
    case StartFilling => s.(supervisor := Filling, requests := s.requests[1..])
    case FindEntry(j) => s.(supervisor := Found(j))
    case StopFilling => s.(supervisor := Ready)
    case TakeSlot(slot) => DoTakeSlot(s, slot)
    case SetEntry => DoSetEntry(s)
    case HandleDeallocate => DoHandleDeallocate(s)
  }

  ghost predicate Initial(s: State) {
    && s.used == {} && s.entries == seq(ALLOCATIONS, _ => EMPTY) && s.supervisor.Ready?
    && s.requests == [] && s.cache == [] && s.held == multiset{} && s.transit == multiset{}
  }

  ghost predicate Run(s: State, actions: seq<Action>, t: State)
    decreases |actions|
  {
    if actions == [] then s == t
    else Enabled(s, actions[0]) && Run(Apply(s, actions[0]), actions[1..], t)
  }

  // ----- the ledger -----

  function InEntry(e: nat, slot: nat): nat {
    if e != EMPTY && e == slot then 1 else 0
  }

  /** How many buffer entries name the slot. */
  ghost function InEntries(es: seq<nat>, slot: nat): nat {
    if es == [] then 0 else InEntries(es[1..], slot) + InEntry(es[0], slot)
  }

  function InRequest(r: Request, slot: nat): nat {
    if r == Deallocate(slot) then 1 else 0
  }

  /** How many queued deallocations name the slot. */
  ghost function InRequests(rs: seq<Request>, slot: nat): nat {
    if rs == [] then 0 else InRequests(rs[1..], slot) + InRequest(rs[0], slot)
  }

  function InHand(v: Supervisor, slot: nat): nat {
    if v.Holding? && v.slot == slot then 1 else 0
  }

  /** How often anything outside the bitmap names the slot. */
  ghost function Ledger(s: State, slot: nat): nat {
    InEntries(s.entries, slot) + InHand(s.supervisor, slot) + s.held[slot] + multiset(s.cache)[slot]
    + s.transit[slot] + InRequests(s.requests, slot)
  }

  lemma {:induction false} EntriesUpdate(es: seq<nat>, j: nat, e: nat, slot: nat)
    requires j < |es|
    ensures InEntries(es[j := e], slot) + InEntry(es[j], slot) == InEntries(es, slot) + InEntry(e, slot)
  {
    var updated := es[j := e];
    if j == 0 {
      assert updated[1..] == es[1..];
    } else {
      assert updated[1..] == es[1..][j - 1 := e];
      EntriesUpdate(es[1..], j - 1, e, slot);
    }
  }

  lemma {:induction false} RequestsAppend(rs: seq<Request>, r: Request, slot: nat)
    ensures InRequests(rs + [r], slot) == InRequests(rs, slot) + InRequest(r, slot)
  {
    if rs == [] {
      assert rs + [r] == [r];
    } else {
      assert (rs + [r])[1..] == rs[1..] + [r];
      RequestsAppend(rs[1..], r, slot);
    }
  }

  lemma {:induction false} EntriesEmpty(n: nat, slot: nat)
    ensures InEntries(seq(n, _ => EMPTY), slot) == 0
  {
    if n > 0 {
      assert seq(n, _ => EMPTY)[1..] == seq(n - 1, _ => EMPTY);
      EntriesEmpty(n - 1, slot);
    }
  }

  /** The bitmap and everything that names the slot agree. The one slot beyond the index
      limit is only ever set by the allocation that panics on it. */
  ghost predicate Balanced(s: State, slot: nat) {
    && Ledger(s, slot) == (if slot in s.used && slot != INDEX_LIMIT then 1 else 0)
    && (slot in s.used ==> slot < SLOTS)
  }

  ghost predicate Shape(s: State) {
    && (INDEX_LIMIT in s.used ==> s.supervisor.Panicked?)
    && |s.entries| == ALLOCATIONS
    && |s.cache| <= CACHE_CAPACITY
    && (s.supervisor.Found? || s.supervisor.Holding? ==>
          s.supervisor.entry < |s.entries| && s.entries[s.supervisor.entry] == EMPTY)
  }

  ghost predicate Inv(s: State) {
    Shape(s) && forall slot {:trigger Balanced(s, slot)} :: Balanced(s, slot)
  }

  lemma PopCacheBalanced(s: State, slot: nat)
    requires Balanced(s, slot) && s.cache != []
    ensures Balanced(DoPopCache(s), slot)
  {
    var last := |s.cache| - 1;
    assert s.cache == s.cache[..last] + [s.cache[last]];
  }

  lemma SwapEntryBalanced(s: State, j: nat, slot: nat)
    requires Balanced(s, slot) && j < |s.entries|
    ensures Balanced(DoSwapEntry(s, j), slot)
  {
    EntriesUpdate(s.entries, j, EMPTY, slot);
  }

  lemma SetEntryBalanced(s: State, slot: nat)
    requires Balanced(s, slot) && Enabled(s, SetEntry) && s.entries[s.supervisor.entry] == EMPTY
    requires s.supervisor.slot < INDEX_LIMIT
    ensures Balanced(DoSetEntry(s), slot)
  {
    EntriesUpdate(s.entries, s.supervisor.entry, s.supervisor.slot, slot);
  }

  lemma HandleDeallocateSafe(s: State)
    requires Inv(s) && Enabled(s, HandleDeallocate)
    ensures s.requests[0].slot in s.used && s.requests[0].slot < INDEX_LIMIT
    ensures !DoHandleDeallocate(s).supervisor.Panicked?
  {
    var slot := s.requests[0].slot;
    assert Balanced(s, slot) && InRequest(s.requests[0], slot) == 1;
  }

  lemma HandleDeallocateBalanced(s: State, slot: nat)
    requires Balanced(s, slot) && Enabled(s, HandleDeallocate) && s.requests[0].slot < INDEX_LIMIT
    ensures Balanced(DoHandleDeallocate(s), slot)
  {
    assert InRequests(s.requests, slot) == InRequests(s.requests[1..], slot) + InRequest(s.requests[0], slot);
  }

  lemma ReleaseBalanced(s: State, other: nat, slot: nat)
    requires Balanced(s, slot) && other in s.held
    ensures Balanced(DoRelease(s, other), slot)
  {
    assert multiset(s.cache + [other]) == multiset(s.cache) + multiset{other};
  }

  lemma TakeSlotBalanced(s: State, other: nat, slot: nat)
    requires Balanced(s, slot) && Enabled(s, TakeSlot(other))
    ensures Balanced(DoTakeSlot(s, other), slot)
  {
    assert other >= INDEX_LIMIT ==> other == INDEX_LIMIT;
  }

  lemma StepBalanced(s: State, a: Action, slot: nat)
    requires Inv(s) && Enabled(s, a)
    ensures Balanced(Apply(s, a), slot)
  {
    assert Balanced(s, slot);
    match a
    case PopCache => PopCacheBalanced(s, slot);
    case SwapEntry(j) => SwapEntryBalanced(s, j, slot);
    case Ask => RequestsAppend(s.requests, Allocate, slot);
    case Release(other) => ReleaseBalanced(s, other, slot);
    case QueueDeallocate(other) => RequestsAppend(s.requests, Deallocate(other), slot);
    case StartFilling =>
    case FindEntry(_) =>
    case StopFilling =>
    case TakeSlot(other) => TakeSlotBalanced(s, other, slot);
    case SetEntry =>
      assert Balanced(s, s.supervisor.slot);
      SetEntryBalanced(s, slot);
    case HandleDeallocate =>
      HandleDeallocateSafe(s);
      HandleDeallocateBalanced(s, slot);
  }

  lemma StepKeeps(s: State, a: Action)
    requires Inv(s) && Enabled(s, a)
    ensures Inv(Apply(s, a))
  {
    var r := Apply(s, a);
    forall slot ensures Balanced(r, slot) {
      StepBalanced(s, a, slot);
    }
    if a.HandleDeallocate? {
      HandleDeallocateSafe(s);
    }
  }

  lemma {:induction false} RunKeeps(s: State, actions: seq<Action>, t: State)
    requires Inv(s) && Run(s, actions, t)
    ensures Inv(t)
    decreases |actions|
  {
    if actions != [] {
      StepKeeps(s, actions[0]);
      RunKeeps(Apply(s, actions[0]), actions[1..], t);
    }
  }

  ghost predicate Reachable(t: State) {
    exists s, actions :: Initial(s) && Run(s, actions, t)
  }

  lemma ReachableInv(t: State)
    requires Reachable(t)
    ensures Inv(t)
  {
    var s, actions :| Initial(s) && Run(s, actions, t);
    forall slot ensures Balanced(s, slot) {
      EntriesEmpty(ALLOCATIONS, slot);
    }
    RunKeeps(s, actions, t);
  }

  // ----- the theorems -----

  /** Every slot below the index limit is in exactly one place: clear in the bitmap, or
      named exactly once by a buffer entry, the supervisor's hand, a frame in use, the
      cache, a CPU about to queue it, or a queued deallocation. */
  lemma OnePlace(s: State, slot: nat)
    requires Reachable(s) && slot != INDEX_LIMIT
    ensures Ledger(s, slot) == if slot in s.used then 1 else 0
    ensures slot in s.used ==> slot < INDEX_LIMIT
  {
    ReachableInv(s);
    assert Balanced(s, slot);
  }

  /** The assertion against double frees never fails. */
  lemma NoDoubleFree(s: State)
    requires Reachable(s) && Enabled(s, HandleDeallocate)
    ensures s.requests[0].slot in s.used && s.requests[0].slot < INDEX_LIMIT
    ensures !DoHandleDeallocate(s).supervisor.Panicked?
  {
    ReachableInv(s);
    HandleDeallocateSafe(s);
  }

  /** A fresh slot never overwrites an entry the kernel has yet to take. */
  lemma EntryNotOverwritten(s: State)
    requires Reachable(s) && Enabled(s, SetEntry)
    ensures s.entries[s.supervisor.entry] == EMPTY
  {
    ReachableInv(s);
  }

  /** The supervisor stops on an assertion exactly when it takes the slot at the index
      limit, the last bit of the bitmap. */
  lemma PanicsOnlyOnLastSlot(s: State, a: Action)
    requires Reachable(s) && Enabled(s, a) && !s.supervisor.Panicked?
    ensures Apply(s, a).supervisor.Panicked? <==> a == TakeSlot(INDEX_LIMIT)
  {
    ReachableInv(s);
    if a.HandleDeallocate? {
      HandleDeallocateSafe(s);
    }
  }

  // ----- the panic happens -----

  lemma {:induction false} RunSnoc(s: State, actions: seq<Action>, t: State, a: Action)
    requires Run(s, actions, t) && Enabled(t, a)
    ensures Run(s, actions + [a], Apply(t, a))
    decreases |actions|
  {
    if actions == [] {
      assert Run(Apply(t, a), [], Apply(t, a));
      assert ([a])[1..] == [];
    } else {
      RunSnoc(Apply(s, actions[0]), actions[1..], t, a);
      assert (actions + [a])[1..] == actions[1..] + [a];
    }
  }

  lemma Extend(s: State, a: Action) returns (t: State)
    requires Reachable(s) && Enabled(s, a)
    ensures t == Apply(s, a) && Reachable(t)
  {
    var s0, actions :| Initial(s0) && Run(s0, actions, s);
    t := Apply(s, a);
    RunSnoc(s0, actions, s, a);
  }

  /** The supervisor is filling the buffer and the kernel has taken every slot so far, the
      slots below `n`, out of it. */
  ghost predicate Grown(s: State, n: nat) {
    && Reachable(s) && JustBelow(s.used, n) && s.entries == seq(ALLOCATIONS, _ => EMPTY)
    && s.supervisor.Filling?
  }

  /** One turn of the loop: the lowest clear slot goes into the first entry, and a CPU takes
      it before the next turn looks. */
  lemma Grow(s: State, n: nat) returns (t: State)
    requires Grown(s, n) && n < INDEX_LIMIT
    ensures Grown(t, n + 1)
  {
    t := Extend(s, FindEntry(0));
    t := Extend(t, TakeSlot(n));
    t := Extend(t, SetEntry);
    t := Extend(t, SwapEntry(0));
  }

  lemma {:induction false} GrownTo(n: nat) returns (t: State)
    requires n <= INDEX_LIMIT
    ensures Grown(t, n)
  {
    if n == 0 {
      t := State({}, seq(ALLOCATIONS, _ => EMPTY), Ready, [], [], multiset{}, multiset{});
      assert Initial(t) && Run(t, [], t);
      t := Extend(t, Ask);
      t := Extend(t, StartFilling);
    } else {
      t := GrownTo(n - 1);
      t := Grow(t, n - 1);
    }
  }

  /** A kernel that takes each slot as soon as it is offered, served lowest slot first, ends
      with the supervisor stopped on the last slot. */
  lemma LastSlotStops()
    ensures exists s :: Reachable(s) && !s.supervisor.Panicked? && JustBelow(s.used, INDEX_LIMIT)
                        && Enabled(s, TakeSlot(INDEX_LIMIT)) && Apply(s, TakeSlot(INDEX_LIMIT)).supervisor.Panicked?
  {
    var s := GrownTo(INDEX_LIMIT);
    s := Extend(s, FindEntry(0));
    assert Enabled(s, TakeSlot(INDEX_LIMIT));
  }
}
