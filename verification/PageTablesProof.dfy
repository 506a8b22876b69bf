/** The reference-count invariant of the page tables and what follows from it. */
module PageTablesProof {
  import opened Basics
  import opened PageTables

  // ----- what is counted -----

  /** Threads that hold a guard on `e`. */
  ghost function Guards(threads: map<nat, Thread>, e: Path): set<nat> {
    set p | p in threads && e <= threads[p].pos
  }

  /** Indices of the present children of `e`. */
  ghost function Kids(tables: map<Path, nat>, pages: set<Path>, e: Path): set<nat> {
    set i | 0 <= i < 512 && (e + [i] in tables || e + [i] in pages)
  }

  /** Threads that made a child of `e` present and have not counted it yet. */
  ghost function Incs(threads: map<nat, Thread>, e: Path): set<nat> {
    set p | p in threads && IncOf(threads[p].pc, e)
  }

  /** Threads that cleared a child of `e` and have not counted it down yet. */
  ghost function Decs(threads: map<nat, Thread>, e: Path): set<nat> {
    set p | p in threads && DecOf(threads[p].pc, e)
  }

  predicate IncOf(pc: Pc, e: Path) { pc.PendInc? && |pc.c| > 0 && Parent(pc.c) == e }
  predicate DecOf(pc: Pc, e: Path) { pc.PendDec? && |pc.c| > 0 && Parent(pc.c) == e }

  // ----- the invariant -----

  /** The stored count plus one is guards plus children, adjusted for the increments
      and decrements that are under way. */
  ghost predicate Balanced(s: State, e: Path)
    requires e in s.tables
  {
    && 1 <= |e| <= 3 && e[|e| - 1] < 512
    && s.tables[e] + 1 == |Guards(s.threads, e)| + |Kids(s.tables, s.pages, e)|
                          - |Incs(s.threads, e)| + |Decs(s.threads, e)|
  }

  /** An absent table is neither guarded nor populated. */
  ghost predicate Bare(s: State, e: Path) {
    Guards(s.threads, e) == {} && Kids(s.tables, s.pages, e) == {}
  }

  ghost predicate ThreadOk(s: State, p: nat)
    requires p in s.threads
  {
    var th := s.threads[p];
    && |th.pos| <= 3
    && match th.pc
       case Ready => true
       case Init(c) => 1 <= |c| <= 3 && Parent(c) == th.pos && c[|c| - 1] < 512 && c in s.initing
       case PendInc(c) =>
         && 2 <= |c| <= 4 && c[|c| - 1] < 512
         && if |c| == 4 then th.pos == Parent(c) else c in s.tables && th.pos == c
       case PendDec(c) => 2 <= |c| <= 4 && th.pos == Parent(c)
       case Failed => false
  }

  ghost predicate Shape(s: State) {
    && (forall c :: c in s.pages ==> |c| == 4)
    && (forall c :: c in s.initing ==> 1 <= |c| <= 3 && c !in s.tables)
  }

  /** An entry is initialized by one thread. */
  ghost predicate OneEach(threads: map<nat, Thread>) {
    forall p, q :: p in threads && q in threads && threads[p].pc == threads[q].pc && threads[p].pc.Init? ==> p == q
  }

  ghost predicate Inv(s: State) {
    && Shape(s)
    && AllBalanced(s) && AllBare(s) && AllThreads(s)
    && OneEach(s.threads)
  }

  ghost predicate AllBalanced(s: State) {
    forall e {:trigger Balanced(s, e)} :: e in s.tables ==> Balanced(s, e)
  }

  ghost predicate AllBare(s: State) {
    forall e {:trigger Bare(s, e)} :: 1 <= |e| <= 3 && e !in s.tables ==> Bare(s, e)
  }

  ghost predicate AllThreads(s: State) {
    forall p {:trigger ThreadOk(s, p)} :: p in s.threads ==> ThreadOk(s, p)
  }

  lemma InitialInv(s: State)
    requires Initial(s)
    ensures Inv(s)
  {
    forall e | 1 <= |e| <= 3 && e !in s.tables ensures Bare(s, e) {
      assert Guards(s.threads, e) == {};
    }
  }

  // ----- consequences used in the steps -----

  /** A guarded table is present. */
  lemma GuardedPresent(s: State, p: nat, e: Path)
    requires Inv(s) && p in s.threads && 1 <= |e| <= 3 && e <= s.threads[p].pos
    ensures e in s.tables && Balanced(s, e) && p in Guards(s.threads, e)
  {
    assert p in Guards(s.threads, e);
    assert e !in s.tables ==> Bare(s, e);
  }

  /** Threads with something pending on `e` guard `e`. */
  lemma PendersGuard(s: State, e: Path)
    requires AllThreads(s) && 1 <= |e| <= 3
    ensures Incs(s.threads, e) <= Guards(s.threads, e)
    ensures Decs(s.threads, e) <= Guards(s.threads, e)
  {
    forall p | p in Incs(s.threads, e) || p in Decs(s.threads, e) ensures p in Guards(s.threads, e) {
      assert ThreadOk(s, p);
      if s.threads[p].pc.PendInc? {
        var c := s.threads[p].pc.c;
        assert e == c[..|c| - 1] && e <= s.threads[p].pos;
      }
    }
  }

  /** A thread that owes a count to `e` guards it, so the count is made up of three parts
      that cannot be negative: the guards whose holders owe no increment, the children,
      and the decrements under way. */
  lemma CountParts(s: State, e: Path)
    requires Inv(s) && e in s.tables
    ensures Decs(s.threads, e) <= Guards(s.threads, e) - Incs(s.threads, e)
    ensures s.tables[e] + 1 == |Guards(s.threads, e) - Incs(s.threads, e)|
                               + |Kids(s.tables, s.pages, e)| + |Decs(s.threads, e)|
  {
    assert Balanced(s, e);
    PendersGuard(s, e);
    var guards, incs := Guards(s.threads, e), Incs(s.threads, e);
    assert guards == (guards - incs) + incs;
  }

  /** A drop finds the count at zero exactly when nobody else guards the table without
      owing it an increment, and it has no present child and no decrement to come. */
  lemma LastGuard(s: State, p: nat)
    requires Inv(s) && p in s.threads && s.threads[p].pc.Ready? && |s.threads[p].pos| > 0
    ensures s.threads[p].pos in s.tables
    ensures var e := s.threads[p].pos;
            s.tables[e] == 0 <==>
              Guards(s.threads, e) - Incs(s.threads, e) == {p} && Kids(s.tables, s.pages, e) == {} && Decs(s.threads, e) == {}
  {
    var e := s.threads[p].pos;
    assert ThreadOk(s, p);
    GuardedPresent(s, p, e);
    CountParts(s, e);
    var free := Guards(s.threads, e) - Incs(s.threads, e);
    assert p in free;
    RemoveOne(free, p);
    assert free - {p} == {} ==> free == {p};
  }

  /** While a decrement is pending the count is above zero. */
  lemma DecSafe(s: State, p: nat)
    requires Inv(s) && p in s.threads && s.threads[p].pc.PendDec?
    ensures var c := s.threads[p].pc.c; |c| > 0 && Parent(c) in s.tables && s.tables[Parent(c)] > 0
  {
    assert ThreadOk(s, p);
    var e := Parent(s.threads[p].pc.c);
    GuardedPresent(s, p, e);
    CountParts(s, e);
    assert p in Decs(s.threads, e);
    SubsetSize(Decs(s.threads, e), Guards(s.threads, e) - Incs(s.threads, e));
  }

  // ----- how one thread's move changes the counted sets -----

  lemma PrefixStep(e: Path, pos: Path, i: nat)
    ensures e <= pos + [i] <==> e <= pos || e == pos + [i]
  {
    if e <= pos + [i] && |e| <= |pos| {
      assert e == (pos + [i])[..|e|] == pos[..|e|];
    }
  }

  /** Each set gains or loses `p`, or is unchanged. */
  lemma MoveGuards(threads: map<nat, Thread>, p: nat, th: Thread, e: Path)
    requires p in threads
    ensures |Guards(threads[p := th], e)| ==
            |Guards(threads, e)| - (if e <= threads[p].pos then 1 else 0) + (if e <= th.pos then 1 else 0)
  {
    var before, after := Guards(threads, e), Guards(threads[p := th], e);
    assert after - {p} == before - {p};
    assert p in before <==> e <= threads[p].pos;
    assert p in after <==> e <= th.pos;
    RemoveOne(after, p);
    RemoveOne(before, p);
  }

  lemma MoveIncs(threads: map<nat, Thread>, p: nat, th: Thread, e: Path)
    requires p in threads
    ensures |Incs(threads[p := th], e)| ==
            |Incs(threads, e)| - (if IncOf(threads[p].pc, e) then 1 else 0) + (if IncOf(th.pc, e) then 1 else 0)
  {
    var before, after := Incs(threads, e), Incs(threads[p := th], e);
    assert after - {p} == before - {p};
    assert p in before <==> IncOf(threads[p].pc, e);
    assert p in after <==> IncOf(th.pc, e);
    RemoveOne(after, p);
    RemoveOne(before, p);
  }

  lemma MoveDecs(threads: map<nat, Thread>, p: nat, th: Thread, e: Path)
    requires p in threads
    ensures |Decs(threads[p := th], e)| ==
            |Decs(threads, e)| - (if DecOf(threads[p].pc, e) then 1 else 0) + (if DecOf(th.pc, e) then 1 else 0)
  {
    var before, after := Decs(threads, e), Decs(threads[p := th], e);
    assert after - {p} == before - {p};
    assert p in before <==> DecOf(threads[p].pc, e);
    assert p in after <==> DecOf(th.pc, e);
    RemoveOne(after, p);
    RemoveOne(before, p);
  }

  lemma MoveCounts(threads: map<nat, Thread>, p: nat, th: Thread, e: Path)
    requires p in threads
    ensures |Guards(threads[p := th], e)| ==
            |Guards(threads, e)| - (if e <= threads[p].pos then 1 else 0) + (if e <= th.pos then 1 else 0)
    ensures |Incs(threads[p := th], e)| ==
            |Incs(threads, e)| - (if IncOf(threads[p].pc, e) then 1 else 0) + (if IncOf(th.pc, e) then 1 else 0)
    ensures |Decs(threads[p := th], e)| ==
            |Decs(threads, e)| - (if DecOf(threads[p].pc, e) then 1 else 0) + (if DecOf(th.pc, e) then 1 else 0)
  {
    MoveGuards(threads, p, th, e);
    MoveIncs(threads, p, th, e);
    MoveDecs(threads, p, th, e);
  }

  /** Whether entry `c` is present. */
  predicate Present(tables: map<Path, nat>, pages: set<Path>, c: Path) {
    c in tables || c in pages
  }

  lemma KidsSame(s: State, t: State, e: Path)
    requires forall i :: 0 <= i < 512 ==> (Present(t.tables, t.pages, e + [i]) <==> Present(s.tables, s.pages, e + [i]))
    ensures Kids(t.tables, t.pages, e) == Kids(s.tables, s.pages, e)
  {
    forall i | 0 <= i < 512 ensures i in Kids(t.tables, t.pages, e) <==> i in Kids(s.tables, s.pages, e) {
      assert Present(t.tables, t.pages, e + [i]) <==> Present(s.tables, s.pages, e + [i]);
    }
  }

  /** Entry `c` alone changes between absent and present. */
  lemma KidsChange(s: State, t: State, c: Path, e: Path)
    requires |c| > 0 && c[|c| - 1] < 512
    requires forall d {:trigger Present(t.tables, t.pages, d)} :: d != c ==>
               (Present(t.tables, t.pages, d) <==> Present(s.tables, s.pages, d))
    ensures |Kids(t.tables, t.pages, e)| == |Kids(s.tables, s.pages, e)|
            + (if e == Parent(c) && Present(t.tables, t.pages, c) then 1 else 0)
            - (if e == Parent(c) && Present(s.tables, s.pages, c) then 1 else 0)
    ensures e != Parent(c) ==> Kids(t.tables, t.pages, e) == Kids(s.tables, s.pages, e)
  {
    var i := c[|c| - 1];
    assert c == Parent(c) + [i];
    if e == Parent(c) {
      var ks, kt := Kids(s.tables, s.pages, e), Kids(t.tables, t.pages, e);
      forall j | 0 <= j < 512 && j != i ensures j in ks <==> j in kt {
        assert (e + [j])[|e|] == j && c[|e|] == i;
        assert Present(t.tables, t.pages, e + [j]) <==> Present(s.tables, s.pages, e + [j]);
      }
      assert ks - {i} == kt - {i};
      assert i in ks <==> Present(s.tables, s.pages, c);
      assert i in kt <==> Present(t.tables, t.pages, c);
      RemoveOne(ks, i);
      RemoveOne(kt, i);
    } else {
      forall j | 0 <= j < 512 ensures e + [j] != c { assert (e + [j])[..|e|] == e; }
      KidsSame(s, t, e);
    }
  }

  /** The stored count moved by as much as what it counts. */
  lemma Rebalance(s: State, t: State, p: nat, th: Thread, e: Path)
    requires p in s.threads && t.threads == s.threads[p := th]
    requires e in s.tables && e in t.tables && Balanced(s, e)
    requires t.tables[e] == s.tables[e]
                + (if e <= th.pos then 1 else 0) - (if e <= s.threads[p].pos then 1 else 0)
                - (if IncOf(th.pc, e) then 1 else 0) + (if IncOf(s.threads[p].pc, e) then 1 else 0)
                + (if DecOf(th.pc, e) then 1 else 0) - (if DecOf(s.threads[p].pc, e) then 1 else 0)
                + |Kids(t.tables, t.pages, e)| - |Kids(s.tables, s.pages, e)|
    ensures Balanced(t, e)
  {
    MoveCounts(s.threads, p, th, e);
  }

  lemma StaysBare(s: State, t: State, p: nat, th: Thread, e: Path)
    requires p in s.threads && t.threads == s.threads[p := th] && Bare(s, e)
    requires !(e <= th.pos) && Kids(t.tables, t.pages, e) == Kids(s.tables, s.pages, e)
    ensures Bare(t, e)
  {
    assert p !in Guards(s.threads, e);
    assert Guards(t.threads, e) == Guards(s.threads, e);
  }

  lemma OneEachMove(threads: map<nat, Thread>, p: nat, th: Thread)
    requires p in threads && OneEach(threads)
    requires th.pc.Init? ==> forall q :: q in threads && q != p ==> threads[q].pc != th.pc
    ensures OneEach(threads[p := th])
  {
  }

  /** What the other threads rely on is still there. */
  ghost predicate Keeps(s: State, t: State, q: nat)
    requires q in s.threads
  {
    match s.threads[q].pc
    case Init(c) => c in t.initing
    case PendInc(c) => |c| < 4 ==> c in t.tables
    case _ => true
  }

  lemma ThreadsKept(s: State, t: State, p: nat, th: Thread)
    requires p in s.threads && t.threads == s.threads[p := th] && ThreadOk(t, p) && AllThreads(s)
    requires forall q {:trigger Keeps(s, t, q)} :: q in s.threads && q != p && ThreadOk(s, q) ==> Keeps(s, t, q)
    ensures AllThreads(t)
  {
    forall q | q in t.threads ensures ThreadOk(t, q) {
      if q != p { assert ThreadOk(s, q) && Keeps(s, t, q); }
    }
  }

  // ----- the steps -----

  /** Counting up an existing child and guarding it. */
  lemma EnterCounts(s: State, p: nat, i: nat)
    requires AllBalanced(s) && AllBare(s) && p in s.threads && s.threads[p].pc.Ready?
    requires s.threads[p].pos + [i] in s.tables
    ensures AllBalanced(Enter(s, p, s.threads[p].pos + [i])) && AllBare(Enter(s, p, s.threads[p].pos + [i]))
  {
    var pos := s.threads[p].pos;
    var c := pos + [i];
    var t := Enter(s, p, c);
    assert t.tables.Keys == s.tables.Keys;
    forall e | e in t.tables ensures Balanced(t, e) {
      PrefixStep(e, pos, i);
      KidsSame(s, t, e);
      Rebalance(s, t, p, Thread(c, Ready), e);
    }
    forall e | 1 <= |e| <= 3 && e !in t.tables ensures Bare(t, e) {
      assert Bare(s, e);
      assert e <= pos ==> p in Guards(s.threads, e);
      PrefixStep(e, pos, i);
      KidsSame(s, t, e);
      StaysBare(s, t, p, Thread(c, Ready), e);
    }
  }

  lemma EnterKeeps(s: State, p: nat, i: nat)
    requires Inv(s) && p in s.threads && s.threads[p].pc.Ready? && |s.threads[p].pos| < 3
    requires s.threads[p].pos + [i] in s.tables
    ensures Inv(Enter(s, p, s.threads[p].pos + [i]))
  {
    var c := s.threads[p].pos + [i];
    var t := Enter(s, p, c);
    EnterCounts(s, p, i);
    ThreadsKept(s, t, p, Thread(c, Ready));
    OneEachMove(s.threads, p, Thread(c, Ready));
  }

  lemma ClaimInitKeeps(s: State, p: nat, i: nat)
    requires Inv(s) && Enabled(s, p, Acquire(i)) && s.threads[p].pos + [i] !in s.tables
    ensures Inv(DoAcquire(s, p, i))
  {
    var th := s.threads[p];
    var c := th.pos + [i];
    var t := DoAcquire(s, p, i);
    var th' := th.(pc := Init(c));
    assert Parent(c) == th.pos;
    forall e | e in t.tables ensures Balanced(t, e) { Rebalance(s, t, p, th', e); }
    forall e | 1 <= |e| <= 3 && e !in t.tables ensures Bare(t, e) {
      assert Bare(s, e);
      assert e <= th.pos ==> p in Guards(s.threads, e);
      StaysBare(s, t, p, th', e);
    }
    ThreadsKept(s, t, p, th');
    forall q | q in s.threads && q != p ensures s.threads[q].pc != Init(c) { assert ThreadOk(s, q); }
    OneEachMove(s.threads, p, th');
  }

  lemma InitCounts(s: State, p: nat, c: Path)
    requires AllBalanced(s) && AllBare(s) && AllThreads(s) && p in s.threads && s.threads[p].pc == Init(c)
    requires 1 <= |c| <= 3 && Parent(c) == s.threads[p].pos && c[|c| - 1] < 512 && c !in s.tables
    requires forall x :: x in s.pages ==> |x| == 4
    ensures AllBalanced(DoInit(s, p, c)) && AllBare(DoInit(s, p, c))
  {
    var t := DoInit(s, p, c);
    var pos := s.threads[p].pos;
    var th := t.threads[p];
    assert c == pos + [c[|c| - 1]];
    forall e | e in t.tables ensures Balanced(t, e) {
      PrefixStep(e, pos, c[|c| - 1]);
      KidsChange(s, t, c, e);
      if e != c {
        Rebalance(s, t, p, th, e);
      } else {
        assert Bare(s, c);
        MoveCounts(s.threads, p, th, c);
        NothingPending(s, c);
      }
    }
    forall e | 1 <= |e| <= 3 && e !in t.tables ensures Bare(t, e) {
      assert Bare(s, e);
      assert e <= pos ==> p in Guards(s.threads, e);
      PrefixStep(e, pos, c[|c| - 1]);
      KidsChange(s, t, c, e);
      StaysBare(s, t, p, th, e);
    }
  }

  /** Nobody can have anything pending on a table that is absent. */
  lemma NothingPending(s: State, e: Path)
    requires AllThreads(s) && 1 <= |e| <= 3 && Bare(s, e)
    ensures Incs(s.threads, e) == {} && Decs(s.threads, e) == {}
  {
    PendersGuard(s, e);
  }

  lemma InitKeeps(s: State, p: nat, c: Path)
    requires Inv(s) && p in s.threads && s.threads[p].pc == Init(c)
    ensures Inv(DoInit(s, p, c))
  {
    var t := DoInit(s, p, c);
    var th := t.threads[p];
    assert ThreadOk(s, p);
    InitCounts(s, p, c);
    ThreadsKept(s, t, p, th);
    OneEachMove(s.threads, p, th);
  }

  lemma IncBalanced(s: State, p: nat, c: Path, e: Path)
    requires Inv(s) && p in s.threads && s.threads[p].pc == PendInc(c)
    requires |c| > 0 && Parent(c) in s.tables && e in s.tables
    ensures e in DoInc(s, p, c).tables && Balanced(DoInc(s, p, c), e)
  {
    assert ThreadOk(s, p);
    var t := DoInc(s, p, c);
    assert t.tables.Keys == s.tables.Keys;
    KidsSame(s, t, e);
    Rebalance(s, t, p, s.threads[p].(pc := Ready), e);
  }

  lemma IncThreads(s: State, p: nat, c: Path)
    requires AllThreads(s) && p in s.threads && s.threads[p].pc == PendInc(c) && |c| > 0 && Parent(c) in s.tables
    ensures AllThreads(DoInc(s, p, c))
  {
    var t := DoInc(s, p, c);
    assert ThreadOk(s, p);
    assert t.tables.Keys == s.tables.Keys;
    forall q | q in s.threads && q != p && ThreadOk(s, q) ensures Keeps(s, t, q) {
    }
    ThreadsKept(s, t, p, s.threads[p].(pc := Ready));
  }

  lemma IncBare(s: State, p: nat, c: Path, e: Path)
    requires Inv(s) && p in s.threads && s.threads[p].pc == PendInc(c)
    requires |c| > 0 && Parent(c) in s.tables && 1 <= |e| <= 3 && e !in s.tables
    ensures Bare(DoInc(s, p, c), e)
  {
    var t := DoInc(s, p, c);
    assert Bare(s, e);
    assert e <= s.threads[p].pos ==> p in Guards(s.threads, e);
    assert t.tables.Keys == s.tables.Keys;
    KidsSame(s, t, e);
    StaysBare(s, t, p, s.threads[p].(pc := Ready), e);
  }

  lemma IncKeeps(s: State, p: nat, c: Path)
    requires Inv(s) && p in s.threads && s.threads[p].pc == PendInc(c)
    ensures |c| > 0 && Parent(c) in s.tables && Inv(DoInc(s, p, c))
  {
    assert ThreadOk(s, p);
    var e0 := Parent(c);
    assert e0 <= s.threads[p].pos;
    GuardedPresent(s, p, e0);
    var t := DoInc(s, p, c);
    var th := s.threads[p].(pc := Ready);
    assert t.tables.Keys == s.tables.Keys;
    forall e | e in t.tables ensures Balanced(t, e) {
      IncBalanced(s, p, c, e);
    }
    forall e | 1 <= |e| <= 3 && e !in t.tables ensures Bare(t, e) {
      IncBare(s, p, c, e);
    }
    IncThreads(s, p, c);
    OneEachMove(s.threads, p, th);
  }

  lemma DecKeeps(s: State, p: nat, c: Path)
    requires Inv(s) && p in s.threads && s.threads[p].pc == PendDec(c)
    ensures |c| > 0 && Inv(DoDec(s, p, c))
  {
    assert ThreadOk(s, p);
    DecSafe(s, p);
    var t := DoDec(s, p, c);
    var th := s.threads[p].(pc := Ready);
    assert t.tables.Keys == s.tables.Keys;
    forall e | e in t.tables ensures Balanced(t, e) {
      KidsSame(s, t, e);
      Rebalance(s, t, p, th, e);
    }
    forall e | 1 <= |e| <= 3 && e !in t.tables ensures Bare(t, e) {
      assert Bare(s, e);
      assert e <= s.threads[p].pos ==> p in Guards(s.threads, e);
      KidsSame(s, t, e);
      StaysBare(s, t, p, th, e);
    }
    ThreadsKept(s, t, p, th);
    OneEachMove(s.threads, p, th);
  }

  lemma SetPageKeeps(s: State, p: nat, i: nat)
    requires Inv(s) && Enabled(s, p, SetPage(i)) && s.threads[p].pos + [i] !in s.pages
    ensures Inv(DoSetPage(s, p, i))
  {
    var t := DoSetPage(s, p, i);
    var pos := s.threads[p].pos;
    var pg := pos + [i];
    var th := s.threads[p].(pc := PendInc(pg));
    assert Parent(pg) == pos;
    GuardedPresent(s, p, pos);
    assert pg !in s.tables by { assert pg in s.tables ==> Balanced(s, pg); }
    forall e | e in t.tables ensures Balanced(t, e) {
      KidsChange(s, t, pg, e);
      Rebalance(s, t, p, th, e);
    }
    forall e | 1 <= |e| <= 3 && e !in t.tables ensures Bare(t, e) {
      assert Bare(s, e);
      assert e <= pos ==> p in Guards(s.threads, e);
      KidsChange(s, t, pg, e);
      StaysBare(s, t, p, th, e);
    }
    ThreadsKept(s, t, p, th);
    OneEachMove(s.threads, p, th);
  }

  lemma TryUnmapKeeps(s: State, p: nat, i: nat)
    requires Inv(s) && Enabled(s, p, TryUnmap(i)) && s.threads[p].pos + [i] in s.pages
    ensures Inv(DoTryUnmap(s, p, i))
  {
    var t := DoTryUnmap(s, p, i);
    var pos := s.threads[p].pos;
    var pg := pos + [i];
    var th := s.threads[p].(pc := PendDec(pg));
    assert Parent(pg) == pos;
    GuardedPresent(s, p, pos);
    assert pg !in s.tables by { assert pg in s.tables ==> Balanced(s, pg); }
    forall e | e in t.tables ensures Balanced(t, e) {
      UnmapBalanced(s, p, i, e);
    }
    forall e | 1 <= |e| <= 3 && e !in t.tables ensures Bare(t, e) {
      UnmapBare(s, p, i, e);
    }
    UnmapThreads(s, p, i);
    OneEachMove(s.threads, p, th);
  }

  lemma UnmapThreads(s: State, p: nat, i: nat)
    requires AllThreads(s) && Enabled(s, p, TryUnmap(i)) && s.threads[p].pos + [i] in s.pages
    requires s.threads[p].pos in s.tables
    ensures AllThreads(DoTryUnmap(s, p, i))
  {
    var t := DoTryUnmap(s, p, i);
    var pg := s.threads[p].pos + [i];
    assert Parent(pg) == s.threads[p].pos;
    assert ThreadOk(s, p);
    forall q | q in s.threads && q != p && ThreadOk(s, q) ensures Keeps(s, t, q) {
    }
    ThreadsKept(s, t, p, s.threads[p].(pc := PendDec(pg)));
  }

  lemma UnmapBare(s: State, p: nat, i: nat, e: Path)
    requires Inv(s) && Enabled(s, p, TryUnmap(i)) && s.threads[p].pos + [i] in s.pages
    requires s.threads[p].pos in s.tables && 1 <= |e| <= 3 && e !in s.tables
    ensures Bare(DoTryUnmap(s, p, i), e)
  {
    var t := DoTryUnmap(s, p, i);
    var pos := s.threads[p].pos;
    var pg := pos + [i];
    assert Bare(s, e);
    assert e <= pos ==> p in Guards(s.threads, e);
    assert Parent(pg) == pos;
    KidsChange(s, t, pg, e);
    StaysBare(s, t, p, s.threads[p].(pc := PendDec(pg)), e);
  }

  lemma UnmapBalanced(s: State, p: nat, i: nat, e: Path)
    requires Inv(s) && Enabled(s, p, TryUnmap(i)) && s.threads[p].pos + [i] in s.pages && e in s.tables
    requires s.threads[p].pos + [i] !in s.tables
    ensures e in DoTryUnmap(s, p, i).tables && Balanced(DoTryUnmap(s, p, i), e)
  {
    var t := DoTryUnmap(s, p, i);
    var pg := s.threads[p].pos + [i];
    assert Parent(pg) == s.threads[p].pos;
    KidsChange(s, t, pg, e);
    Rebalance(s, t, p, s.threads[p].(pc := PendDec(pg)), e);
  }

  lemma DropBalanced(s: State, p: nat, e: Path)
    requires Inv(s) && Enabled(s, p, DropGuard) && e in s.tables
    requires s.threads[p].pos in s.tables && s.tables[s.threads[p].pos] > 0
    ensures e in DoDrop(s, p).tables && Balanced(DoDrop(s, p), e)
  {
    var t := DoDrop(s, p);
    var e0 := s.threads[p].pos;
    assert ThreadOk(s, p);
    assert t.tables.Keys == s.tables.Keys;
    assert e0 == Parent(e0) + [e0[|e0| - 1]];
    PrefixStep(e, Parent(e0), e0[|e0| - 1]);
    KidsSame(s, t, e);
    Rebalance(s, t, p, Thread(Parent(e0), Ready), e);
  }

  lemma DropBare(s: State, p: nat, e: Path)
    requires Inv(s) && Enabled(s, p, DropGuard)
    requires s.threads[p].pos in s.tables && s.tables[s.threads[p].pos] > 0
    requires 1 <= |e| <= 3 && e !in s.tables
    ensures Bare(DoDrop(s, p), e)
  {
    var t, e0 := DoDrop(s, p), s.threads[p].pos;
    assert Bare(s, e);
    assert e <= e0 ==> p in Guards(s.threads, e);
    PrefixStep(e, Parent(e0), e0[|e0| - 1]);
    assert e0 == Parent(e0) + [e0[|e0| - 1]];
    KidsSame(s, t, e);
    StaysBare(s, t, p, Thread(Parent(e0), Ready), e);
  }

  lemma DropCounts(s: State, p: nat)
    requires Inv(s) && Enabled(s, p, DropGuard)
    requires s.threads[p].pos in s.tables && s.tables[s.threads[p].pos] > 0
    ensures Inv(DoDrop(s, p))
  {
    var t := DoDrop(s, p);
    var e0 := s.threads[p].pos;
    var th := Thread(Parent(e0), Ready);
    assert ThreadOk(s, p);
    assert t.tables.Keys == s.tables.Keys;
    assert e0 == Parent(e0) + [e0[|e0| - 1]];
    forall e | e in t.tables ensures Balanced(t, e) {
      DropBalanced(s, p, e);
    }
    forall e | 1 <= |e| <= 3 && e !in t.tables ensures Bare(t, e) {
      DropBare(s, p, e);
    }
    ThreadsKept(s, t, p, th);
    OneEachMove(s.threads, p, th);
  }

  lemma FreeBalanced(s: State, p: nat, e: Path)
    requires p in s.threads && s.threads[p].pc.Ready? && 1 <= |s.threads[p].pos| <= 3
    requires var e0 := s.threads[p].pos; e0 in s.tables && s.tables[e0] == 0 && e0[|e0| - 1] < 512 && e0 !in s.pages
    requires e in s.tables && e != s.threads[p].pos && Balanced(s, e)
    ensures Balanced(DoDrop(s, p), e)
  {
    var t := DoDrop(s, p);
    var e0 := s.threads[p].pos;
    assert e0 == Parent(e0) + [e0[|e0| - 1]];
    PrefixStep(e, Parent(e0), e0[|e0| - 1]);
    KidsChange(s, t, e0, e);
    Rebalance(s, t, p, t.threads[p], e);
  }

  lemma FreeBare(s: State, p: nat, e: Path)
    requires p in s.threads && s.threads[p].pc.Ready? && 1 <= |s.threads[p].pos| <= 3
    requires var e0 := s.threads[p].pos; e0 in s.tables && s.tables[e0] == 0 && e0[|e0| - 1] < 512 && e0 !in s.pages
    requires Kids(s.tables, s.pages, e) == {}
    requires if e == s.threads[p].pos then Guards(s.threads, e) == {p} else Guards(s.threads, e) == {}
    ensures Bare(DoDrop(s, p), e)
  {
    var t := DoDrop(s, p);
    var e0 := s.threads[p].pos;
    assert e0 == Parent(e0) + [e0[|e0| - 1]];
    PrefixStep(e, Parent(e0), e0[|e0| - 1]);
    KidsChange(s, t, e0, e);
    assert e != Parent(e0) by { assert e != e0 && e <= e0 ==> p in Guards(s.threads, e); }
    forall q | q in t.threads ensures q !in Guards(t.threads, e) {
      assert q != p ==> (q in Guards(t.threads, e) <==> q in Guards(s.threads, e));
      assert e <= e0 ==> p in Guards(s.threads, e);
    }
  }

  lemma FreeCounts(s: State, p: nat)
    requires Inv(s) && Enabled(s, p, DropGuard)
    requires s.threads[p].pos in s.tables && s.tables[s.threads[p].pos] == 0 && Incs(s.threads, s.threads[p].pos) == {}
    ensures AllBalanced(DoDrop(s, p)) && AllBare(DoDrop(s, p))
  {
    var t := DoDrop(s, p);
    var e0 := s.threads[p].pos;
    assert ThreadOk(s, p);
    LastGuard(s, p);
    assert Balanced(s, e0);
    forall e | e in t.tables ensures Balanced(t, e) { FreeBalanced(s, p, e); }
    forall e | 1 <= |e| <= 3 && e !in t.tables ensures Bare(t, e) {
      if e != e0 { assert Bare(s, e); }
      FreeBare(s, p, e);
    }
  }

  lemma FreeKeeps(s: State, p: nat)
    requires Inv(s) && Enabled(s, p, DropGuard)
    requires s.threads[p].pos in s.tables && s.tables[s.threads[p].pos] == 0 && Incs(s.threads, s.threads[p].pos) == {}
    ensures Inv(DoDrop(s, p))
  {
    var t := DoDrop(s, p);
    assert ThreadOk(s, p);
    FreeCounts(s, p);
    var e0 := s.threads[p].pos;
    LastGuard(s, p);
    assert Guards(s.threads, e0) - Incs(s.threads, e0) == Guards(s.threads, e0);
    forall q | q in s.threads && q != p && ThreadOk(s, q) ensures Keeps(s, t, q) {
      assert q !in Guards(s.threads, e0);
    }
    ThreadsKept(s, t, p, t.threads[p]);
    OneEachMove(s.threads, p, t.threads[p]);
  }
}
