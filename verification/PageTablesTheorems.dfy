/** What holds in every run of the page tables, and the one step that breaks it. */
module PageTablesTheorems {
  import opened Basics
  import opened PageTables
  import opened PageTablesProof

  /** A drop that finds the count at zero while another thread still owes the table an
      increment: it frees a table that is guarded. */
  ghost predicate Wrongful(s: State, p: nat, a: Action)
    requires Enabled(s, p, a)
  {
    var e := s.threads[p].pos;
    a.DropGuard? && e in s.tables && s.tables[e] == 0 && Incs(s.threads, e) != {}
  }

  lemma DropKeeps(s: State, p: nat)
    requires Inv(s) && Enabled(s, p, DropGuard) && !Wrongful(s, p, DropGuard)
    ensures Inv(DoDrop(s, p))
  {
    assert ThreadOk(s, p);
    GuardedPresent(s, p, s.threads[p].pos);
    if s.tables[s.threads[p].pos] > 0 { DropCounts(s, p); } else { FreeKeeps(s, p); }
  }

  lemma StepKeeps(s: State, p: nat, a: Action)
    requires Inv(s) && Enabled(s, p, a) && !Wrongful(s, p, a)
    ensures Inv(Apply(s, p, a))
  {
    var th := s.threads[p];
    assert ThreadOk(s, p);
    match a
    case Descend(i) => if th.pos + [i] in s.tables { EnterKeeps(s, p, i); }
    case Acquire(i) => if th.pos + [i] in s.tables { EnterKeeps(s, p, i); } else { ClaimInitKeeps(s, p, i); }
    case SetPage(i) => if th.pos + [i] !in s.pages { SetPageKeeps(s, p, i); }
    case TryUnmap(i) => if th.pos + [i] in s.pages { TryUnmapKeeps(s, p, i); }
    case DropGuard => DropKeeps(s, p);
    case Finish =>
      if th.pc.Init? { InitKeeps(s, p, th.pc.c); }
      else if th.pc.PendInc? { IncKeeps(s, p, th.pc.c); }
      else { DecKeeps(s, p, th.pc.c); }
  }

  /** After a wrongful drop a thread guards a table that is gone. */
  lemma WrongfulBreaks(s: State, p: nat)
    requires Inv(s) && Enabled(s, p, DropGuard) && Wrongful(s, p, DropGuard)
    ensures !AllBare(DoDrop(s, p))
  {
    var t, e := DoDrop(s, p), s.threads[p].pos;
    assert ThreadOk(s, p);
    PendersGuard(s, e);
    var q :| q in Incs(s.threads, e);
    assert q in Guards(t.threads, e);
    assert !Bare(t, e);
  }

  /** Of all steps of all threads, exactly the wrongful drops break the counts. */
  lemma StepExact(s: State, p: nat, a: Action)
    requires Inv(s) && Enabled(s, p, a)
    ensures Inv(Apply(s, p, a)) <==> !Wrongful(s, p, a)
  {
    if Wrongful(s, p, a) { WrongfulBreaks(s, p); } else { StepKeeps(s, p, a); }
  }

  /** A run up to its first wrongful drop. */
  ghost predicate Run(s: State, labels: seq<Label>, t: State)
    decreases |labels|
  {
    if labels == [] then s == t
    else
      && Enabled(s, labels[0].thread, labels[0].action)
      && !Wrongful(s, labels[0].thread, labels[0].action)
      && Run(Apply(s, labels[0].thread, labels[0].action), labels[1..], t)
  }

  lemma {:induction false} RunKeeps(s: State, labels: seq<Label>, t: State)
    requires Inv(s) && Run(s, labels, t)
    ensures Inv(t)
    decreases |labels|
  {
    if labels != [] {
      StepKeeps(s, labels[0].thread, labels[0].action);
      RunKeeps(Apply(s, labels[0].thread, labels[0].action), labels[1..], t);
    }
  }

  ghost predicate Reachable(t: State) {
    exists s, labels :: Initial(s) && Run(s, labels, t)
  }

  lemma ReachableInv(t: State)
    requires Reachable(t)
    ensures Inv(t)
  {
    var s, labels :| Initial(s) && Run(s, labels, t);
    InitialInv(s);
    RunKeeps(s, labels, t);
  }

  /** For every table entry the stored count plus one is the guards held plus the
      present children, less the increments and plus the decrements still to come.
      An absent table has no guard and no present child. */
  lemma CountExact(t: State, e: Path)
    requires Reachable(t) && 1 <= |e| <= 3
    ensures if e in t.tables
            then t.tables[e] + 1 == |Guards(t.threads, e)| + |Kids(t.tables, t.pages, e)|
                                    - |Incs(t.threads, e)| + |Decs(t.threads, e)|
            else Guards(t.threads, e) == {} && Kids(t.tables, t.pages, e) == {}
  {
    ReachableInv(t);
    assert e in t.tables ==> Balanced(t, e);
    assert e !in t.tables ==> Bare(t, e);
  }

  /** A table is freed exactly by a drop whose thread is the only one that guards it and
      owes it no increment, with no child present and no decrement to come. */
  lemma FreedExactly(t: State, p: nat, a: Action, e: Path)
    requires Reachable(t) && Enabled(t, p, a) && e in t.tables
    ensures e !in Apply(t, p, a).tables <==>
              && a.DropGuard? && t.threads[p].pos == e
              && Guards(t.threads, e) - Incs(t.threads, e) == {p}
              && Kids(t.tables, t.pages, e) == {} && Decs(t.threads, e) == {}
  {
    ReachableInv(t);
    assert ThreadOk(t, p);
    if a.Finish? && t.threads[p].pc.PendDec? { DecSafe(t, p); }
    if a.DropGuard? { LastGuard(t, p); }
  }

  /** The free is right, leaving no guard behind, exactly when no other thread owes the
      table an increment. Such a thread's own count fails if it comes next. */
  lemma FreedRightly(t: State, p: nat, e: Path)
    requires Reachable(t) && Enabled(t, p, DropGuard) && e in t.tables && e !in Apply(t, p, DropGuard).tables
    ensures var u := Apply(t, p, DropGuard);
            && (Guards(u.threads, e) == {} <==> Incs(t.threads, e) == {})
            && Guards(u.threads, e) == Incs(t.threads, e)
            && forall q :: q in Incs(t.threads, e) ==> Enabled(u, q, Finish) && Apply(u, q, Finish).threads[q].pc.Failed?
  {
    ReachableInv(t);
    FreedExactly(t, p, DropGuard, e);
    assert ThreadOk(t, p);
    PendersGuard(t, e);
    var u := Apply(t, p, DropGuard);
    assert p !in Guards(u.threads, e);
    forall q | q in t.threads && q != p ensures q in Guards(u.threads, e) <==> q in Incs(t.threads, e) {
      assert q in Guards(t.threads, e) - Incs(t.threads, e) ==> q == p;
    }
  }

  /** No `unwrap`, `assert_eq!(frame, None)` or sanity check ever fails. */
  lemma NeverFails(t: State, p: nat)
    requires Reachable(t) && p in t.threads
    ensures !t.threads[p].pc.Failed?
  {
    ReachableInv(t);
    assert ThreadOk(t, p);
  }

  /** With at most 32 CPUs the stored count stays below 1024, and so does the result
      of every increment. */
  lemma CountFitsTenBits(t: State, e: Path)
    requires Reachable(t) && e in t.tables && |t.threads| <= 32
    ensures t.tables[e] < 1024 - 1
  {
    ReachableInv(t);
    CountParts(t, e);
    BelowSize(Kids(t.tables, t.pages, e), 512);
    SubsetSize(Guards(t.threads, e) - Incs(t.threads, e), t.threads.Keys);
    SubsetSize(Decs(t.threads, e), t.threads.Keys);
  }

  // ----- callers that do not unmap a page before it is counted -----

  /** A page is still mapped when its count comes. */
  ghost predicate PageThere(s: State, q: nat) {
    q in s.threads && s.threads[q].pc.PendInc? && |s.threads[q].pc.c| == 4 ==> s.threads[q].pc.c in s.pages
  }

  ghost predicate PagesThere(s: State) {
    forall q {:trigger PageThere(s, q)} :: PageThere(s, q)
  }

  lemma DisciplineKeeps(s: State, p: nat, a: Action)
    requires Inv(s) && PagesThere(s) && Enabled(s, p, a) && Disciplined(s, p, a)
    ensures PagesThere(Apply(s, p, a))
  {
    assert ThreadOk(s, p);
    forall q ensures PageThere(Apply(s, p, a), q) {
      assert PageThere(s, q);
    }
  }

  /** Where every uncounted page is there, no drop is wrongful. */
  lemma PagesThereRight(s: State, p: nat, a: Action)
    requires Inv(s) && PagesThere(s) && Enabled(s, p, a)
    ensures !Wrongful(s, p, a)
  {
    if a.DropGuard? {
      var e := s.threads[p].pos;
      LastGuard(s, p);
      forall q | q in Incs(s.threads, e) ensures Kids(s.tables, s.pages, e) != {} {
        assert PageThere(s, q) && ThreadOk(s, q);
        var c := s.threads[q].pc.c;
        assert c == e + [c[|c| - 1]];
        assert c[|c| - 1] in Kids(s.tables, s.pages, e);
      }
    }
  }

  ghost predicate DisciplinedRun(s: State, labels: seq<Label>, t: State)
    decreases |labels|
  {
    if labels == [] then s == t
    else
      && Enabled(s, labels[0].thread, labels[0].action)
      && Disciplined(s, labels[0].thread, labels[0].action)
      && DisciplinedRun(Apply(s, labels[0].thread, labels[0].action), labels[1..], t)
  }

  lemma {:induction false} DisciplineSuffices(s: State, labels: seq<Label>, t: State)
    requires Inv(s) && PagesThere(s) && DisciplinedRun(s, labels, t)
    ensures Run(s, labels, t) && PagesThere(t)
    decreases |labels|
  {
    if labels != [] {
      var p, a := labels[0].thread, labels[0].action;
      PagesThereRight(s, p, a);
      StepKeeps(s, p, a);
      DisciplineKeeps(s, p, a);
      DisciplineSuffices(Apply(s, p, a), labels[1..], t);
    }
  }

  /** Callers that keep to the discipline are safe: a table disappears only when its last
      guard is dropped, with no child present and nothing to be counted. */
  lemma FreedOnlyWhenUnused(s: State, labels: seq<Label>, t: State, p: nat, a: Action, e: Path)
    requires Initial(s) && DisciplinedRun(s, labels, t) && Enabled(t, p, a)
    requires e in t.tables && e !in Apply(t, p, a).tables
    ensures Reachable(t) && a.DropGuard? && t.threads[p].pos == e
    ensures Guards(t.threads, e) == {p} && Kids(t.tables, t.pages, e) == {}
    ensures Incs(t.threads, e) == {} && Decs(t.threads, e) == {}
  {
    InitialInv(s);
    DisciplineSuffices(s, labels, t);
    FreedExactly(t, p, a, e);
    ReachableInv(t);
    PagesThereRight(t, p, a);
    LastGuard(t, p);
    assert Guards(t.threads, e) - Incs(t.threads, e) == Guards(t.threads, e);
  }

  // ----- the race is reachable -----

  lemma {:induction false} RunSnoc(s: State, labels: seq<Label>, t: State, l: Label)
    requires Run(s, labels, t) && Enabled(t, l.thread, l.action) && !Wrongful(t, l.thread, l.action)
    ensures Run(s, labels + [l], Apply(t, l.thread, l.action))
    decreases |labels|
  {
    if labels == [] {
      assert Run(Apply(t, l.thread, l.action), [], Apply(t, l.thread, l.action));
      assert ([l])[1..] == [];
    } else {
      RunSnoc(Apply(s, labels[0].thread, labels[0].action), labels[1..], t, l);
      assert (labels + [l])[1..] == labels[1..] + [l];
    }
  }

  lemma Extend(t: State, p: nat, a: Action)
    requires Reachable(t) && Enabled(t, p, a) && !Wrongful(t, p, a)
    ensures Reachable(Apply(t, p, a))
  {
    var s, labels :| Initial(s) && Run(s, labels, t);
    RunSnoc(s, labels, t, Label(p, a));
  }

  /** Thread 0 builds the three tables above a page. */
  lemma TablesReachable() returns (t: State)
    ensures Reachable(t) && t.pages == {} && t.initing == {}
    ensures t.threads == map[0 := Thread([0, 0, 0], Ready), 1 := Thread([], Ready)]
    ensures t.tables.Keys == {[0], [0, 0], [0, 0, 0]}
  {
    var s := FirstTable();
    assert [0] + [0] == [0, 0] && [0, 0] + [0] == [0, 0, 0];
    s := ReachLevel(s, [0]);
    t := ReachLevel(s, [0, 0]);
  }

  lemma FirstTable() returns (t: State)
    ensures Reachable(t) && t.pages == {} && t.initing == {}
    ensures t.threads == map[0 := Thread([0], Ready), 1 := Thread([], Ready)]
    ensures t.tables.Keys == {[0]}
  {
    var s := State(map[], {}, {}, map[0 := Thread([], Ready), 1 := Thread([], Ready)]);
    assert Run(s, [], s);
    assert [] + [0] == [0];
    t := ReachLevel(s, []);
  }

  /** Two threads, one page: thread 0 has mapped the page and not counted it while
      thread 1 holds the same table. */
  lemma RaceState() returns (t: State)
    ensures Reachable(t) && t.pages == {[0, 0, 0, 0]} && t.tables.Keys == {[0], [0, 0], [0, 0, 0]}
    ensures t.threads == map[0 := Thread([0, 0, 0], PendInc([0, 0, 0, 0])), 1 := Thread([0, 0, 0], Ready)]
  {
    var s := BothInTable();
    assert [0, 0, 0] + [0] == [0, 0, 0, 0];
    Extend(s, 0, SetPage(0));
    t := Apply(s, 0, SetPage(0));
  }

  /** Thread 1 has unmapped the page. */
  lemma Unmapped() returns (t: State)
    ensures Reachable(t) && t.pages == {} && t.tables.Keys == {[0], [0, 0], [0, 0, 0]}
    ensures t.threads == map[0 := Thread([0, 0, 0], PendInc([0, 0, 0, 0])),
                             1 := Thread([0, 0, 0], PendDec([0, 0, 0, 0]))]
  {
    var s := RaceState();
    assert [0, 0, 0] + [0] == [0, 0, 0, 0];
    Extend(s, 1, TryUnmap(0));
    t := Apply(s, 1, TryUnmap(0));
  }

  /** And counted that. */
  lemma CountedDown() returns (t: State)
    ensures Reachable(t) && t.pages == {} && t.tables.Keys == {[0], [0, 0], [0, 0, 0]}
    ensures t.threads == map[0 := Thread([0, 0, 0], PendInc([0, 0, 0, 0])), 1 := Thread([0, 0, 0], Ready)]
  {
    var s := Unmapped();
    assert Parent([0, 0, 0, 0]) == [0, 0, 0];
    ReachableInv(s);
    DecSafe(s, 1);
    Extend(s, 1, Finish);
    t := Apply(s, 1, Finish);
  }

  /** The wrongful drop happens: two threads, one mapping a page and the other unmapping
      it before it is counted, come to it. */
  lemma WrongfulReachable()
    ensures exists s, p :: Reachable(s) && Enabled(s, p, DropGuard) && Wrongful(s, p, DropGuard)
  {
    var s := CountedDown();
    var e: Path := [0, 0, 0];
    ReachableInv(s);
    assert Incs(s.threads, e) == {0} && Guards(s.threads, e) == {0, 1} by { assert Parent([0, 0, 0, 0]) == e; }
    assert Decs(s.threads, e) == {};
    forall i ensures e + [i] !in s.tables { assert |e + [i]| == 4; }
    assert Kids(s.tables, s.pages, e) == {};
    LastGuard(s, 1);
    assert Wrongful(s, 1, DropGuard);
  }

  /** Thread 1 follows thread 0 down to the last table. */
  lemma BothInTable() returns (t: State)
    ensures Reachable(t) && t.pages == {} && t.tables.Keys == {[0], [0, 0], [0, 0, 0]}
    ensures t.threads == map[0 := Thread([0, 0, 0], Ready), 1 := Thread([0, 0, 0], Ready)]
  {
    var s3 := TablesReachable();
    assert [] + [0] == [0] && [0] + [0] == [0, 0] && [0, 0] + [0] == [0, 0, 0];
    var s4 := Walk(s3, []);
    var s5 := Walk(s4, [0]);
    t := Walk(s5, [0, 0]);
  }

  /** Thread 0 creates the table at index 0 below `pos` and counts it. */
  lemma ReachLevel(s: State, pos: Path) returns (t: State)
    requires Reachable(s) && |pos| < 3 && 0 in s.threads && 1 in s.threads && s.threads[0] == Thread(pos, Ready)
    requires s.threads[1] == Thread([], Ready) && s.pages == {} && s.initing == {} && pos + [0] !in s.tables
    requires pos != [] ==> pos in s.tables
    ensures Reachable(t) && t.threads == s.threads[0 := Thread(pos + [0], Ready)] && t.pages == {} && t.initing == {}
    ensures t.tables.Keys == s.tables.Keys + {pos + [0]}
  {
    var c := pos + [0];
    assert Parent(c) == pos;
    t := Published(s, pos);
    if |c| >= 2 {
      var s2 := t;
      Extend(s2, 0, Finish);
      t := Apply(s2, 0, Finish);
    }
  }

  /** The new table is in place and its parent not yet counted up. */
  lemma Published(s: State, pos: Path) returns (t: State)
    requires Reachable(s) && |pos| < 3 && 0 in s.threads && s.threads[0] == Thread(pos, Ready)
    requires s.pages == {} && s.initing == {} && pos + [0] !in s.tables && (pos != [] ==> pos in s.tables)
    ensures Reachable(t) && t.pages == {} && t.initing == {} && t.tables.Keys == s.tables.Keys + {pos + [0]}
    ensures t.threads == s.threads[0 := Thread(pos + [0], if |pos| >= 1 then PendInc(pos + [0]) else Ready)]
  {
    Extend(s, 0, Acquire(0));
    var s1 := Apply(s, 0, Acquire(0));
    assert s1.threads[0].pc == Init(pos + [0]);
    Extend(s1, 0, Finish);
    t := Apply(s1, 0, Finish);
    assert t.initing == {};
  }

  /** Thread 1 walks down the existing tables. */
  lemma Walk(s: State, pos: Path) returns (t: State)
    requires Reachable(s) && |pos| < 3 && 0 in s.threads && 1 in s.threads && s.threads[1] == Thread(pos, Ready)
    requires pos + [0] in s.tables && s.initing == {}
    ensures Reachable(t) && t.threads == s.threads[1 := Thread(pos + [0], Ready)] && t.pages == s.pages && t.initing == {}
    ensures t.tables.Keys == s.tables.Keys
  {
    Extend(s, 1, Descend(0));
    t := Apply(s, 1, Descend(0));
  }
}
