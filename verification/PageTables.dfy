/** Reference-counted page tables, changed by any number of threads at once. One
    action is one successful atomic access (a compare-exchange that fails or a spin
    changes nothing). The model covers the user half, whose entries are all counted. */
module PageTables {

  /** An entry is named by its indices from level 4 down: length 1 to 3 for entries
      that point to tables, length 4 for page entries. */
  type Path = seq<nat>

  datatype Pc =
    | Ready
    /** marked INITIALIZING; the frame is being allocated and zeroed */
    | Init(c: Path)
    /** `c` has just become present; its parent has not been counted up yet */
    | PendInc(c: Path)
    /** `c` has just been cleared; its parent has not been counted down yet */
    | PendDec(c: Path)
    /** an `unwrap`, `assert_eq!(frame, None)` or `debug_assert` failed */
    | Failed

  /** A thread holds a guard on every non-empty prefix of `pos`. */
  datatype Thread = Thread(pos: Path, pc: Pc)

  /** `tables`: the stored 10-bit count of every present table entry.
      `initing`: entries marked INITIALIZING. `pages`: present page entries. */
  datatype State = State(tables: map<Path, nat>, initing: set<Path>, pages: set<Path>, threads: map<nat, Thread>)

  datatype Action =
    /** `acquire_existing` on index `i` of the deepest table held */
    | Descend(i: nat)
    /** `acquire` on index `i` */
    | Acquire(i: nat)
    | SetPage(i: nat)
    | TryUnmap(i: nat)
    /** the guard on `pos` is dropped */
    | DropGuard
    /** the second half of a pending operation */
    | Finish

  function Parent(c: Path): Path
    requires |c| > 0
  {
    c[..|c| - 1]
  }

  function SetThread(s: State, p: nat, th: Thread): State {
    s.(threads := s.threads[p := th])
  }

  /** Level 4 has 256 user entries, every other table 512. */
  predicate IndexOk(pos: Path, i: nat) {
    i < if pos == [] then 256 else 512
  }

  predicate Enabled(s: State, p: nat, a: Action) {
    && p in s.threads
    && var th := s.threads[p];
    match a
    case Descend(i) => th.pc.Ready? && |th.pos| < 3 && IndexOk(th.pos, i) && th.pos + [i] !in s.initing
    case Acquire(i) => th.pc.Ready? && |th.pos| < 3 && IndexOk(th.pos, i) && th.pos + [i] !in s.initing
    case SetPage(i) => th.pc.Ready? && |th.pos| == 3 && i < 512
    case TryUnmap(i) => th.pc.Ready? && |th.pos| == 3 && i < 512
    case DropGuard => th.pc.Ready? && |th.pos| > 0
    case Finish => (th.pc.Init? || th.pc.PendInc? || th.pc.PendDec?) && |th.pc.c| > 0
  }

  /** `increase_reference_count` on a present entry; the thread now guards it. */
  function Enter(s: State, p: nat, c: Path): State
    requires c in s.tables
  {
    SetThread(s.(tables := s.tables[c := s.tables[c] + 1]), p, Thread(c, Ready))
  }

  /** `acquire_reference_count`: count up, or claim the right to initialize. */
  function DoAcquire(s: State, p: nat, i: nat): State
    requires p in s.threads
  {
    var c := s.threads[p].pos + [i];
    if c in s.tables then Enter(s, p, c)
    else SetThread(s.(initing := s.initing + {c}), p, s.threads[p].(pc := Init(c)))
  }

  /** The zeroed table is published with count 0; below level 4 its parent is next. */
  function DoInit(s: State, p: nat, c: Path): State {
    SetThread(s.(tables := s.tables[c := 0], initing := s.initing - {c}), p,
              Thread(c, if |c| >= 2 then PendInc(c) else Ready))
  }

  /** `parent_table_entry().increase_reference_count().unwrap()` */
  function DoInc(s: State, p: nat, c: Path): State
    requires p in s.threads && |c| > 0
  {
    var e := Parent(c);
    if e in s.tables then SetThread(s.(tables := s.tables[e := s.tables[e] + 1]), p, s.threads[p].(pc := Ready))
    else SetThread(s, p, s.threads[p].(pc := Failed))
  }

  /** `parent_table_entry().release_reference_count()`, asserted to free nothing. */
  function DoDec(s: State, p: nat, c: Path): State
    requires p in s.threads && |c| > 0
  {
    var e := Parent(c);
    if e in s.tables && s.tables[e] > 0
    then SetThread(s.(tables := s.tables[e := s.tables[e] - 1]), p, s.threads[p].(pc := Ready))
    else SetThread(s.(tables := s.tables - {e}), p, s.threads[p].(pc := Failed))
  }

  /** `atomic_swap` of a present entry into the page entry. */
  function DoSetPage(s: State, p: nat, i: nat): State
    requires p in s.threads
  {
    var pg := s.threads[p].pos + [i];
    if pg in s.pages then s
    else SetThread(s.(pages := s.pages + {pg}), p, s.threads[p].(pc := PendInc(pg)))
  }

  /** `atomic_swap` of zero into the page entry. */
  function DoTryUnmap(s: State, p: nat, i: nat): State
    requires p in s.threads
  {
    var pg := s.threads[p].pos + [i];
    if pg in s.pages then SetThread(s.(pages := s.pages - {pg}), p, s.threads[p].(pc := PendDec(pg)))
    else s
  }

  /** `ActivePageTableEntryGuard::drop`: count down, or free the table and then
      release the parent. */
  function DoDrop(s: State, p: nat): State
    requires p in s.threads && |s.threads[p].pos| > 0
  {
    var e := s.threads[p].pos;
    if e !in s.tables then SetThread(s, p, s.threads[p].(pc := Failed))
    else if s.tables[e] > 0 then SetThread(s.(tables := s.tables[e := s.tables[e] - 1]), p, Thread(Parent(e), Ready))
    else SetThread(s.(tables := s.tables - {e}), p, Thread(Parent(e), if |e| >= 2 then PendDec(e) else Ready))
  }

  function Apply(s: State, p: nat, a: Action): (r: State)
    requires Enabled(s, p, a)
  {
    var th := s.threads[p];
    match a
    case Descend(i) => if th.pos + [i] in s.tables then Enter(s, p, th.pos + [i]) else s
    case Acquire(i) => DoAcquire(s, p, i)
    case SetPage(i) => DoSetPage(s, p, i)
    case TryUnmap(i) => DoTryUnmap(s, p, i)
    case DropGuard => DoDrop(s, p)
    case Finish =>
      if th.pc.Init? then DoInit(s, p, th.pc.c)
      else if th.pc.PendInc? then DoInc(s, p, th.pc.c)
      else DoDec(s, p, th.pc.c)
  }

  /** What callers can do to be safe: a page is not unmapped by one thread while another
      has mapped it and not yet counted it. */
  predicate Disciplined(s: State, p: nat, a: Action)
    requires Enabled(s, p, a)
  {
    a.TryUnmap? ==> forall q | q in s.threads :: s.threads[q].pc != PendInc(s.threads[p].pos + [a.i])
  }

  ghost predicate Initial(s: State) {
    && s.tables == map[] && s.initing == {} && s.pages == {}
    && (forall p :: p in s.threads ==> s.threads[p] == Thread([], Ready))
  }

  datatype Label = Label(thread: nat, action: Action)
}
