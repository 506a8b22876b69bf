/** The spinning reader/writer lock: one 64-bit word changed by fetch-add, a
    compare-exchange loop and a store, used by any number of threads below 2^62. */
module RwLock {
  import opened Basics

  const MIN: int := -0x8000_0000_0000_0000
  const RELOAD_LIMIT: int := -0x4000_0000_0000_0000
  const MAX_THREADS: int := 0x4000_0000_0000_0000

  /** Two's-complement wrap-around of the 64-bit word after adding or subtracting one. */
  function Wrap(n: int): int {
    if n >= -MIN then n + 2 * MIN else if n < MIN then n - 2 * MIN else n
  }

  /** A thread inside `reload` remembers in which writer session its read failed;
      the session number is history. */
  datatype Pc =
    | Idle
    | Reading
    | Writing
    | Failed(session: nat)
    | Reload(session: nat, value: int)

  /** `session` counts the successful `try_write`s. */
  datatype State = State(word: int, threads: map<nat, Pc>, session: nat)

  datatype Action = TryRead | DropRead | TryWrite | DropWrite | Load | CompareExchange

  predicate Enabled(s: State, p: nat, a: Action) {
    && p in s.threads
    && match a
       case TryRead => s.threads[p].Idle?
       case TryWrite => s.threads[p].Idle?
       case DropRead => s.threads[p].Reading?
       case DropWrite => s.threads[p].Writing?
       case Load => s.threads[p].Failed?
       case CompareExchange => s.threads[p].Reload?
  }

  function Set(s: State, p: nat, word: int, pc: Pc): State {
    s.(word := word, threads := s.threads[p := pc])
  }

  /** The branches of `try_read`, `reload`, `try_write` and the guard drops. Note
      that `reload` resets the word while it is at or below the limit, not once it
      has risen above it. */
  function Apply(s: State, p: nat, a: Action): (r: State)
    requires Enabled(s, p, a)
  {
    match a
    case TryRead =>
      Set(s, p, Wrap(s.word + 1),
          if s.word >= 0 then Reading else if s.word <= RELOAD_LIMIT then Failed(s.session) else Idle)
    case DropRead => Set(s, p, Wrap(s.word - 1), Idle)
    case TryWrite => if s.word == 0 then Set(s, p, MIN, Writing).(session := s.session + 1) else s
    case DropWrite => Set(s, p, 0, Idle)
    case Load => Set(s, p, s.word, Reload(s.threads[p].session, s.word))
    case CompareExchange =>
      var value := s.threads[p].value;
      if value <= RELOAD_LIMIT then
        if s.word == value then Set(s, p, MIN, Idle) else Set(s, p, s.word, Reload(s.threads[p].session, s.word))
      else Set(s, p, s.word, Idle)
  }

  ghost predicate Initial(s: State) {
    && s.word == 0 && s.session == 0 && |s.threads| < MAX_THREADS
    && forall p :: p in s.threads ==> s.threads[p].Idle?
  }

  datatype Label = Label(thread: nat, action: Action)

  ghost predicate Run(s: State, labels: seq<Label>, t: State)
    decreases |labels|
  {
    if labels == [] then s == t
    else
      && Enabled(s, labels[0].thread, labels[0].action)
      && Run(Apply(s, labels[0].thread, labels[0].action), labels[1..], t)
  }

  // ----- the invariant -----

  ghost function Readers(threads: map<nat, Pc>): set<nat> {
    set p | p in threads && threads[p].Reading?
  }

  ghost function Writers(threads: map<nat, Pc>): set<nat> {
    set p | p in threads && threads[p].Writing?
  }

  predicate InReload(pc: Pc, session: nat) {
    (pc.Failed? || pc.Reload?) && pc.session == session
  }

  /** Threads whose read failed in this session and that have not left `reload`. */
  ghost function Reloaders(threads: map<nat, Pc>, session: nat): set<nat> {
    set p | p in threads && InReload(threads[p], session)
  }

  /** A thread that owes a reload saw a value it will reset. */
  ghost predicate SawLow(s: State, p: nat) {
    p in s.threads && s.threads[p].Reload? && s.threads[p].session == s.session ==>
      s.threads[p].value <= RELOAD_LIMIT
  }

  ghost predicate PastSession(s: State, p: nat) {
    p in s.threads && (s.threads[p].Failed? || s.threads[p].Reload?) ==> s.threads[p].session <= s.session
  }

  /** While write-locked the word is above its reset value by at most one for every
      thread that still owes a reload, and each of those saw a value it will reset. */
  ghost predicate WriteLocked(s: State) {
    && Readers(s.threads) == {}
    && MIN <= s.word <= MIN + |Reloaders(s.threads, s.session)|
    && (forall p {:trigger SawLow(s, p)} :: SawLow(s, p))
  }

  ghost predicate Inv(s: State) {
    && |s.threads| < MAX_THREADS
    && (forall p {:trigger PastSession(s, p)} :: PastSession(s, p))
    && |Writers(s.threads)| <= 1
    && if Writers(s.threads) == {} then s.word == |Readers(s.threads)| else WriteLocked(s)
  }

  lemma Sizes(s: State)
    ensures |Readers(s.threads)| <= |s.threads|
    ensures |Reloaders(s.threads, s.session)| <= |s.threads|
  {
    SubsetSize(Readers(s.threads), s.threads.Keys);
    SubsetSize(Reloaders(s.threads, s.session), s.threads.Keys);
  }

  /** What one thread's move does to the three sets. */
  lemma Moved(threads: map<nat, Pc>, p: nat, pc: Pc, session: nat)
    requires p in threads
    ensures Readers(threads[p := pc]) == Readers(threads) - {p} + (if pc.Reading? then {p} else {})
    ensures Writers(threads[p := pc]) == Writers(threads) - {p} + (if pc.Writing? then {p} else {})
    ensures Reloaders(threads[p := pc], session)
            == Reloaders(threads, session) - {p} + (if InReload(pc, session) then {p} else {})
    ensures |threads[p := pc]| == |threads|
    ensures p in Readers(threads) <==> threads[p].Reading?
    ensures p in Writers(threads) <==> threads[p].Writing?
    ensures p in Reloaders(threads, session) <==> InReload(threads[p], session)
  {
    assert threads[p := pc].Keys == threads.Keys;
  }

  lemma Replaced(xs: set<nat>, p: nat, now: bool)
    ensures var ys := xs - {p} + (if now then {p} else {});
            (now == (p in xs) ==> ys == xs) && (now && p !in xs ==> |ys| == |xs| + 1)
  {
    if now && p !in xs {
      assert xs - {p} == xs;
    }
  }

  /** A thread that held no guard and gets none leaves readers and writers alone. */
  lemma NoGuardMoved(threads: map<nat, Pc>, p: nat, pc: Pc, session: nat)
    requires p in threads && !threads[p].Reading? && !threads[p].Writing? && !pc.Reading? && !pc.Writing?
    ensures Readers(threads[p := pc]) == Readers(threads) && Writers(threads[p := pc]) == Writers(threads)
    ensures InReload(pc, session) == InReload(threads[p], session) ==>
              Reloaders(threads[p := pc], session) == Reloaders(threads, session)
    ensures InReload(pc, session) && !InReload(threads[p], session) ==>
              |Reloaders(threads[p := pc], session)| == |Reloaders(threads, session)| + 1
    ensures |threads[p := pc]| == |threads|
  {
    Moved(threads, p, pc, session);
    Replaced(Readers(threads), p, false);
    Replaced(Writers(threads), p, false);
    Replaced(Reloaders(threads, session), p, InReload(pc, session));
  }

  /** The threads that did not move saw what they saw before. */
  lemma OthersKept(s: State, p: nat, t: State)
    requires p in s.threads && p in t.threads && t.session == s.session && t.threads == s.threads[p := t.threads[p]]
    requires forall q {:trigger PastSession(s, q)} :: PastSession(s, q)
    requires PastSession(t, p)
    ensures forall q {:trigger PastSession(t, q)} :: PastSession(t, q)
    ensures (forall q {:trigger SawLow(s, q)} :: SawLow(s, q)) && SawLow(t, p) ==>
              forall q {:trigger SawLow(t, q)} :: SawLow(t, q)
  {
    forall q ensures PastSession(t, q) {
      assert PastSession(s, q);
    }
    if (forall q {:trigger SawLow(s, q)} :: SawLow(s, q)) && SawLow(t, p) {
      forall q ensures SawLow(t, q) {
        assert SawLow(s, q);
      }
    }
  }

  lemma ReadGranted(s: State, p: nat)
    requires Inv(s) && Enabled(s, p, TryRead) && s.word >= 0
    ensures Inv(Apply(s, p, TryRead))
  {
    Sizes(s);
    Moved(s.threads, p, Reading, s.session);
    OthersKept(s, p, Apply(s, p, TryRead));
  }

  lemma ReadRefused(s: State, p: nat)
    requires Inv(s) && Enabled(s, p, TryRead) && s.word < 0
    ensures Inv(Apply(s, p, TryRead))
  {
    Sizes(s);
    NoGuardMoved(s.threads, p, Failed(s.session), s.session);
    OthersKept(s, p, Apply(s, p, TryRead));
  }

  lemma TryReadKeeps(s: State, p: nat)
    requires Inv(s) && Enabled(s, p, TryRead)
    ensures Inv(Apply(s, p, TryRead))
  {
    if s.word >= 0 { ReadGranted(s, p); } else { ReadRefused(s, p); }
  }

  lemma DropReadKeeps(s: State, p: nat)
    requires Inv(s) && Enabled(s, p, DropRead)
    ensures Inv(Apply(s, p, DropRead))
  {
    Sizes(s);
    Moved(s.threads, p, Idle, s.session);
    OthersKept(s, p, Apply(s, p, DropRead));
  }

  lemma TryWriteKeeps(s: State, p: nat)
    requires Inv(s) && Enabled(s, p, TryWrite)
    ensures Inv(Apply(s, p, TryWrite))
  {
    Sizes(s);
    if s.word == 0 {
      var t := Apply(s, p, TryWrite);
      Moved(s.threads, p, Writing, s.session + 1);
      assert Writers(s.threads) == {};
      assert Readers(s.threads) == {};
      forall q ensures PastSession(t, q) && SawLow(t, q) {
        assert PastSession(s, q);
      }
    }
  }

  lemma DropWriteKeeps(s: State, p: nat)
    requires Inv(s) && Enabled(s, p, DropWrite)
    ensures Inv(Apply(s, p, DropWrite))
  {
    Moved(s.threads, p, Idle, s.session);
    OthersKept(s, p, Apply(s, p, DropWrite));
    assert |Writers(s.threads) - {p}| == 0;
  }

  lemma LoadKeeps(s: State, p: nat)
    requires Inv(s) && Enabled(s, p, Load)
    ensures Inv(Apply(s, p, Load))
  {
    var t := Apply(s, p, Load);
    Sizes(s);
    NoGuardMoved(s.threads, p, t.threads[p], s.session);
    assert PastSession(s, p);
    OthersKept(s, p, t);
  }

  lemma CompareExchangeKeeps(s: State, p: nat)
    requires Inv(s) && Enabled(s, p, CompareExchange)
    ensures Inv(Apply(s, p, CompareExchange))
  {
    var t := Apply(s, p, CompareExchange);
    Sizes(s);
    NoGuardMoved(s.threads, p, t.threads[p], s.session);
    assert PastSession(s, p) && (Writers(s.threads) != {} ==> SawLow(s, p));
    OthersKept(s, p, t);
  }

  lemma StepKeeps(s: State, p: nat, a: Action)
    requires Inv(s) && Enabled(s, p, a)
    ensures Inv(Apply(s, p, a))
  {
    match a
    case TryRead => TryReadKeeps(s, p);
    case DropRead => DropReadKeeps(s, p);
    case TryWrite => TryWriteKeeps(s, p);
    case DropWrite => DropWriteKeeps(s, p);
    case Load => LoadKeeps(s, p);
    case CompareExchange => CompareExchangeKeeps(s, p);
  }

  lemma {:induction false} RunKeeps(s: State, labels: seq<Label>, t: State)
    requires Inv(s) && Run(s, labels, t)
    ensures Inv(t)
    decreases |labels|
  {
    if labels != [] {
      StepKeeps(s, labels[0].thread, labels[0].action);
      RunKeeps(Apply(s, labels[0].thread, labels[0].action), labels[1..], t);
    }
  }

  ghost predicate Reachable(t: State) {
    exists s, labels :: Initial(s) && Run(s, labels, t)
  }

  lemma ReachableInv(t: State)
    requires Reachable(t)
    ensures Inv(t)
  {
    var s, labels :| Initial(s) && Run(s, labels, t);
    assert Readers(s.threads) == {} && Writers(s.threads) == {};
    RunKeeps(s, labels, t);
  }

  // ----- the theorems -----

  /** In every run: a non-negative word is the number of readers and there is no
      writer; a negative word means one writer and no reader. */
  lemma Exclusion(t: State)
    requires Reachable(t)
    ensures t.word >= 0 ==> t.word == |Readers(t.threads)| && Writers(t.threads) == {}
    ensures t.word < 0 ==> |Writers(t.threads)| == 1 && Readers(t.threads) == {}
  {
    ReachableInv(t);
    Sizes(t);
  }

  /** Failed reads and races between reloads never lift a write-locked word above
      the reload limit, so the last branch of `try_read` is never taken. */
  lemma WriteLockedStaysLow(t: State)
    requires Reachable(t)
    ensures t.word < 0 ==> MIN <= t.word < RELOAD_LIMIT
  {
    ReachableInv(t);
    Sizes(t);
  }

  /** A read succeeds exactly when no thread holds the write guard, and a write
      exactly when no thread holds any guard. */
  lemma GrantsExactly(t: State, p: nat)
    requires Reachable(t) && p in t.threads && t.threads[p].Idle?
    ensures Apply(t, p, TryRead).threads[p].Reading? <==> Writers(t.threads) == {}
    ensures Apply(t, p, TryWrite).threads[p].Writing? <==> Writers(t.threads) == {} && Readers(t.threads) == {}
  {
    ReachableInv(t);
    Sizes(t);
    Exclusion(t);
  }
}
