/** The bounded byte stream behind pipes, and the protocol by which a writer without room
    waits for a reader. */
module StreamBuffer {
  import opened Basics

  /** The two sizes a stream is built with. */
  datatype Sizes = Sizes(capacity: nat, atomic: nat)

  predicate ValidSizes(z: Sizes) {
    0 < z.atomic <= z.capacity
  }

  datatype Result = Ok(count: nat) | Again | BrokenPipe

  /** A write of this size has to wait. */
  predicate NoRoom(z: Sizes, length: nat, count: nat)
    requires length <= z.capacity
  {
    if count <= z.atomic then z.capacity - length < count else z.capacity - length == 0
  }

  /** Readers notify only when fewer bytes than an atomic write would have fit. */
  predicate WasFull(z: Sizes, length: nat)
    requires length <= z.capacity
  {
    z.capacity - length < z.atomic
  }

  // ----- reads and writes -----

  class Stream {
    const sizes: Sizes
    var buffer: seq<Byte>
    var readerOpen: bool
    var writerOpen: bool
    /** How often `notify` was called. */
    var notifications: nat
    /** Everything ever written and ever read. */
    ghost var given: seq<Byte>
    ghost var taken: seq<Byte>

    /** Bytes leave in the order they came, and the capacity is respected. */
    ghost predicate Valid()
      reads this
    {
      ValidSizes(sizes) && |buffer| <= sizes.capacity && given == taken + buffer
    }

    constructor (sizes: Sizes)
      requires ValidSizes(sizes)
      ensures Valid() && buffer == [] && readerOpen && writerOpen && this.sizes == sizes
    {
      this.sizes := sizes;
      buffer, readerOpen, writerOpen, notifications := [], true, true, 0;
      given, taken := [], [];
    }

    /** The loop that pops bytes into a caller's buffer. */
    method PopInto(buf: array<Byte>) returns (read: nat)
      requires Valid()
      modifies this`buffer, this`taken, buf
      ensures Valid() && read == Min(buf.Length, |old(buffer)|)
      ensures buf[..read] == old(buffer)[..read] && buf[read..] == old(buf[read..])
      ensures buffer == old(buffer)[read..] && taken == old(taken) + old(buffer)[..read]
    {
      read := 0;
      ghost var before := buffer;
      while read < buf.Length && buffer != []
        invariant read <= buf.Length && read <= |before| && buffer == before[read..] && taken == old(taken)
        invariant forall k | 0 <= k < read :: buf[k] == before[k]
        invariant forall k | read <= k < buf.Length :: buf[k] == old(buf[k])
      {
        buf[read] := buffer[0];
        buffer := buffer[1..];
        read := read + 1;
      }
      taken := taken + before[..read];
      assert given == taken + buffer;
    }

    /** `read` into a caller's buffer. */
    method Read(buf: array<Byte>) returns (r: Result)
      requires Valid()
      modifies this`buffer, this`notifications, this`taken, buf
      ensures Valid()
      ensures r.Again? <==> buf.Length > 0 && old(buffer) == [] && writerOpen
      ensures !r.BrokenPipe?
      ensures r.Ok? ==>
                && r.count == Min(buf.Length, |old(buffer)|)
                && buf[..r.count] == old(buffer)[..r.count] && buf[r.count..] == old(buf[r.count..])
                && buffer == old(buffer)[r.count..] && taken == old(taken) + old(buffer)[..r.count]
      ensures !r.Ok? ==> buffer == old(buffer) && taken == old(taken) && buf[..] == old(buf[..])
      ensures notifications == old(notifications)
                               + if r.Ok? && r.count > 0 && WasFull(sizes, |old(buffer)|) then 1 else 0
    {
      if buf.Length == 0 {
        return Ok(0);
      }
      if buffer == [] {
        return if writerOpen then Again else Ok(0);
      }
      var wasFull := WasFull(sizes, |buffer|);
      var read := PopInto(buf);
      if wasFull {
        notifications := notifications + 1;
      }
      r := Ok(read);
    }

    /** `write`: a write of at most the atomic size goes in whole or not at all. */
    method Write(bytes: seq<Byte>) returns (r: Result)
      requires Valid()
      modifies this`buffer, this`notifications, this`given
      ensures Valid()
      ensures r.BrokenPipe? <==> !readerOpen
      ensures r.Again? <==> readerOpen && bytes != [] && NoRoom(sizes, |old(buffer)|, |bytes|)
      ensures r.Ok? ==>
                && r.count == Min(|bytes|, sizes.capacity - |old(buffer)|)
                && buffer == old(buffer) + bytes[..r.count] && given == old(given) + bytes[..r.count]
                && (|bytes| <= sizes.atomic ==> r.count == |bytes|)
                && (bytes != [] ==> r.count > 0)
      ensures !r.Ok? ==> buffer == old(buffer) && given == old(given)
      ensures notifications == old(notifications) + if r.Ok? && bytes != [] then 1 else 0
    {
      if !readerOpen {
        return BrokenPipe;
      }
      if bytes == [] {
        return Ok(0);
      }
      var room := sizes.capacity - |buffer|;
      if (if |bytes| <= sizes.atomic then room < |bytes| else room == 0) {
        return Again;
      }
      var len := Min(|bytes|, room);
      buffer, given := buffer + bytes[..len], given + bytes[..len];
      notifications := notifications + 1;
      r := Ok(len);
    }
  }

  // ----- waiting for room -----

  /** A writer inside `ready_for_write`: it has noted the generation, has found no room
      and is about to await, is registered, or was woken. */
  datatype Waiter =
    | Idle
    | Noted(count: nat, generation: nat)
    | Blocked(count: nat, generation: nat)
    | Registered(count: nat, generation: nat)
    | Woken(count: nat)

  /** `owed` counts notifications still to come: those of writers that have left their lock
      section, and that of a reader whose half is being dropped. `closing` says that the
      latter is among them. */
  datatype State = State(
    sizes: Sizes,
    length: nat,
    generation: nat,
    readerOpen: bool,
    closing: bool,
    owed: nat,
    waiters: map<nat, Waiter>)

  datatype Action =
    | Read(want: nat)
    | Write(count: nat)
    | NotifyOwed
    | NotifyExtra
    | CloseReader
    | NotifyClosed
    | Start(waiter: nat, count: nat)
    | Check(waiter: nat)
    | Await(waiter: nat)

  predicate Enabled(s: State, a: Action) {
    match a
    case Read(want) => s.readerOpen && want > 0
    case Write(count) => count > 0
    case NotifyOwed => s.owed > 0
    case NotifyExtra => true
    case CloseReader => s.readerOpen
    case NotifyClosed => s.closing
    case Start(w, _) => w in s.waiters && s.waiters[w].Idle?
    case Check(w) => w in s.waiters && s.waiters[w].Noted?
    case Await(w) => w in s.waiters && (s.waiters[w].Blocked? || s.waiters[w].Registered? || s.waiters[w].Woken?)
  }

  function Wake(w: Waiter): Waiter {
    if w.Registered? then Woken(w.count) else w
  }

  /** One call of `notify`. */
  function Notified(s: State): State {
    s.(generation := s.generation + 1, waiters := map w | w in s.waiters :: Wake(s.waiters[w]))
  }

  function DoRead(s: State, want: nat): State
    requires s.length <= s.sizes.capacity
  {
    if s.length == 0 then s
    else
      var r := s.(length := s.length - Min(want, s.length));
      if WasFull(s.sizes, s.length) then Notified(r) else r
  }

  function DoWrite(s: State, count: nat): State
    requires s.length <= s.sizes.capacity
  {
    if NoRoom(s.sizes, s.length, count) then s
    else s.(length := s.length + Min(count, s.sizes.capacity - s.length), owed := s.owed + 1)
  }

  /** The check under the buffer's lock. */
  function DoCheck(s: State, w: nat): State
    requires s.length <= s.sizes.capacity && w in s.waiters && s.waiters[w].Noted?
  {
    var v := s.waiters[w];
    if !NoRoom(s.sizes, s.length, v.count) || !s.readerOpen then s.(waiters := s.waiters[w := Idle])
    else s.(waiters := s.waiters[w := Blocked(v.count, v.generation)])
  }

  /** A poll of the wait: over when the generation has moved on, after which the loop
      starts again; otherwise the waiter is registered. */
  function DoAwait(s: State, w: nat): State
    requires w in s.waiters && (s.waiters[w].Blocked? || s.waiters[w].Registered? || s.waiters[w].Woken?)
  {
    var v := s.waiters[w];
    if v.Woken? || v.generation != s.generation then s.(waiters := s.waiters[w := Noted(v.count, s.generation)])
    else s.(waiters := s.waiters[w := Registered(v.count, v.generation)])
  }

  function Apply(s: State, a: Action): State
    requires Enabled(s, a) && s.length <= s.sizes.capacity
  {
    match a
    case Read(want) => DoRead(s, want)
    case Write(count) => DoWrite(s, count)
    case NotifyOwed => Notified(s.(owed := s.owed - 1))
    case NotifyExtra => Notified(s)
    case CloseReader => s.(readerOpen := false, closing := true)
    case NotifyClosed => Notified(s.(closing := false))
    case Start(w, count) => s.(waiters := s.waiters[w := Noted(count, s.generation)])
    case Check(w) => DoCheck(s, w)
    case Await(w) => DoAwait(s, w)
  }

  ghost predicate Initial(s: State) {
    && ValidSizes(s.sizes) && s.length == 0 && s.readerOpen && !s.closing && s.owed == 0
    && forall w :: w in s.waiters ==> s.waiters[w].Idle?
  }

  ghost predicate Run(s: State, actions: seq<Action>, t: State)
    decreases |actions|
  {
    if actions == [] then s == t
    else s.length <= s.sizes.capacity && Enabled(s, actions[0]) && Run(Apply(s, actions[0]), actions[1..], t)
  }

  /** A waiter whose generation still stands has no room, and if the reader is gone, its
      notification is still to come. */
  ghost predicate WaiterOk(s: State, w: nat) {
    w in s.waiters ==>
      var v := s.waiters[w];
      && (v.Noted? || v.Blocked? || v.Registered? ==> v.generation <= s.generation)
      && (v.Registered? ==> v.generation == s.generation)
      && ((v.Blocked? || v.Registered?) && v.generation == s.generation ==>
            s.length <= s.sizes.capacity && NoRoom(s.sizes, s.length, v.count) && (s.readerOpen || s.closing))
  }

  ghost predicate Inv(s: State) {
    && ValidSizes(s.sizes) && s.length <= s.sizes.capacity
    && forall w {:trigger WaiterOk(s, w)} :: WaiterOk(s, w)
  }

  /** Whoever has no room is notified by the next read that takes anything. */
  lemma NoRoomIsFull(z: Sizes, length: nat, count: nat)
    requires ValidSizes(z) && length <= z.capacity && NoRoom(z, length, count)
    ensures WasFull(z, length) && length > 0
  {
  }

  /** A notification leaves nobody waiting in the new generation. */
  lemma NotifiedKeeps(s: State, t: State)
    requires Inv(s) && t.sizes == s.sizes && t.length <= t.sizes.capacity
    requires t.generation == s.generation && t.waiters == s.waiters
    ensures Inv(Notified(t))
  {
    forall w ensures WaiterOk(Notified(t), w) {
      assert WaiterOk(s, w);
    }
  }

  lemma ReadKeeps(s: State, want: nat)
    requires Inv(s) && Enabled(s, Read(want))
    ensures Inv(DoRead(s, want))
  {
    if s.length > 0 && WasFull(s.sizes, s.length) {
      NotifiedKeeps(s, s.(length := s.length - Min(want, s.length)));
    } else {
      forall w ensures WaiterOk(DoRead(s, want), w) {
        assert WaiterOk(s, w);
      }
    }
  }

  /** The steps of one waiter. */
  lemma WaiterKeeps(s: State, a: Action)
    requires Inv(s) && Enabled(s, a) && (a.Start? || a.Check? || a.Await?)
    ensures Inv(Apply(s, a))
  {
    forall w ensures WaiterOk(Apply(s, a), w) {
      assert WaiterOk(s, w);
    }
  }

  lemma WriteKeeps(s: State, a: Action)
    requires Inv(s) && Enabled(s, a) && (a.Write? || a.CloseReader?)
    ensures Inv(Apply(s, a))
  {
    forall w ensures WaiterOk(Apply(s, a), w) {
      assert WaiterOk(s, w);
    }
  }

  lemma StepKeeps(s: State, a: Action)
    requires Inv(s) && Enabled(s, a)
    ensures Inv(Apply(s, a))
  {
    match a
    case Read(want) => ReadKeeps(s, want);
    case NotifyOwed => NotifiedKeeps(s, s.(owed := s.owed - 1));
    case NotifyExtra => NotifiedKeeps(s, s);
    case NotifyClosed => NotifiedKeeps(s, s.(closing := false));
    case Write(_) => WriteKeeps(s, a);
    case CloseReader => WriteKeeps(s, a);
    case _ => WaiterKeeps(s, a);
  }

  lemma {:induction false} RunKeeps(s: State, actions: seq<Action>, t: State)
    requires Inv(s) && Run(s, actions, t)
    ensures Inv(t)
    decreases |actions|
  {
    if actions != [] {
      StepKeeps(s, actions[0]);
      RunKeeps(Apply(s, actions[0]), actions[1..], t);
    }
  }

  ghost predicate Reachable(t: State) {
    exists s, actions :: Initial(s) && Run(s, actions, t)
  }

  lemma ReachableInv(t: State)
    requires Reachable(t)
    ensures Inv(t)
  {
    var s, actions :| Initial(s) && Run(s, actions, t);
    RunKeeps(s, actions, t);
  }

  /** A blocked writer is always notified by the next read: there is something to read, and
      after the read the writer is awake, or will find its wait over when it first polls. */
  lemma NextReadNotifies(s: State, w: nat, want: nat)
    requires Reachable(s) && w in s.waiters && (s.waiters[w].Blocked? || s.waiters[w].Registered?) && want > 0
    requires s.waiters[w].generation == s.generation
    ensures s.length > 0 && s.length <= s.sizes.capacity
    ensures var v := DoRead(s, want).waiters[w];
            v.Woken? || (v.Blocked? && v.generation != DoRead(s, want).generation)
  {
    ReachableInv(s);
    assert WaiterOk(s, w);
    NoRoomIsFull(s.sizes, s.length, s.waiters[w].count);
  }

  /** No writer sleeps although it could go on: while it is registered there is no room for
      it, and the reader is open or about to notify. */
  lemma SleepsOnlyWithoutRoom(s: State, w: nat)
    requires Reachable(s) && w in s.waiters && s.waiters[w].Registered?
    ensures s.length <= s.sizes.capacity && NoRoom(s.sizes, s.length, s.waiters[w].count)
    ensures s.readerOpen || s.closing
  {
    ReachableInv(s);
    assert WaiterOk(s, w);
  }
}
