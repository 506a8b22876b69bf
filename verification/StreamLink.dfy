/** The waiting machine of `StreamBuffer` is what the stream and the notification list do:
    each method performs one of its actions on the two objects. */
module StreamLink {
  import opened Basics
  import opened StreamBuffer
  import N = Notify

  /** The future behind a waiter. A waiter's task has the waiter's number. */
  ghost predicate WaiterLinked(v: Waiter, w: nat, waits: map<nat, N.Wait>, generation: nat) {
    match v
    case Idle => w !in waits
    case Noted(_, g) => w in waits && waits[w] == N.Wait(g, None)
    case Blocked(_, g) => w in waits && waits[w] == N.Wait(g, None)
    case Registered(_, g) => w in waits && waits[w] == N.Wait(g, Some(w))
    case Woken(_) => w in waits && waits[w].start != generation
  }

  ghost predicate Linked(stream: Stream, list: N.NotifyList, s: State)
    reads stream, list
  {
    && stream.Valid() && list.Valid()
    && s.sizes == stream.sizes && s.length == |stream.buffer| && s.readerOpen == stream.readerOpen
    && s.generation == list.generation
    && forall w {:trigger s.waiters[w]} :: w in s.waiters ==> WaiterLinked(s.waiters[w], w, list.waits, list.generation)
  }

  predicate Sleeps(s: State, w: nat) {
    w in s.waiters && s.waiters[w].Registered? && s.waiters[w].generation == s.generation
  }

  /** `notify`: the tasks woken include every waiter that the machine wakes. */
  method NotifyWaiters(stream: Stream, list: N.NotifyList, ghost s: State) returns (woken: multiset<nat>)
    requires Linked(stream, list, s)
    modifies list
    ensures Linked(stream, list, Notified(s))
    ensures forall w {:trigger s.waiters[w]} :: Sleeps(s, w) ==> w in woken
  {
    woken := list.NotifyAll();
    forall w | Sleeps(s, w) ensures w in woken {
      assert WaiterLinked(s.waiters[w], w, list.waits, s.generation);
      assert N.Registered(list.waits, s.generation, w, w);
    }
  }

  /** `read`: takes as much as the machine does and notifies exactly when it does. */
  method ReadStep(stream: Stream, list: N.NotifyList, buf: array<Byte>, ghost s: State) returns (r: Result)
    requires Linked(stream, list, s) && buf.Length > 0
    modifies stream, list, buf
    ensures Linked(stream, list, DoRead(s, buf.Length))
  {
    var before := stream.notifications;
    r := stream.Read(buf);
    ghost var taken := s.(length := |stream.buffer|);
    if stream.notifications > before {
      var woken := NotifyWaiters(stream, list, taken);
    }
  }

  /** `write` up to the end of its lock section: what it adds, and the one notification it
      then owes. */
  method WriteStep(stream: Stream, list: N.NotifyList, bytes: seq<Byte>, ghost s: State) returns (r: Result)
    requires Linked(stream, list, s) && bytes != []
    modifies stream
    ensures var t := if r.BrokenPipe? then s else DoWrite(s, |bytes|);
            Linked(stream, list, t) && stream.notifications - old(stream.notifications) == t.owed - s.owed
    ensures r.BrokenPipe? <==> !s.readerOpen
  {
    r := stream.Write(bytes);
  }

  /** `wait` at the head of the loop in `ready_for_write`. */
  method StartStep(stream: Stream, list: N.NotifyList, w: nat, count: nat, ghost s: State) returns (wait: N.Wait)
    requires Linked(stream, list, s) && Enabled(s, Start(w, count))
    modifies list
    ensures Linked(stream, list, Apply(s, Start(w, count)))
    ensures w in list.waits && list.waits[w] == wait
  {
    wait := list.Begin(w);
  }

  /** The check for room; leaving the loop drops the future. */
  method CheckStep(stream: Stream, list: N.NotifyList, w: nat, count: nat, wait: N.Wait, ghost s: State)
    returns (ready: bool)
    requires Linked(stream, list, s) && w in s.waiters && s.waiters[w] == Noted(count, wait.start)
    requires w in list.waits && list.waits[w] == wait
    modifies list
    ensures Linked(stream, list, DoCheck(s, w)) && ready == DoCheck(s, w).waiters[w].Idle?
  {
    ready := !NoRoom(stream.sizes, |stream.buffer|, count) || !stream.readerOpen;
    if ready {
      var found := list.DropWait(w, wait);
    }
  }

  /** A poll of the future; when it is over the loop starts again with a new one. */
  method AwaitStep(stream: Stream, list: N.NotifyList, w: nat, wait: N.Wait, ghost s: State)
    returns (ready: bool, after: N.Wait)
    requires Linked(stream, list, s) && Enabled(s, Await(w)) && w in list.waits && list.waits[w] == wait
    modifies list
    ensures Linked(stream, list, DoAwait(s, w)) && ready == DoAwait(s, w).waiters[w].Noted?
    ensures w in list.waits && list.waits[w] == after
  {
    var found;
    ready, after, found := list.Poll(w, wait, w);
    if ready {
      found := list.DropWait(w, after);
      after := list.Begin(w);
    }
  }
}
