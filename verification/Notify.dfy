/** The notification primitive: a generation counter and a list of wakers under one lock.
    Each method is one lock section, so any order of calls is any interleaving of tasks. */
module Notify {
  import opened Basics

  /** A `wait` future: the generation it started in and which task is registered with it. */
  datatype Wait = Wait(start: nat, registered: Option<nat>)

  ghost predicate Registered(waits: map<nat, Wait>, generation: nat, task: nat, w: nat) {
    w in waits && waits[w].start == generation && waits[w].registered == Some(task)
  }

  /** The waits of this generation that a task is registered for. */
  ghost function RegisteredFor(waits: map<nat, Wait>, generation: nat, task: nat): set<nat> {
    set w | w in waits && Registered(waits, generation, task, w)
  }

  ghost predicate Counted(wakers: multiset<nat>, waits: map<nat, Wait>, generation: nat, task: nat) {
    wakers[task] == |RegisteredFor(waits, generation, task)|
  }

  ghost predicate SameWait(waits: map<nat, Wait>, after: map<nat, Wait>, v: nat) {
    (v in after <==> v in waits) && (v in waits ==> after[v] == waits[v])
  }

  /** What changing one wait does to the registrations of a task. */
  lemma Changed(waits: map<nat, Wait>, after: map<nat, Wait>, generation: nat, w: nat, task: nat)
    requires forall v {:trigger SameWait(waits, after, v)} :: v != w ==> SameWait(waits, after, v)
    ensures |RegisteredFor(after, generation, task)| - (if Registered(after, generation, task, w) then 1 else 0)
            == |RegisteredFor(waits, generation, task)| - (if Registered(waits, generation, task, w) then 1 else 0)
  {
    var before, now := RegisteredFor(waits, generation, task), RegisteredFor(after, generation, task);
    forall v ensures v in now - {w} <==> v in before - {w} {
      assert v != w ==> SameWait(waits, after, v);
    }
    assert now - {w} == before - {w};
    assert w in before <==> Registered(waits, generation, task, w);
    assert w in now <==> Registered(after, generation, task, w);
    RemoveOne(before, w);
    RemoveOne(now, w);
  }

  /** The list after one wait changed from one registration to another. */
  lemma Recounted(
    wakers: multiset<nat>, waits: map<nat, Wait>, generation: nat, w: nat, now: Wait, wakersNow: multiset<nat>, task: nat)
    requires w in waits && waits[w].start == generation == now.start && Counted(wakers, waits, generation, task)
    requires wakersNow[task] + (if waits[w].registered == Some(task) then 1 else 0)
             == wakers[task] + (if now.registered == Some(task) then 1 else 0)
    ensures Counted(wakersNow, waits[w := now], generation, task)
  {
    Changed(waits, waits[w := now], generation, w, task);
  }

  class NotifyList {
    var generation: nat
    var wakers: multiset<nat>
    /** The futures handed out and not yet dropped. */
    ghost var waits: map<nat, Wait>

    ghost predicate Valid()
      reads this
    {
      && (forall task {:trigger Counted(wakers, waits, generation, task)} :: Counted(wakers, waits, generation, task))
      && (forall w {:trigger waits[w]} :: w in waits ==> waits[w].start <= generation)
    }

    constructor ()
      ensures Valid() && waits == map[] && generation == 0
    {
      generation, wakers, waits := 0, multiset{}, map[];
    }

    /** `wait`: records the generation at once. */
    method Begin(w: nat) returns (wait: Wait)
      requires Valid() && w !in waits
      modifies this`waits
      ensures Valid() && wait == Wait(generation, None) && waits == old(waits)[w := wait]
    {
      wait := Wait(generation, None);
      waits := waits[w := wait];
      forall task ensures Counted(wakers, waits, generation, task) {
        assert Counted(wakers, old(waits), generation, task);
        Changed(old(waits), waits, generation, w, task);
      }
    }

    /** The removal in `poll` and `drop`; `found` is the `unwrap` that must not fail. */
    method RemoveWaker(start: nat, task: nat) returns (found: bool)
      modifies this`wakers
      ensures found == (start != generation || task in old(wakers))
      ensures wakers == if start == generation then old(wakers) - multiset{task} else old(wakers)
    {
      if start != generation {
        return true;
      }
      found := task in wakers;
      wakers := wakers - multiset{task};
    }

    /** `poll`: ready exactly when a notification came after `wait`; otherwise the polling
        task is now the one registered. */
    method Poll(w: nat, wait: Wait, task: nat) returns (ready: bool, after: Wait, found: bool)
      requires Valid() && w in waits && waits[w] == wait
      modifies this
      ensures Valid() && found && generation == old(generation)
      ensures ready <==> wait.start != generation
      ensures after == if ready then wait else Wait(wait.start, Some(task))
      ensures waits == old(waits)[w := after]
      ensures !ready ==> task in wakers
    {
      found := true;
      if generation != wait.start {
        assert waits == waits[w := wait];
        return true, wait, true;
      }
      ready, after := false, Wait(wait.start, Some(task));
      assert forall t {:trigger Counted(wakers, waits, generation, t)} :: Counted(wakers, waits, generation, t);
      if wait.registered.Some? {
        var last := wait.registered.value;
        InList(wakers, waits, generation, last, w);
        if last != task {
          found := RemoveWaker(wait.start, last);
          wakers := wakers + multiset{task};
        }
      } else {
        wakers := wakers + multiset{task};
      }
      waits := waits[w := after];
      forall t ensures Counted(wakers, waits, generation, t) {
        assert Counted(old(wakers), old(waits), generation, t);
        Recounted(old(wakers), old(waits), generation, w, after, wakers, t);
      }
      InList(wakers, waits, generation, task, w);
    }

    /** Dropping the future. */
    method DropWait(w: nat, wait: Wait) returns (found: bool)
      requires Valid() && w in waits && waits[w] == wait
      modifies this
      ensures Valid() && found && generation == old(generation) && waits == old(waits) - {w}
    {
      found := true;
      if wait.registered.Some? {
        if wait.start == generation {
          InList(wakers, waits, generation, wait.registered.value, w);
        }
        found := RemoveWaker(wait.start, wait.registered.value);
      }
      waits := waits - {w};
      forall t ensures Counted(wakers, waits, generation, t) {
        assert Counted(old(wakers), old(waits), generation, t);
        Changed(old(waits), waits, generation, w, t);
      }
    }

    /** `notify`: every task registered for a wait of this generation is woken, and all
        those waits will be ready. */
    method NotifyAll() returns (woken: multiset<nat>)
      requires Valid()
      modifies this`generation, this`wakers
      ensures Valid() && generation == old(generation) + 1 && wakers == multiset{}
      ensures forall w, task {:trigger Registered(waits, old(generation), task, w)} ::
                Registered(waits, old(generation), task, w) ==> task in woken
      ensures forall w {:trigger waits[w]} :: w in waits ==> waits[w].start != generation
    {
      forall w, task | Registered(waits, generation, task, w) ensures task in wakers {
        InList(wakers, waits, generation, task, w);
      }
      woken := wakers;
      generation := generation + 1;
      wakers := multiset{};
      forall t ensures Counted(wakers, waits, generation, t) {
        assert RegisteredFor(waits, generation, t) == {};
      }
    }
  }

  /** A registered wait of the current generation has its waker in the list. */
  lemma InList(wakers: multiset<nat>, waits: map<nat, Wait>, generation: nat, task: nat, w: nat)
    requires forall t {:trigger Counted(wakers, waits, generation, t)} :: Counted(wakers, waits, generation, t)
    requires Registered(waits, generation, task, w)
    ensures task in wakers
  {
    assert Counted(wakers, waits, generation, task);
    assert w in RegisteredFor(waits, generation, task);
  }
}
