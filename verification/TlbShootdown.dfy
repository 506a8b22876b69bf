/** The TDX supervisor's TLB shootdown: any number of vCPUs entering and leaving the
    guest while any number of them run overlapping `flush` calls. Every atomic
    operation is one step. An entry is assumed to carry out the invalidation it asks
    for, and the interrupt handler runs only outside the guest with interrupts
    enabled; it may run there at any time, whether or not an interrupt was sent. */
module TlbShootdown {

  /** Where a vCPU is in its entry loop. */
  datatype Place = Outside | Disabled | PreEntered | Took(all: bool) | InGuest

  /** Where a vCPU is in `flush`; `epoch` is history, the clock at its swap of `RAN`. */
  datatype FlushPc = NoFlush | Locked | Swapped(mask: set<nat>, epoch: nat) | Awaiting(epoch: nat)

  /** `everEntered` and `invalidated` are history: whether the vCPU has run the guest, and
      the clock at its last full invalidation. It holds no older translation. */
  datatype Vcpu = Vcpu(
    place: Place,
    flush: FlushPc,
    inHandler: bool,
    pending: bool,
    everEntered: bool,
    invalidated: nat)

  datatype Guard = Free | HeldBy(vcpu: nat)

  /** `clock` is history and counts the swaps of `RAN`. */
  datatype State = State(
    ran: set<nat>,
    counter: set<nat>,
    guard: Guard,
    vcpus: map<nat, Vcpu>,
    clock: nat)

  datatype Action =
    | Disable | PreEnter | Take | Enter | Refuse | Exit
    | HandlerMark | HandlerClear
    | Lock | Swap | Mark | Return

  predicate Enabled(s: State, p: nat, a: Action) {
    && p in s.vcpus
    && var v := s.vcpus[p];
       if a.HandlerClear? then v.inHandler
       else
         && !v.inHandler
         && match a
            case Disable => v.place.Outside? && v.flush.NoFlush?
            case PreEnter => v.place.Disabled?
            case Take => v.place.PreEntered?
            case Enter => v.place.Took?
            case Refuse => v.place.Took?
            case Exit => v.place.InGuest?
            case HandlerMark => v.place.Outside?
            case Lock => v.place.Outside? && v.flush.NoFlush? && s.guard.Free?
            case Swap => v.flush.Locked?
            case Mark => v.flush.Swapped?
            case _ => v.flush.Awaiting? && s.counter == {}
  }

  function Set(s: State, p: nat, v: Vcpu): State {
    s.(vcpus := s.vcpus[p := v])
  }

  function DoEnter(s: State, v: Vcpu, into: bool): Vcpu
    requires v.place.Took?
  {
    v.(place := if into then InGuest else Outside,
       everEntered := v.everEntered || into,
       invalidated := if v.place.all || !v.everEntered then s.clock else v.invalidated)
  }

  function DoSwap(s: State, p: nat): State
    requires p in s.vcpus
  {
    Set(s, p, s.vcpus[p].(flush := Swapped(s.ran, s.clock + 1))).(ran := {}, clock := s.clock + 1)
  }

  function DoMark(s: State, p: nat): State
    requires p in s.vcpus && s.vcpus[p].flush.Swapped?
  {
    var f := s.vcpus[p].flush;
    Set(s, p, s.vcpus[p].(flush := Awaiting(f.epoch))).(counter := s.counter + f.mask, guard := Free)
  }

  function Apply(s: State, p: nat, a: Action): State
    requires Enabled(s, p, a)
  {
    var v := s.vcpus[p];
    match a
    case Disable => Set(s, p, v.(place := Disabled))
    case PreEnter => Set(s, p, v.(place := PreEntered)).(ran := s.ran + {p})
    case Take => Set(s, p, v.(place := Took(v.pending), pending := false))
    case Enter => Set(s, p, DoEnter(s, v, true))
    case Refuse => Set(s, p, DoEnter(s, v, false))
    case Exit => Set(s, p, v.(place := Outside))
    case HandlerMark => Set(s, p, v.(pending := true, inHandler := true))
    case HandlerClear => Set(s, p, v.(inHandler := false)).(counter := s.counter - {p})
    case Lock => Set(s, p, v.(flush := Locked)).(guard := HeldBy(p))
    case Swap => DoSwap(s, p)
    case Mark => DoMark(s, p)
    case Return => Set(s, p, v.(flush := NoFlush))
  }

  predicate Initial(s: State) {
    && s.ran == {} && s.counter == {} && s.guard.Free?
    && forall p :: p in s.vcpus ==> s.vcpus[p] == Vcpu(Outside, NoFlush, false, false, false, 0)
  }

  datatype Label = Label(vcpu: nat, action: Action)

  predicate Run(s: State, labels: seq<Label>, t: State)
    decreases |labels|
  {
    if labels == [] then s == t
    else
      && Enabled(s, labels[0].vcpu, labels[0].action)
      && Run(Apply(s, labels[0].vcpu, labels[0].action), labels[1..], t)
  }

  // ----- the invariant -----

  /** The vCPUs whose flush between its two updates still has to mark. */
  function Unmarked(s: State): set<nat> {
    if s.guard.HeldBy? && s.guard.vcpu in s.vcpus && s.vcpus[s.guard.vcpu].flush.Swapped?
    then s.vcpus[s.guard.vcpu].flush.mask
    else {}
  }

  /** `q` is on one of the books the next or the current flush works through. */
  predicate OnBooks(s: State, q: nat) {
    q in s.ran || q in s.counter || q in Unmarked(s)
  }

  /** `q` ran the guest and has not invalidated since `epoch`. */
  predicate Stale(s: State, q: nat, epoch: nat) {
    q in s.vcpus && s.vcpus[q].everEntered && s.vcpus[q].invalidated < epoch
  }

  /** `q` will invalidate before it runs the guest again. */
  predicate WillInvalidate(v: Vcpu) {
    (v.pending && !v.place.InGuest? && !v.place.Took?) || v.place == Took(true)
  }

  ghost predicate VcpuOk(s: State, q: nat) {
    q in s.vcpus ==>
      var v := s.vcpus[q];
      && (v.everEntered ==> OnBooks(s, q) || WillInvalidate(v))
      && (v.place.PreEntered? || v.place.Took? || v.place.InGuest? ==> OnBooks(s, q))
      && (v.pending ==> v.place.Outside? || v.place.Disabled? || v.place.PreEntered?)
      && (v.inHandler ==> v.pending && v.place.Outside?)
      && (!v.flush.NoFlush? ==> v.place.Outside?)
      && (v.flush.Locked? || v.flush.Swapped? <==> s.guard == HeldBy(q))
  }

  /** What the flush of `p` has secured of `q`: it is marked, will be, or will invalidate. */
  ghost predicate CoveredBy(s: State, p: nat, q: nat) {
    p in s.vcpus && (s.vcpus[p].flush.Swapped? || s.vcpus[p].flush.Awaiting?) && Stale(s, q, s.vcpus[p].flush.epoch) ==>
      || q in s.counter || WillInvalidate(s.vcpus[q])
      || (s.vcpus[p].flush.Swapped? && q in s.vcpus[p].flush.mask)
  }

  ghost predicate EpochOk(s: State, p: nat) {
    p in s.vcpus && (s.vcpus[p].flush.Swapped? || s.vcpus[p].flush.Awaiting?) ==> s.vcpus[p].flush.epoch <= s.clock
  }

  ghost predicate Inv(s: State) {
    && (forall q {:trigger VcpuOk(s, q)} :: VcpuOk(s, q))
    && (forall p {:trigger EpochOk(s, p)} :: EpochOk(s, p))
    && (forall p, q {:trigger CoveredBy(s, p, q)} :: CoveredBy(s, p, q))
  }

  lemma VcpuKept(s: State, p: nat, a: Action, q: nat)
    requires Enabled(s, p, a) && VcpuOk(s, p) && VcpuOk(s, q)
    ensures VcpuOk(Apply(s, p, a), q)
  {
  }

  lemma CoverKept(s: State, p: nat, a: Action, f: nat, q: nat)
    requires Inv(s) && Enabled(s, p, a)
    ensures CoveredBy(Apply(s, p, a), f, q) && EpochOk(Apply(s, p, a), f)
  {
    assert VcpuOk(s, p) && VcpuOk(s, q) && CoveredBy(s, f, q) && EpochOk(s, f);
  }

  lemma StepKeeps(s: State, p: nat, a: Action)
    requires Inv(s) && Enabled(s, p, a)
    ensures Inv(Apply(s, p, a))
  {
    var r := Apply(s, p, a);
    forall q ensures VcpuOk(r, q) {
      assert VcpuOk(s, p) && VcpuOk(s, q);
      VcpuKept(s, p, a, q);
    }
    forall f, q ensures CoveredBy(r, f, q) {
      CoverKept(s, p, a, f, q);
    }
    forall f ensures EpochOk(r, f) {
      CoverKept(s, p, a, f, f);
    }
  }

  lemma {:induction false} RunKeeps(s: State, labels: seq<Label>, t: State)
    requires Inv(s) && Run(s, labels, t)
    ensures Inv(t)
    decreases |labels|
  {
    if labels != [] {
      StepKeeps(s, labels[0].vcpu, labels[0].action);
      RunKeeps(Apply(s, labels[0].vcpu, labels[0].action), labels[1..], t);
    }
  }

  ghost predicate Reachable(t: State) {
    exists s, labels :: Initial(s) && Run(s, labels, t)
  }

  lemma ReachableInv(t: State)
    requires Reachable(t)
    ensures Inv(t)
  {
    var s, labels :| Initial(s) && Run(s, labels, t);
    RunKeeps(s, labels, t);
  }

  // ----- the theorems -----

  /** When a `flush` returns, every vCPU that may hold a translation from before it is
      outside the guest and bound to invalidate before it enters again. */
  lemma FlushedEverywhere(s: State, p: nat, q: nat)
    requires Reachable(s) && Enabled(s, p, Return) && Stale(s, q, s.vcpus[p].flush.epoch)
    ensures !s.vcpus[q].place.InGuest? && WillInvalidate(s.vcpus[q])
  {
    ReachableInv(s);
    assert CoveredBy(s, p, q);
  }

  lemma {:induction false} StaysFlushed(s: State, q: nat, epoch: nat, labels: seq<Label>, t: State)
    requires epoch <= s.clock && Run(s, labels, t) && (Stale(s, q, epoch) ==> WillInvalidate(s.vcpus[q]))
    ensures Stale(t, q, epoch) ==> WillInvalidate(t.vcpus[q])
    decreases |labels|
  {
    if labels != [] {
      var r := Apply(s, labels[0].vcpu, labels[0].action);
      assert Stale(r, q, epoch) ==> WillInvalidate(r.vcpus[q]);
      StaysFlushed(r, q, epoch, labels[1..], t);
    }
  }

  /** And it stays so: from the return on, in every continuation of the run, no vCPU is
      in the guest with a translation from before the flush. */
  lemma NeverStaleInGuest(s: State, p: nat, labels: seq<Label>, t: State, q: nat)
    requires Reachable(s) && Enabled(s, p, Return) && Run(Apply(s, p, Return), labels, t)
    requires q in t.vcpus && t.vcpus[q].place.InGuest?
    ensures !Stale(t, q, s.vcpus[p].flush.epoch)
  {
    var e := s.vcpus[p].flush.epoch;
    ReachableInv(s);
    assert CoveredBy(s, p, q) && EpochOk(s, p);
    StaysFlushed(Apply(s, p, Return), q, e, labels, t);
  }
}
