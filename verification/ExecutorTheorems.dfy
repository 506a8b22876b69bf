/** The executor's promises over every run. */
module ExecutorTheorems {
  import opened Executor
  import opened ExecutorProof

  // ===== every step keeps the invariant =====

  lemma WakeStepKeeps(s: State, p: nat, t: nat)
    requires Inv(s) && Enabled(s, p, Wake(t))
    ensures Inv(DoWake(s, p, t))
  {
    var r := DoWake(s, p, t);
    WakeTasks(s, p, t);
    assert OnlyCpu(s, p, r);
    RunnerKeeps(s, p, r);
    SchedSame(s, p, r);
    WaysKept(s, p, r);
    assert QuietOk(s, p) && IdleTask(s, t) == s.tasks[t].carrier.Nobody? && TaskOk(s, t);
    QuietsKept(s, p, r);
  }

  lemma SpawnStepKeeps(s: State, p: nat, t: nat)
    requires Inv(s) && Enabled(s, p, Spawn(t))
    ensures Inv(DoSpawn(s, p, t))
  {
    var r := DoSpawn(s, p, t);
    SpawnTasks(s, p, t);
    assert OnlyCpu(s, p, r);
    RunnerKeeps(s, p, r);
    SchedSame(s, p, r);
    WaysKept(s, p, r);
    QuietsKept(s, p, r);
  }

  lemma PushStepKeeps(s: State, p: nat)
    requires Inv(s) && Enabled(s, p, Push)
    ensures Inv(DoPush(s, p))
  {
    var r := DoPush(s, p);
    PushTasks(s, p);
    assert OnlyCpu(s, p, r);
    assert LinkOk(s, p) && QuietOk(s, p);
    RunnerKeeps(s, p, r);
    SchedSame(s, p, r);
    WaysKept(s, p, r);
    QuietsKept(s, p, r);
  }

  lemma PickStepKeeps(s: State, p: nat)
    requires Inv(s) && Enabled(s, p, Pick)
    ensures Inv(DoPick(s, p))
  {
    var r := DoPick(s, p);
    assert LinkOk(s, p) && QuietOk(s, p);
    assert OnlyCpu(s, p, r);
    TasksSame(s, p, r);
    RunnerKeeps(s, p, r);
    PickSched(s, p);
    PickWays(s, p);
    QuietsKept(s, p, r);
  }

  lemma ArmStepKeeps(s: State, p: nat)
    requires Inv(s) && Enabled(s, p, Arm)
    ensures Inv(DoArm(s, p))
  {
    var r := DoArm(s, p);
    assert LinkOk(s, p) && QuietOk(s, p);
    assert OnlyCpu(s, p, r);
    TasksSame(s, p, r);
    RunnerKeeps(s, p, r);
    SchedSame(s, p, r);
    WaysKept(s, p, r);
    QuietsKept(s, p, r);
  }

  lemma RequestStepKeeps(s: State, p: nat)
    requires Inv(s) && Enabled(s, p, Request)
    ensures Inv(DoRequest(s, p))
  {
    var r := DoRequest(s, p);
    assert LinkOk(s, p) && QuietOk(s, p);
    assert OnlyCpu(s, p, r);
    TasksSame(s, p, r);
    RunnerKeeps(s, p, r);
    RequestSched(s, p);
    WaysKept(s, p, r);
    QuietsKept(s, p, r);
  }

  lemma NotifyStepKeeps(s: State, p: nat)
    requires Inv(s) && Enabled(s, p, Action.Notify)
    ensures Inv(DoNotify(s, p))
  {
    var r := DoNotify(s, p);
    assert LinkOk(s, p) && QuietOk(s, p);
    assert OnlyCpu(s, p, r);
    TasksSame(s, p, r);
    RunnerKeeps(s, p, r);
    SchedSame(s, p, r);
    WaysKept(s, p, r);
    QuietsKept(s, p, r);
  }

  lemma FinishLaunchStepKeeps(s: State, p: nat)
    requires Inv(s) && Enabled(s, p, FinishLaunch)
    ensures Inv(DoFinishLaunch(s, p))
  {
    var r := DoFinishLaunch(s, p);
    assert OnlyCpu(s, p, r);
    TasksSame(s, p, r);
    RunnerKeeps(s, p, r);
    FinishLaunchSched(s, p);
    WaysKept(s, p, r);
    QuietsKept(s, p, r);
  }

  lemma PopStepKeeps(s: State, p: nat)
    requires Inv(s) && Enabled(s, p, Pop)
    ensures Inv(DoPop(s, p))
  {
    var r := DoPop(s, p);
    assert LinkOk(s, p);
    assert OnlyCpu(s, p, r);
    if s.queue == [] {
      TasksSame(s, p, r);
    } else {
      PopTasks(s, p);
    }
    RunnerKeeps(s, p, r);
    SchedSame(s, p, r);
    WaysKept(s, p, r);
    QuietsKept(s, p, r);
  }

  /** Inside `Task::poll` only the polled task and its vCPU's place change. */
  lemma PollRest(s: State, p: nat, r: State)
    requires Inv(s) && Tasks(r) && OnlyCpu(s, p, r) && r == s.(tasks := r.tasks, cpus := r.cpus)
    requires s.cpus[p].at.Popped? || s.cpus[p].at.Ready? || s.cpus[p].at.Polling? || s.cpus[p].at.Polled?
    requires r.cpus[p].at.Ready? || r.cpus[p].at.Polling? || r.cpus[p].at.Polled? || r.cpus[p].at.Returning?
    requires s.cpus[p].wake == r.cpus[p].wake
    ensures Inv(r)
  {
    RunnerKeeps(s, p, r);
    SchedSame(s, p, r);
    WaysKept(s, p, r);
    QuietsKept(s, p, r);
  }

  lemma StartRunStepKeeps(s: State, p: nat)
    requires Inv(s) && Enabled(s, p, StartRun)
    ensures Inv(DoStartRun(s, p))
  {
    StartRunTasks(s, p);
    PollRest(s, p, DoStartRun(s, p));
  }

  lemma PollFutureStepKeeps(s: State, p: nat)
    requires Inv(s) && Enabled(s, p, PollFuture)
    ensures Inv(DoPollFuture(s, p))
  {
    PollFutureTasks(s, p);
    PollRest(s, p, DoPollFuture(s, p));
  }

  lemma FinishPollStepKeeps(s: State, p: nat, ready: bool)
    requires Inv(s) && Enabled(s, p, FinishPoll(ready))
    ensures Inv(DoFinishPoll(s, p, ready))
  {
    assert LinkOk(s, p);
    TasksSame(s, p, DoFinishPoll(s, p, ready));
    PollRest(s, p, DoFinishPoll(s, p, ready));
  }

  lemma UpdateStepKeeps(s: State, p: nat)
    requires Inv(s) && Enabled(s, p, Update)
    ensures Inv(DoUpdate(s, p))
  {
    UpdateTasks(s, p);
    PollRest(s, p, DoUpdate(s, p));
  }

  /** A refused halt: nothing but the refused vCPU can run. */
  lemma RefusedIsQuiet(s: State, p: nat)
    requires Inv(s) && Enabled(s, p, Halt) && s.bits - {p} == {}
    ensures Quiet(s, p)
  {
    forall q | q != p ensures StillCpu(s, q) {
      assert q in s.bits ==> q in s.bits - {p};
      assert SchedOk(s, q);
      assert LinkOk(s, q);
    }
    assert SchedOk(s, p) && (s.launched in s.bits ==> s.launched in s.bits - {p});
    forall q ensures !Runs(s, q) {
      assert SchedOk(s, q);
      assert q in s.bits ==> q == p || q in s.bits - {p};
    }
    forall t ensures IdleTask(s, t) {
      assert TaskOk(s, t) && LinkOk(s, p);
      var c := if t in s.tasks then s.tasks[t].carrier else Nobody;
      assert !c.Nobody? && !c.Queue? ==> c.cpu == p || StillCpu(s, c.cpu);
    }
  }

  lemma HaltStepKeeps(s: State, p: nat)
    requires Inv(s) && Enabled(s, p, Halt)
    ensures Inv(DoHalt(s, p))
  {
    var r := DoHalt(s, p);
    assert LinkOk(s, p);
    assert OnlyCpu(s, p, r);
    TasksSame(s, p, r);
    HaltRunner(s, p);
    HaltSched(s, p);
    HaltWays(s, p);
    HaltQuiets(s, p);
  }

  lemma HaltRunner(s: State, p: nat)
    requires HasRunner(s) && Enabled(s, p, Halt)
    ensures HasRunner(DoHalt(s, p))
  {
    var r := DoHalt(s, p);
    if s.queue != [] {
      var q :| Runs(s, q);
      assert Runs(r, q);
    }
  }

  lemma HaltQuiets(s: State, p: nat)
    requires Inv(s) && Enabled(s, p, Halt)
    ensures Quiets(DoHalt(s, p))
  {
    var r := DoHalt(s, p);
    if s.bits - {p} != {} {
      QuietsKept(s, p, r);
    } else {
      RefusedIsQuiet(s, p);
      assert LinkOk(s, p);
      forall q ensures QuietOk(r, q) {
        assert QuietOk(s, q);
        assert q != p ==> StillCpu(s, q);
        forall c | c != p ensures StillCpu(r, c) {
          assert StillCpu(s, c);
        }
        forall t ensures IdleTask(r, t) {
          assert IdleTask(s, t);
        }
      }
    }
  }

  lemma SleepStepKeeps(s: State, p: nat, r: State)
    requires Inv(s) && p in s.cpus && s.cpus[p].wake.NoWake?
    requires
      || (s.cpus[p].at.Halted? && r == DoPark(s, p))
      || (s.cpus[p].at.Asleep? && r == DoWakeUp(s, p))
      || ((s.cpus[p].at.Returning? || s.cpus[p].at.Advancing?) && r == SetAt(s, p, Loop))
    ensures Inv(r)
  {
    assert LinkOk(s, p);
    assert OnlyCpu(s, p, r);
    TasksSame(s, p, r);
    RunnerKeeps(s, p, r);
    SchedSame(s, p, r);
    WaysKept(s, p, r);
    QuietsKept(s, p, r);
  }

  lemma SelfStepKeeps(s: State, p: nat, a: Action)
    requires Inv(s) && Enabled(s, p, a) && (a.ArmSelf? || a.AbsorbKick?)
    ensures Inv(Apply(s, p, a))
  {
    var r := Apply(s, p, a);
    assert OnlyCpu(s, p, r);
    forall t ensures TaskOk(r, t) {
      assert TaskOk(s, t);
    }
    forall q ensures LinkOk(r, q) {
      assert LinkOk(s, q);
    }
    RunnerKeeps(s, p, r);
    SchedSame(s, p, r);
    WaysKept(s, p, r);
    assert QuietOk(s, p);
    QuietsKept(s, p, r);
  }

  lemma ResumeStepKeeps(s: State, p: nat)
    requires Inv(s) && Enabled(s, p, Resume)
    ensures Inv(DoResume(s, p))
  {
    var r := DoResume(s, p);
    assert LinkOk(s, p);
    assert OnlyCpu(s, p, r);
    TasksSame(s, p, r);
    RunnerKeeps(s, p, r);
    ResumeSched(s, p);
    WaysKept(s, p, r);
    QuietsKept(s, p, r);
  }

  lemma StartApStepKeeps(s: State)
    requires Inv(s) && s.launch.Sent?
    ensures Inv(DoStartAp(s))
  {
    var r := DoStartAp(s);
    assert SchedOk(s, s.count);
    TasksSame(s, s.count, r);
    StartApSched(s);
    StartApWays(s);
    if s.queue != [] {
      var q :| Runs(s, q);
      assert Runs(r, q);
    }
    forall q ensures QuietOk(r, q) {
      assert QuietOk(s, q);
    }
  }

  /** Supervisor steps that touch only notifications. */
  lemma SupervisorStepKeeps(s: State, p: nat, a: Action)
    requires Inv(s) && Enabled(s, p, a) && IsSupervisor(a) && !a.StartAp?
    ensures Inv(Apply(s, p, a))
  {
    var r := Apply(s, p, a);
    assert Tasks(r) by {
      forall t ensures TaskOk(r, t) {
        assert TaskOk(s, t);
      }
      forall q ensures LinkOk(r, q) {
        assert LinkOk(s, q);
      }
    }
    assert HasRunner(r) by {
      if s.queue != [] {
        var q :| Runs(s, q);
        assert Runs(r, q);
      }
    }
    assert Sched(r) by {
      forall b ensures BitOk(r, b) {
        assert BitOk(s, b);
      }
      forall q ensures SchedOk(r, q) {
        assert SchedOk(s, q);
      }
    }
    assert Ways(r) by {
      SupervisorWays(s, r);
    }
    forall q ensures QuietOk(r, q) {
      assert QuietOk(s, q);
      if q in s.cpus && s.cpus[q].at == Advancing(true) {
        forall c | c != q ensures StillCpu(r, c) {
          assert StillCpu(s, c);
        }
        forall t ensures IdleTask(r, t) {
          assert IdleTask(s, t);
        }
      }
    }
  }

  /** The steps of `spawn`, `wake` and `schedule_vcpu`. */
  predicate IsWaker(a: Action) {
    a.Spawn? || a.Wake? || a.Push? || a.Pick? || a.Arm? || a.Request? || a.Notify?
  }

  lemma WakerStepKeeps(s: State, p: nat, a: Action)
    requires Inv(s) && Enabled(s, p, a) && IsWaker(a)
    ensures Inv(Apply(s, p, a))
  {
    match a
    case Spawn(t) => SpawnStepKeeps(s, p, t);
    case Wake(t) => WakeStepKeeps(s, p, t);
    case Push => PushStepKeeps(s, p);
    case Pick => PickStepKeeps(s, p);
    case Arm => ArmStepKeeps(s, p);
    case Request => RequestStepKeeps(s, p);
    case Notify => NotifyStepKeeps(s, p);
  }

  lemma CpuStepKeeps(s: State, p: nat, a: Action)
    requires Inv(s) && Enabled(s, p, a) && !IsSupervisor(a) && !IsWaker(a)
    ensures Inv(Apply(s, p, a))
  {
    match a
    case FinishLaunch => FinishLaunchStepKeeps(s, p);
    case Pop => PopStepKeeps(s, p);
    case StartRun => StartRunStepKeeps(s, p);
    case PollFuture => PollFutureStepKeeps(s, p);
    case FinishPoll(ready) => FinishPollStepKeeps(s, p, ready);
    case Update => UpdateStepKeeps(s, p);
    case Return => SleepStepKeeps(s, p, SetAt(s, p, Loop));
    case Halt => HaltStepKeeps(s, p);
    case Park => assert LinkOk(s, p); SleepStepKeeps(s, p, DoPark(s, p));
    case WakeUp => assert LinkOk(s, p); SleepStepKeeps(s, p, DoWakeUp(s, p));
    case Resume => ResumeStepKeeps(s, p);
    case TimeAdvanced => SleepStepKeeps(s, p, SetAt(s, p, Loop));
    case ArmSelf => SelfStepKeeps(s, p, a);
    case AbsorbKick => SelfStepKeeps(s, p, a);
  }

  lemma StepKeeps(s: State, p: nat, a: Action)
    requires Inv(s) && Enabled(s, p, a)
    ensures Inv(Apply(s, p, a))
  {
    if IsWaker(a) {
      WakerStepKeeps(s, p, a);
    } else if !IsSupervisor(a) {
      CpuStepKeeps(s, p, a);
    } else if a.StartAp? {
      StartApStepKeeps(s);
    } else {
      SupervisorStepKeeps(s, p, a);
    }
  }

  lemma {:induction false} RunKeeps(s: State, labels: seq<Label>, t: State)
    requires Inv(s) && Run(s, labels, t)
    ensures Inv(t)
    decreases |labels|
  {
    if labels != [] {
      StepKeeps(s, labels[0].cpu, labels[0].action);
      RunKeeps(Apply(s, labels[0].cpu, labels[0].action), labels[1..], t);
    }
  }

  ghost predicate Reachable(t: State) {
    exists s, labels :: Initial(s) && Run(s, labels, t)
  }

  lemma InitialInv(s: State)
    requires Initial(s)
    ensures Inv(s)
  {
    assert forall p {:trigger LinkOk(s, p)} :: LinkOk(s, p);
  }

  lemma ReachableInv(t: State)
    requires Reachable(t)
    ensures Inv(t)
  {
    var s, labels :| Initial(s) && Run(s, labels, t);
    InitialInv(s);
    RunKeeps(s, labels, t);
  }

  // ===== the theorems =====

  predicate Holds(at: Place, u: nat) {
    at == Popped(u) || Polls(at, u)
  }

  /** A task is queued at most once, held by at most one vCPU, and never both; while
      it is polled its state is `Running` or `Rescheduled`, so the update after a
      poll always applies. */
  lemma OneCarrier(s: State, u: nat, p: nat, q: nat)
    requires Reachable(s) && p in s.cpus && q in s.cpus
    ensures Holds(s.cpus[p].at, u) && Holds(s.cpus[q].at, u) ==> p == q
    ensures Holds(s.cpus[p].at, u) ==> u !in s.queue
    ensures forall i, j | 0 <= i < j < |s.queue| :: s.queue[i] != s.queue[j]
    ensures Polls(s.cpus[p].at, u) ==> u in s.tasks && (s.tasks[u].state.Running? || s.tasks[u].state.Rescheduled?)
  {
    ReachableInv(s);
    assert LinkOk(s, p) && LinkOk(s, q) && TaskOk(s, u);
    if u in s.queue {
      var i :| 0 <= i < |s.queue| && s.queue[i] == u;
      assert Carries(s, s.queue[i], Queue);
    }
  }

  /** The poll owed to `u` is still to come: it is queued, or a vCPU is about to push
      it, has popped it, is about to poll it, or will poll it once more. */
  ghost predicate PollToCome(s: State, u: nat) {
    && u in s.tasks
    && (|| u in s.queue
        || exists p {:trigger s.cpus[p]} :: p in s.cpus &&
             (|| s.cpus[p].wake == Woken(u) || s.cpus[p].at == Popped(u) || s.cpus[p].at == Ready(u)
              || (Polls(s.cpus[p].at, u) && s.tasks[u].state.Rescheduled?)))
  }

  lemma OwedIsToCome(s: State, u: nat)
    requires Tasks(s) && u in s.tasks && s.tasks[u].pending
    ensures PollToCome(s, u)
  {
    assert TaskOk(s, u);
    var c := s.tasks[u].carrier;
    if !c.Queue? && !c.Nobody? {
      assert c.cpu in s.cpus;
    }
  }

  lemma PendingIsToCome(s: State, u: nat)
    requires Reachable(s) && u in s.tasks && s.tasks[u].pending
    ensures PollToCome(s, u)
  {
    ReachableInv(s);
    OwedIsToCome(s, u);
  }

  /** The step polls `u`'s future or records that it has finished. */
  predicate Repays(s: State, l: Label, u: nat) {
    && l.cpu in s.cpus
    && ((l.action.PollFuture? && s.cpus[l.cpu].at == Ready(u)) || (l.action.Update? && s.cpus[l.cpu].at == Polled(u, true)))
  }

  predicate RunWithoutPoll(s: State, labels: seq<Label>, t: State, u: nat)
    decreases |labels|
  {
    if labels == [] then s == t
    else
      && Enabled(s, labels[0].cpu, labels[0].action)
      && !Repays(s, labels[0], u)
      && RunWithoutPoll(Apply(s, labels[0].cpu, labels[0].action), labels[1..], t, u)
  }

  lemma UpdateKeepsPending(s: State, p: nat, u: nat)
    requires Tasks(s) && Enabled(s, p, Update) && s.cpus[p].at != Polled(u, true)
    requires u in s.tasks && s.tasks[u].pending
    ensures u in DoUpdate(s, p).tasks && DoUpdate(s, p).tasks[u].pending
  {
    assert LinkOk(s, p);
    assert TaskOk(s, u);
  }

  lemma PendingStays(s: State, l: Label, u: nat)
    requires Tasks(s) && Enabled(s, l.cpu, l.action) && !Repays(s, l, u)
    requires u in s.tasks && s.tasks[u].pending
    ensures u in Apply(s, l.cpu, l.action).tasks && Apply(s, l.cpu, l.action).tasks[u].pending
  {
    if l.action.Update? {
      UpdateKeepsPending(s, l.cpu, u);
    }
  }

  lemma {:induction false} PendingStaysInRun(s: State, labels: seq<Label>, t: State, u: nat)
    requires Inv(s) && RunWithoutPoll(s, labels, t, u) && u in s.tasks && s.tasks[u].pending
    ensures u in t.tasks && t.tasks[u].pending && Inv(t)
    decreases |labels|
  {
    if labels != [] {
      PendingStays(s, labels[0], u);
      StepKeeps(s, labels[0].cpu, labels[0].action);
      PendingStaysInRun(Apply(s, labels[0].cpu, labels[0].action), labels[1..], t, u);
    }
  }

  lemma WakeIsOwed(s: State, p: nat, u: nat)
    requires Inv(s) && Enabled(s, p, Wake(u)) && !s.tasks[u].state.Done?
    ensures Inv(Apply(s, p, Wake(u))) && u in Apply(s, p, Wake(u)).tasks && Apply(s, p, Wake(u)).tasks[u].pending
  {
    StepKeeps(s, p, Wake(u));
  }

  /** No wake-up is lost: after a `wake` on an unfinished task, however the run goes
      on, as long as the future has not been polled since, that poll is still to come. */
  lemma NoLostWake(s: State, p: nat, u: nat, labels: seq<Label>, t: State)
    requires Reachable(s) && Enabled(s, p, Wake(u)) && !s.tasks[u].state.Done?
    requires RunWithoutPoll(Apply(s, p, Wake(u)), labels, t, u)
    ensures PollToCome(t, u)
  {
    ReachableInv(s);
    WakeIsOwed(s, p, u);
    PendingStaysInRun(Apply(s, p, Wake(u)), labels, t, u);
    OwedIsToCome(t, u);
  }

  /** A non-empty queue always has an active vCPU that will look at it before halting. */
  lemma QueueIsServed(s: State)
    requires Reachable(s) && s.queue != []
    ensures exists p :: p in s.cpus && p in s.bits && WillPoll(s.cpus[p].at)
  {
    ReachableInv(s);
    var p :| Runs(s, p);
    assert SchedOk(s, p);
  }

  /** Time is skipped only when nothing can run: whenever a halt is refused, and until
      that vCPU itself wakes a task, the queue is empty, every task is waiting or
      done, no wake-up is owed, and no other vCPU holds or wakes a task. */
  lemma TimeAdvancesOnlyWhenIdle(s: State, p: nat, u: nat, q: nat)
    requires Reachable(s) && p in s.cpus
    requires s.cpus[p].at == Advancing(true) || (s.cpus[p].at.SawEmpty? && s.bits - {p} == {})
    ensures s.queue == [] && !s.isLaunching
    ensures u in s.tasks ==> (s.tasks[u].state.Waiting? || s.tasks[u].state.Done?) && !s.tasks[u].pending
    ensures q in s.cpus && q != p ==> Still(s.cpus[q].at) && s.cpus[q].wake.NoWake?
  {
    ReachableInv(s);
    if s.cpus[p].at.SawEmpty? {
      RefusedIsQuiet(s, p);
    } else {
      assert QuietOk(s, p);
    }
    assert IdleTask(s, u) && TaskOk(s, u) && (q != p ==> StillCpu(s, q));
  }

  /** A launch is under way: its request is about to be pushed, is in the ring with the
      supervisor bound to look, or the new vCPU is running. */
  ghost predicate LaunchComing(s: State) {
    match s.launch
    case NoLaunch => false
    case RequestedBy(q) => q in s.cpus && s.cpus[q].wake.PickedNew?
    case Sent => s.supervisor.Busy? || SupervisorComing(s)
    case Started => s.launched in s.cpus && s.cpus[s.launched].at.Launching?
  }

  /** Every running vCPU has its bit set, and every set bit stands for a vCPU that runs
      or has just woken up, or for one whose kick or launch is on its way. */
  lemma BitsAreHonest(s: State, b: nat)
    requires Reachable(s)
    ensures b in s.cpus && Active(s.cpus[b].at) ==> b in s.bits
    ensures b in s.bits ==> b < s.launched || (s.isLaunching && b == s.launched)
    ensures b in s.bits ==>
              || (b in s.cpus && (Active(s.cpus[b].at) || s.cpus[b].at.Awake? || KickComing(s, b)))
              || (b == s.launched && s.isLaunching && LaunchComing(s))
    ensures s.bits != {}
  {
    ReachableInv(s);
    assert SchedOk(s, b) && BitOk(s, b) && WayOk(s, b);
  }

  /** A launched vCPU gets the index its scheduler bit was set for; the assertion in
      `finish_launch` holds; and no more vCPUs are requested than may exist. */
  lemma LaunchIndices(s: State, p: nat)
    requires Reachable(s)
    ensures p in s.cpus && s.cpus[p].at.Launching? ==> s.isLaunching && p == s.launched && p in s.bits
    ensures s.launch.Sent? ==> s.count == s.launched && s.count in s.bits && s.count < MAX_APS_COUNT
    ensures s.count <= MAX_APS_COUNT
  {
    ReachableInv(s);
    assert SchedOk(s, p);
  }
}
