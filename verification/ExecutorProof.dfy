/** What every step of the executor and the scheduler keeps. */
module ExecutorProof {
  import opened Executor

  // ----- tasks -----

  predicate Polls(at: Place, t: nat) {
    (at.Ready? || at.Polling? || at.Polled?) && at.task == t
  }

  ghost predicate CarrierOk(s: State, t: nat)
    requires t in s.tasks
  {
    var task := s.tasks[t];
    match task.carrier
    case Nobody => task.state.Waiting? || task.state.Done?
    case Queue => task.state.Scheduled? && t in s.queue
    case WokenBy(p) => task.state.Scheduled? && p in s.cpus && s.cpus[p].wake == Woken(t)
    case PoppedBy(p) => task.state.Scheduled? && p in s.cpus && s.cpus[p].at == Popped(t)
    case PolledBy(p) => (task.state.Running? || task.state.Rescheduled?) && p in s.cpus && Polls(s.cpus[p].at, t)
  }

  /** A wake-up still owed to a task is on record in its state. */
  ghost predicate PendingOk(s: State, t: nat)
    requires t in s.tasks
  {
    var task := s.tasks[t];
    task.pending ==>
      || task.state.Scheduled? || task.state.Rescheduled?
      || (task.carrier.PolledBy? && task.carrier.cpu in s.cpus && s.cpus[task.carrier.cpu].at == Ready(t))
  }

  ghost predicate TaskOk(s: State, t: nat) {
    t in s.tasks ==> CarrierOk(s, t) && PendingOk(s, t)
  }

  ghost predicate Carries(s: State, t: nat, c: Carrier) {
    t in s.tasks && s.tasks[t].carrier == c
  }

  /** A vCPU holds only tasks it carries. */
  ghost predicate LinkOk(s: State, p: nat) {
    p in s.cpus ==>
      var cpu := s.cpus[p];
      && (cpu.at.Popped? ==> Carries(s, cpu.at.task, PoppedBy(p)))
      && (cpu.at.Ready? || cpu.at.Polling? || cpu.at.Polled? ==> Carries(s, cpu.at.task, PolledBy(p)))
      && (cpu.wake.Woken? ==> Carries(s, cpu.wake.woken, WokenBy(p)))
      && (!cpu.wake.NoWake? ==> MayWake(cpu.at))
  }

  ghost predicate QueueOk(s: State) {
    && (forall i | 0 <= i < |s.queue| :: Carries(s, s.queue[i], Queue))
    && (forall i, j | 0 <= i < j < |s.queue| :: s.queue[i] != s.queue[j])
  }

  ghost predicate Tasks(s: State) {
    && (forall t {:trigger TaskOk(s, t)} :: TaskOk(s, t))
    && (forall p {:trigger LinkOk(s, p)} :: LinkOk(s, p))
    && QueueOk(s)
  }

  // ----- the runner of a non-empty queue -----

  ghost predicate Runs(s: State, p: nat) {
    p in s.cpus && WillPoll(s.cpus[p].at)
  }

  ghost predicate HasRunner(s: State) {
    s.queue == [] || exists p {:trigger Runs(s, p)} :: Runs(s, p)
  }

  // ----- scheduler bits and launches -----

  ghost predicate BitOk(s: State, b: nat) {
    b in s.bits ==> b < s.launched || (s.isLaunching && b == s.launched)
  }

  ghost predicate SchedOk(s: State, p: nat) {
    p in s.cpus ==>
      var cpu := s.cpus[p];
      && (Active(cpu.at) ==> p in s.bits)
      && p < s.count
      && (cpu.at.Launching? ==> s.launch.Started? && p == s.launched)
      && (!cpu.at.Launching? ==> p < s.launched)
      && (cpu.wake.PickedNew? ==> s.launch == RequestedBy(p))
  }

  ghost predicate LaunchOk(s: State) {
    && (s.launch.NoLaunch? <==> !s.isLaunching)
    && s.count == (if s.launch.Started? then s.launched + 1 else s.launched)
    && s.launched + (if s.isLaunching then 1 else 0) <= MAX_APS_COUNT
    && (s.isLaunching ==> s.launched in s.bits)
    && (s.launch.RequestedBy? ==> s.launch.cpu in s.cpus && s.cpus[s.launch.cpu].wake.PickedNew?)
    && (s.launch.Started? ==> s.launched in s.cpus && s.cpus[s.launched].at.Launching?)
    && (forall c: nat {:trigger c in s.cpus} :: c < s.count ==> c in s.cpus)
  }

  ghost predicate Sched(s: State) {
    && (forall b {:trigger BitOk(s, b)} :: BitOk(s, b))
    && (forall p {:trigger SchedOk(s, p)} :: SchedOk(s, p))
    && LaunchOk(s)
    && s.bits != {}
  }

  // ----- wake-ups on their way -----

  ghost predicate Notifies(s: State, p: nat) {
    p in s.cpus && s.cpus[p].wake.Notify?
  }

  ghost predicate Picks(s: State, p: nat, c: nat) {
    p in s.cpus && s.cpus[p].wake == Picked(c)
  }

  /** The supervisor will look at the ring and the notification buffer again. */
  ghost predicate SupervisorComing(s: State) {
    s.token || exists p {:trigger Notifies(s, p)} :: Notifies(s, p)
  }

  ghost predicate KickComing(s: State, c: nat) {
    || c in s.kicked
    || (s.supervisor.Kicking? && c in s.supervisor.ids)
    || (c in s.armed && (s.supervisor.Busy? || s.supervisor.Drained? || SupervisorComing(s)))
    || exists p {:trigger Picks(s, p, c)} :: Picks(s, p, c)
  }

  ghost predicate Sleeps(s: State, c: nat) {
    c in s.cpus && (s.cpus[c].at.Halted? || s.cpus[c].at.Asleep?)
  }

  ghost predicate WayOk(s: State, c: nat) {
    c in s.bits && Sleeps(s, c) ==> KickComing(s, c)
  }

  ghost predicate Ways(s: State) {
    && (forall c {:trigger WayOk(s, c)} :: WayOk(s, c))
    && (s.launch.Sent? ==> s.supervisor.Busy? || SupervisorComing(s))
  }

  // ----- quiet while time is advanced -----

  predicate Still(at: Place) {
    at.Loop? || at.SawEmpty? || at.Halted? || at.Asleep? || at.Awake?
  }

  ghost predicate StillCpu(s: State, c: nat) {
    c in s.cpus ==> Still(s.cpus[c].at) && s.cpus[c].wake.NoWake?
  }

  ghost predicate IdleTask(s: State, t: nat) {
    t in s.tasks ==> s.tasks[t].carrier.Nobody?
  }

  /** Nothing can run but `p`. */
  ghost predicate Quiet(s: State, p: nat) {
    && s.queue == [] && !s.isLaunching
    && (forall c {:trigger StillCpu(s, c)} :: c != p ==> StillCpu(s, c))
    && (forall t {:trigger IdleTask(s, t)} :: IdleTask(s, t))
  }

  ghost predicate QuietOk(s: State, p: nat) {
    p in s.cpus && s.cpus[p].at == Advancing(true) ==> s.cpus[p].wake.NoWake? && Quiet(s, p)
  }

  ghost predicate Quiets(s: State) {
    forall p {:trigger QuietOk(s, p)} :: QuietOk(s, p)
  }

  ghost predicate Inv(s: State) {
    Tasks(s) && HasRunner(s) && Sched(s) && Ways(s) && Quiets(s)
  }

  // ===== tasks =====

  /** A step of `p` that leaves tasks and queue alone and drops no task. */
  lemma TasksSame(s: State, p: nat, r: State)
    requires Tasks(s)
    requires r.tasks == s.tasks && r.queue == s.queue
    requires forall q | q in s.cpus && q != p :: q in r.cpus && r.cpus[q] == s.cpus[q]
    requires forall q | q in r.cpus && q != p :: q in s.cpus
    requires p in s.cpus ==> p in r.cpus
    requires p in s.cpus ==> !s.cpus[p].at.Popped? && !s.cpus[p].at.Ready? && !s.cpus[p].at.Polled?
    requires p in s.cpus && s.cpus[p].at.Polling? ==> Polls(r.cpus[p].at, s.cpus[p].at.task) && !r.cpus[p].at.Ready?
    requires p in s.cpus && s.cpus[p].wake.Woken? ==> r.cpus[p].wake == s.cpus[p].wake
    requires p in r.cpus ==>
               && !r.cpus[p].at.Popped? && !r.cpus[p].at.Ready?
               && ((r.cpus[p].at.Polling? || r.cpus[p].at.Polled?) ==> p in s.cpus && s.cpus[p].at.Polling?)
               && (r.cpus[p].wake.Woken? ==> p in s.cpus && s.cpus[p].wake.Woken?)
               && (!r.cpus[p].wake.NoWake? ==> MayWake(r.cpus[p].at))
    ensures Tasks(r)
  {
    forall t ensures TaskOk(r, t) {
      assert TaskOk(s, t);
      assert LinkOk(s, p);
    }
    forall q ensures LinkOk(r, q) {
      assert LinkOk(s, q);
    }
  }

  /** `p` has popped or polls task `u`. */
  ghost predicate HeldBy(s: State, p: nat, u: nat) {
    Carries(s, u, PoppedBy(p)) || Carries(s, u, PolledBy(p))
  }

  /** A step of `p` on task `t`: the other tasks and vCPUs stay as they were. */
  lemma TasksChanged(s: State, p: nat, t: nat, r: State)
    requires Tasks(s) && p in s.cpus && p in r.cpus
    requires r.tasks.Keys == s.tasks.Keys + {t} && r.cpus.Keys == s.cpus.Keys
    requires forall u | u in s.tasks && u != t :: r.tasks[u] == s.tasks[u]
    requires forall q | q in s.cpus && q != p :: r.cpus[q] == s.cpus[q]
    requires forall u | u in s.queue && u != t :: u in r.queue
    requires t in s.tasks && s.tasks[t].carrier != r.tasks[t].carrier ==>
               forall q | q != p ::
                 && s.tasks[t].carrier != WokenBy(q)
                 && s.tasks[t].carrier != PoppedBy(q)
                 && s.tasks[t].carrier != PolledBy(q)
    requires r.cpus[p].at == s.cpus[p].at || (r.cpus[p].at.Advancing? && s.cpus[p].at.Advancing?)
             || (forall u {:trigger HeldBy(s, p, u)} :: HeldBy(s, p, u) ==> u == t)
    requires r.cpus[p].wake == s.cpus[p].wake
             || (forall u {:trigger Carries(s, u, WokenBy(p))} :: Carries(s, u, WokenBy(p)) ==> u == t)
    requires CarrierOk(r, t) && PendingOk(r, t) && LinkOk(r, p) && QueueOk(r)
    ensures Tasks(r)
  {
    forall u ensures TaskOk(r, u) {
      assert TaskOk(s, u);
      assert HeldBy(s, p, u) == (Carries(s, u, PoppedBy(p)) || Carries(s, u, PolledBy(p)));
      assert Carries(s, u, WokenBy(p)) ==> u in s.tasks;
    }
    forall q ensures LinkOk(r, q) {
      assert LinkOk(s, q);
    }
  }

  lemma WakeTasks(s: State, p: nat, t: nat)
    requires Tasks(s) && p in s.cpus && s.cpus[p].wake.NoWake? && MayWake(s.cpus[p].at) && t in s.tasks
    ensures Tasks(DoWake(s, p, t))
  {
    var r := DoWake(s, p, t);
    assert TaskOk(s, t) && LinkOk(s, p);
    forall u ensures !Carries(s, u, WokenBy(p)) {
      assert TaskOk(s, u);
    }
    assert QueueOk(r) by {
      forall i | 0 <= i < |s.queue| ensures Carries(r, s.queue[i], Queue) {
        assert Carries(s, s.queue[i], Queue);
      }
    }
    TasksChanged(s, p, t, r);
  }

  lemma SpawnTasks(s: State, p: nat, t: nat)
    requires Tasks(s) && p in s.cpus && s.cpus[p].wake.NoWake? && MayWake(s.cpus[p].at) && t !in s.tasks
    ensures Tasks(DoSpawn(s, p, t))
  {
    var m := SetTask(s, t, Task(Waiting, Nobody, false));
    assert Tasks(m) by {
      forall u ensures TaskOk(m, u) {
        assert TaskOk(s, u);
      }
      forall q ensures LinkOk(m, q) {
        assert LinkOk(s, q);
      }
      forall i | 0 <= i < |s.queue| ensures Carries(m, s.queue[i], Queue) {
        assert Carries(s, s.queue[i], Queue);
      }
    }
    WakeTasks(m, p, t);
  }

  lemma PushTasks(s: State, p: nat)
    requires Tasks(s) && p in s.cpus && s.cpus[p].wake.Woken?
    ensures Tasks(DoPush(s, p))
  {
    var r, t := DoPush(s, p), s.cpus[p].wake.woken;
    assert LinkOk(s, p);
    assert TaskOk(s, t);
    forall u ensures Carries(s, u, WokenBy(p)) ==> u == t {
      assert TaskOk(s, u);
    }
    assert QueueOk(r) by {
      forall i | 0 <= i < |r.queue| ensures Carries(r, r.queue[i], Queue) && (i < |s.queue| ==> r.queue[i] != t) {
        if i < |s.queue| {
          assert Carries(s, s.queue[i], Queue);
        }
      }
    }
    TasksChanged(s, p, t, r);
  }

  lemma PopTasks(s: State, p: nat)
    requires Tasks(s) && p in s.cpus && s.cpus[p].at.Loop? && s.queue != []
    ensures Tasks(DoPop(s, p))
  {
    var r, t := DoPop(s, p), s.queue[0];
    assert LinkOk(s, p);
    assert Carries(s, t, Queue);
    assert TaskOk(s, t);
    forall u ensures !HeldBy(s, p, u) {
      assert TaskOk(s, u);
    }
    forall u | u in s.queue && u != t ensures u in r.queue {
      var i :| 0 <= i < |s.queue| && s.queue[i] == u;
      assert r.queue[i - 1] == u;
    }
    assert QueueOk(r) by {
      forall i | 0 <= i < |r.queue| ensures Carries(r, r.queue[i], Queue) {
        assert r.queue[i] == s.queue[i + 1];
        assert Carries(s, s.queue[i + 1], Queue);
      }
    }
    TasksChanged(s, p, t, r);
  }

  lemma QueueOthers(s: State, r: State, t: nat)
    requires QueueOk(s) && r.queue == s.queue && t in s.tasks && !s.tasks[t].carrier.Queue?
    requires forall u | u in s.tasks && u != t :: u in r.tasks && r.tasks[u] == s.tasks[u]
    ensures QueueOk(r)
  {
    forall i | 0 <= i < |s.queue| ensures Carries(r, s.queue[i], Queue) {
      assert Carries(s, s.queue[i], Queue);
    }
  }

  lemma OnlyHeld(s: State, p: nat, t: nat)
    requires Tasks(s) && p in s.cpus && (s.cpus[p].at == Popped(t) || Polls(s.cpus[p].at, t))
    ensures forall u {:trigger HeldBy(s, p, u)} :: HeldBy(s, p, u) ==> u == t
  {
    forall u ensures HeldBy(s, p, u) ==> u == t {
      assert TaskOk(s, u);
    }
  }

  /** A step of `p` on the task it holds. */
  lemma HeldTasks(s: State, p: nat, t: nat, r: State)
    requires Tasks(s) && p in s.cpus && p in r.cpus && t in r.tasks
    requires s.cpus[p].at == Popped(t) || Polls(s.cpus[p].at, t)
    requires r.tasks == s.tasks[t := r.tasks[t]] && r.cpus == s.cpus[p := r.cpus[p]]
    requires r.queue == s.queue && r.cpus[p].wake == s.cpus[p].wake
    requires CarrierOk(r, t) && PendingOk(r, t) && LinkOk(r, p)
    ensures Tasks(r)
  {
    assert LinkOk(s, p);
    assert TaskOk(s, t);
    OnlyHeld(s, p, t);
    QueueOthers(s, r, t);
    TasksChanged(s, p, t, r);
  }

  lemma StartRunTasks(s: State, p: nat)
    requires Tasks(s) && Enabled(s, p, StartRun)
    ensures Tasks(DoStartRun(s, p))
  {
    assert LinkOk(s, p);
    assert TaskOk(s, s.cpus[p].at.task);
    HeldTasks(s, p, s.cpus[p].at.task, DoStartRun(s, p));
  }

  lemma PollFutureTasks(s: State, p: nat)
    requires Tasks(s) && Enabled(s, p, PollFuture)
    ensures Tasks(DoPollFuture(s, p))
  {
    assert LinkOk(s, p);
    assert TaskOk(s, s.cpus[p].at.task);
    HeldTasks(s, p, s.cpus[p].at.task, DoPollFuture(s, p));
  }

  lemma UpdateTasks(s: State, p: nat)
    requires Tasks(s) && Enabled(s, p, Update)
    ensures Tasks(DoUpdate(s, p))
  {
    assert LinkOk(s, p);
    assert TaskOk(s, s.cpus[p].at.task);
    HeldTasks(s, p, s.cpus[p].at.task, DoUpdate(s, p));
  }

  // ===== the runner =====

  ghost predicate OnlyCpu(s: State, p: nat, r: State) {
    p in s.cpus && p in r.cpus && r.cpus == s.cpus[p := r.cpus[p]]
  }

  lemma RunnerKeeps(s: State, p: nat, r: State)
    requires HasRunner(s) && OnlyCpu(s, p, r)
    requires Runs(s, p) ==> r.queue == [] || Runs(r, p)
    requires s.queue == [] ==> r.queue == [] || Runs(r, p)
    ensures HasRunner(r)
  {
    if s.queue != [] && r.queue != [] {
      var q :| Runs(s, q);
      assert Runs(r, q);
    }
  }

  // ===== the scheduler =====

  /** A step that touches neither bits nor launches and keeps `p` active or not. */
  lemma SchedSame(s: State, p: nat, r: State)
    requires Sched(s) && OnlyCpu(s, p, r)
    requires r.bits == s.bits && r.count == s.count && r.launched == s.launched
    requires r.isLaunching == s.isLaunching && r.launch == s.launch
    requires Active(r.cpus[p].at) ==> Active(s.cpus[p].at)
    requires r.cpus[p].at.Launching? <==> s.cpus[p].at.Launching?
    requires r.cpus[p].wake.PickedNew? <==> s.cpus[p].wake.PickedNew?
    ensures Sched(r)
  {
    forall b ensures BitOk(r, b) {
      assert BitOk(s, b);
    }
    forall q ensures SchedOk(r, q) {
      assert SchedOk(s, q);
    }
  }

  /** The lowest clear bit is a launched vCPU or exactly the next one to launch. */
  lemma PickIndex(s: State)
    requires Sched(s)
    ensures LowestClear(s.bits, 0) <= s.launched || s.isLaunching
  {
    if LowestClear(s.bits, 0) > s.launched {
      assert BitOk(s, s.launched);
    }
  }

  lemma PickSched(s: State, p: nat)
    requires Sched(s) && Enabled(s, p, Pick)
    ensures Sched(DoPick(s, p))
  {
    var r := DoPick(s, p);
    PickIndex(s);
    forall b ensures BitOk(r, b) {
      assert BitOk(s, b);
    }
    forall q ensures SchedOk(r, q) {
      assert SchedOk(s, q);
    }
  }

  lemma RequestSched(s: State, p: nat)
    requires Sched(s) && Enabled(s, p, Request)
    ensures Sched(DoRequest(s, p))
  {
    var r := DoRequest(s, p);
    assert SchedOk(s, p);
    forall b ensures BitOk(r, b) {
      assert BitOk(s, b);
    }
    forall q ensures SchedOk(r, q) {
      assert SchedOk(s, q);
    }
  }

  lemma FinishLaunchSched(s: State, p: nat)
    requires Sched(s) && Enabled(s, p, FinishLaunch)
    ensures Sched(DoFinishLaunch(s, p))
  {
    var r := DoFinishLaunch(s, p);
    assert SchedOk(s, p);
    forall b ensures BitOk(r, b) {
      assert BitOk(s, b);
    }
    forall q ensures SchedOk(r, q) {
      assert SchedOk(s, q);
    }
  }

  lemma HaltSched(s: State, p: nat)
    requires Sched(s) && Enabled(s, p, Halt)
    ensures Sched(DoHalt(s, p))
  {
    var r := DoHalt(s, p);
    assert SchedOk(s, p);
    forall b ensures BitOk(r, b) {
      assert BitOk(s, b);
    }
    forall q ensures SchedOk(r, q) {
      assert SchedOk(s, q);
    }
  }

  lemma ResumeSched(s: State, p: nat)
    requires Sched(s) && Enabled(s, p, Resume)
    ensures Sched(DoResume(s, p))
  {
    var r := DoResume(s, p);
    assert SchedOk(s, p);
    forall b ensures BitOk(r, b) {
      assert BitOk(s, b);
    }
    forall q ensures SchedOk(r, q) {
      assert SchedOk(s, q);
    }
  }

  lemma StartApSched(s: State)
    requires Sched(s) && s.launch.Sent?
    ensures Sched(DoStartAp(s))
  {
    var r := DoStartAp(s);
    assert SchedOk(s, s.count);
    forall b ensures BitOk(r, b) {
      assert BitOk(s, b);
    }
    forall q ensures SchedOk(r, q) {
      assert SchedOk(s, q);
    }
  }

  // ===== wake-ups on their way =====

  /** A step of `p` that loses no notification. */
  lemma WaysKept(s: State, p: nat, r: State)
    requires Ways(s) && OnlyCpu(s, p, r)
    requires r.supervisor == s.supervisor && (s.token ==> r.token) && s.armed <= r.armed
    requires s.kicked <= r.kicked + {p} && (p in s.kicked && p !in r.kicked ==> !Sleeps(r, p))
    requires Notifies(s, p) ==> r.token || Notifies(r, p)
    requires s.cpus[p].wake.Picked? ==>
               r.cpus[p].wake == s.cpus[p].wake || (s.cpus[p].wake.picked in r.armed && Notifies(r, p))
    requires forall c | c in r.bits && c !in s.bits :: Picks(r, p, c) || !Sleeps(r, c)
    requires Sleeps(r, p) ==> Sleeps(s, p) || p !in r.bits
    requires r.launch.Sent? ==> s.launch.Sent? || Notifies(r, p)
    ensures Ways(r)
  {
    ComingKept(s, p, r);
    forall c ensures WayOk(r, c) {
      assert WayOk(s, c);
      if c in r.bits && Sleeps(r, c) && c in s.bits {
        KickKept(s, p, r, c);
      }
    }
  }

  lemma ComingKept(s: State, p: nat, r: State)
    requires OnlyCpu(s, p, r) && (s.token ==> r.token)
    requires Notifies(s, p) ==> r.token || Notifies(r, p)
    ensures SupervisorComing(s) ==> SupervisorComing(r)
    ensures Notifies(r, p) ==> SupervisorComing(r)
  {
    if SupervisorComing(s) && !s.token {
      var q :| Notifies(s, q);
      assert q != p ==> Notifies(r, q);
    }
  }

  lemma KickKept(s: State, p: nat, r: State, c: nat)
    requires KickComing(s, c) && Sleeps(r, c) && OnlyCpu(s, p, r)
    requires r.supervisor == s.supervisor && s.armed <= r.armed
    requires SupervisorComing(s) ==> SupervisorComing(r)
    requires Notifies(r, p) ==> SupervisorComing(r)
    requires s.kicked <= r.kicked + {p} && (p in s.kicked && p !in r.kicked ==> !Sleeps(r, p))
    requires s.cpus[p].wake.Picked? ==>
               r.cpus[p].wake == s.cpus[p].wake || (s.cpus[p].wake.picked in r.armed && Notifies(r, p))
    ensures KickComing(r, c)
  {
    if exists q {:trigger Picks(s, q, c)} :: Picks(s, q, c) {
      var q :| Picks(s, q, c);
      assert q != p ==> Picks(r, q, c);
      assert q == p ==> Picks(r, q, c) || c in r.armed;
    }
  }

  /** A supervisor step: the vCPUs and the bits stay as they are. */
  lemma SupervisorWays(s: State, r: State)
    requires Ways(s) && r.cpus == s.cpus && r.bits == s.bits && r.launch == s.launch
    requires s.kicked <= r.kicked
    requires s.token ==> r.token || r.supervisor.Busy?
    requires s.supervisor.Kicking? ==>
               s.supervisor.ids <= r.kicked + (if r.supervisor.Kicking? then r.supervisor.ids else {})
    requires s.supervisor.Busy? ==> r.supervisor.Busy? || (r.supervisor.Drained? && !s.launch.Sent?)
    requires s.supervisor.Drained? ==> r.supervisor.Kicking? && s.armed <= r.supervisor.ids
    requires s.supervisor.Drained? || s.armed <= r.armed
    ensures Ways(r)
  {
    if !s.token && SupervisorComing(s) {
      var q :| Notifies(s, q);
      assert Notifies(r, q);
    }
    forall c ensures WayOk(r, c) {
      assert WayOk(s, c);
      if exists q {:trigger Picks(s, q, c)} :: Picks(s, q, c) {
        var q :| Picks(s, q, c);
        assert Picks(r, q, c);
      }
    }
  }

  lemma PickWays(s: State, p: nat)
    requires Sched(s) && Ways(s) && Enabled(s, p, Pick)
    ensures Ways(DoPick(s, p))
  {
    PickIndex(s);
    assert SchedOk(s, s.launched);
    WaysKept(s, p, DoPick(s, p));
  }

  lemma HaltWays(s: State, p: nat)
    requires Ways(s) && Enabled(s, p, Halt) && s.cpus[p].wake.NoWake?
    ensures Ways(DoHalt(s, p))
  {
    WaysKept(s, p, DoHalt(s, p));
  }

  lemma StartApWays(s: State)
    requires Ways(s) && s.count !in s.cpus
    ensures Ways(DoStartAp(s))
  {
    var r := DoStartAp(s);
    if !s.token && SupervisorComing(s) {
      var q :| Notifies(s, q);
      assert Notifies(r, q);
    }
    forall c ensures WayOk(r, c) {
      assert WayOk(s, c);
      if exists q {:trigger Picks(s, q, c)} :: Picks(s, q, c) {
        var q :| Picks(s, q, c);
        assert Picks(r, q, c);
      }
    }
  }

  // ===== quiet =====

  /** A step of `p` that, where nothing can run, changes nothing that matters. */
  lemma QuietsKept(s: State, p: nat, r: State)
    requires Quiets(s) && OnlyCpu(s, p, r)
    requires StillCpu(s, p) && s.queue == [] ==>
               r.queue == [] && r.tasks == s.tasks && r.isLaunching == s.isLaunching && StillCpu(r, p)
    requires r.cpus[p].at == Advancing(true) ==>
               && s.cpus[p].at == Advancing(true) && r.cpus[p].wake.NoWake?
               && r.queue == s.queue && r.tasks == s.tasks && r.isLaunching == s.isLaunching
    ensures Quiets(r)
  {
    forall q ensures QuietOk(r, q) {
      assert QuietOk(s, q);
      if q in r.cpus && r.cpus[q].at == Advancing(true) {
        assert q != p ==> StillCpu(s, p);
        forall c | c != q ensures StillCpu(r, c) {
          assert StillCpu(s, c);
        }
        forall t ensures IdleTask(r, t) {
          assert IdleTask(s, t);
        }
      }
    }
  }
}
