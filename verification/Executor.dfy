/** The kernel's executor and vCPU scheduler as one state machine: tasks and their
    states, the run queue, the scheduler's bits, the notification buffer with the
    supervisor loop behind it, and any number of vCPUs up to the launch limit. Every
    atomic operation and every lock section is one step. */
module Executor {

  const MAX_APS_COUNT: nat := 32

  datatype TaskState = Waiting | Scheduled | Running | Rescheduled | Done

  /** Who has a task's next poll in hand. */
  datatype Carrier =
    | Nobody
    | Queue
    | WokenBy(cpu: nat)
    | PoppedBy(cpu: nat)
    | PolledBy(cpu: nat)

  /** `carrier` and `pending` are history: a task is pending from a `wake` that finds
      it unfinished until its future is next polled or has finished. */
  datatype Task = Task(state: TaskState, carrier: Carrier, pending: bool)

  /** Where a vCPU is. At `Returning` it drops its reference to the task it polled, which
      may be the last one and run the future's destructors. `quiet` is history: no task was
      woken since the halt that found every other vCPU halted. */
  datatype Place =
    | Launching
    | Loop
    | Popped(task: nat)
    | Ready(task: nat)
    | Polling(task: nat)
    | Polled(task: nat, ready: bool)
    | Returning
    | SawEmpty
    | Halted
    | Asleep
    | Awake
    | Advancing(quiet: bool)

  /** Where a vCPU is inside `wake`, `schedule_vcpu` and `start_next_ap`. */
  datatype Waker =
    | NoWake
    | Woken(woken: nat)
    | Pushed
    | Picked(picked: nat)
    | PickedNew
    | Notify

  datatype Cpu = Cpu(at: Place, wake: Waker)

  /** The supervisor's command loop. */
  datatype Supervisor = Busy | Drained | Kicking(ids: set<nat>) | Parked

  /** The request for another vCPU; `Sent` is the command in the ring. */
  datatype Launch = NoLaunch | RequestedBy(cpu: nat) | Sent | Started

  datatype State = State(
    tasks: map<nat, Task>,
    queue: seq<nat>,
    cpus: map<nat, Cpu>,
    count: nat,
    bits: set<nat>,
    launched: nat,
    isLaunching: bool,
    launch: Launch,
    armed: set<nat>,
    supervisor: Supervisor,
    token: bool,
    kicked: set<nat>)

  datatype Action =
    | Spawn(task: nat)
    | Wake(task: nat)
    | Push
    | Pick
    | Arm
    | Request
    | Notify
    | FinishLaunch
    | Pop
    | StartRun
    | PollFuture
    | FinishPoll(ready: bool)
    | Update
    | Return
    | Halt
    | Park
    | WakeUp
    | Resume
    | TimeAdvanced
    | ArmSelf
    | AbsorbKick
    | StartAp
    | Drain
    | Reset
    | KickOne(id: nat)
    | SupervisorPark
    | SupervisorWake

  /** Code that may call `wake`. */
  predicate MayWake(at: Place) {
    at.Launching? || at.Polling? || at.Returning? || at.Advancing?
  }

  /** Between `resume` or launch and the next successful `halt`. */
  predicate Active(at: Place) {
    !at.Halted? && !at.Asleep? && !at.Awake?
  }

  /** Active and certain to look at the queue before halting. */
  predicate WillPoll(at: Place) {
    Active(at) && !at.SawEmpty?
  }

  /** `trailing_ones`: the lowest clear bit. */
  function LowestClear(bits: set<nat>, from: nat): (n: nat)
    requires forall b: nat :: b < from ==> b in bits
    ensures n !in bits && forall b: nat :: b < n ==> b in bits
    decreases |bits - set b: nat | b < from && b in bits :: b|
  {
    if from !in bits then from
    else
      var below := set b: nat | b < from && b in bits :: b;
      assert (set b: nat | b < from + 1 && b in bits :: b) == below + {from};
      assert bits - (below + {from}) == (bits - below) - {from};
      LowestClear(bits, from + 1)
  }

  predicate IsSupervisor(a: Action) {
    a.StartAp? || a.Drain? || a.Reset? || a.KickOne? || a.SupervisorPark? || a.SupervisorWake?
  }

  /** What a step of vCPU `p` needs; supervisor steps ignore `p`. A parked thread may
      also wake up without having been kicked. */
  predicate Enabled(s: State, p: nat, a: Action) {
    if IsSupervisor(a) then
      match a
      case StartAp => s.supervisor.Busy? && s.launch.Sent? && s.count < MAX_APS_COUNT
      case Drain => s.supervisor.Busy? && !s.launch.Sent?
      case Reset => s.supervisor.Drained?
      case KickOne(id) => s.supervisor.Kicking? && id in s.supervisor.ids
      case SupervisorPark => s.supervisor.Kicking? && s.supervisor.ids == {}
      case _ => s.supervisor.Parked?
    else
      && p in s.cpus
      && var cpu := s.cpus[p];
         match a
         case Spawn(t) => cpu.wake.NoWake? && MayWake(cpu.at) && t !in s.tasks
         case Wake(t) => cpu.wake.NoWake? && MayWake(cpu.at) && t in s.tasks
         case Push => cpu.wake.Woken?
         case Pick => cpu.wake.Pushed?
         case Arm => cpu.wake.Picked?
         case Request => cpu.wake.PickedNew?
         case Notify => cpu.wake.Notify?
         case FinishLaunch => cpu.wake.NoWake? && cpu.at.Launching?
         case Pop => cpu.at.Loop?
         case StartRun => cpu.at.Popped? && cpu.at.task in s.tasks
         case PollFuture => cpu.at.Ready? && cpu.at.task in s.tasks
         case FinishPoll(_) => cpu.wake.NoWake? && cpu.at.Polling?
         case Update => cpu.at.Polled? && cpu.at.task in s.tasks
         case Return => cpu.wake.NoWake? && cpu.at.Returning?
         case Halt => cpu.at.SawEmpty?
         case Park => cpu.at.Halted?
         case WakeUp => cpu.at.Asleep?
         case Resume => cpu.at.Awake?
         case TimeAdvanced => cpu.wake.NoWake? && cpu.at.Advancing?
         case ArmSelf => Active(cpu.at)
         case _ => Active(cpu.at) && p in s.kicked
  }

  function SetAt(s: State, p: nat, at: Place): State
    requires p in s.cpus
  {
    s.(cpus := s.cpus[p := s.cpus[p].(at := at)])
  }

  function SetWake(s: State, p: nat, wake: Waker): State
    requires p in s.cpus
  {
    s.(cpus := s.cpus[p := s.cpus[p].(wake := wake)])
  }

  function SetTask(s: State, t: nat, task: Task): State {
    s.(tasks := s.tasks[t := task])
  }

  /** A waking vCPU that is advancing time has ended the quiet. */
  function NoLongerQuiet(at: Place): Place {
    if at.Advancing? then Advancing(false) else at
  }

  /** The update inside `wake`. */
  function DoWake(s: State, p: nat, t: nat): State
    requires p in s.cpus && t in s.tasks
  {
    var task := s.tasks[t];
    match task.state
    case Waiting =>
      s.(tasks := s.tasks[t := Task(Scheduled, WokenBy(p), true)],
         cpus := s.cpus[p := Cpu(NoLongerQuiet(s.cpus[p].at), Woken(t))])
    case Scheduled => SetTask(s, t, task.(pending := true))
    case Running => SetTask(s, t, task.(state := Rescheduled, pending := true))
    case Rescheduled => SetTask(s, t, task.(pending := true))
    case Done => s
  }

  function DoSpawn(s: State, p: nat, t: nat): State
    requires p in s.cpus
  {
    DoWake(SetTask(s, t, Task(Waiting, Nobody, false)), p, t)
  }

  function DoPush(s: State, p: nat): State
    requires p in s.cpus && s.cpus[p].wake.Woken?
  {
    var t := s.cpus[p].wake.woken;
    if t in s.tasks then
      SetWake(SetTask(s, t, s.tasks[t].(carrier := Queue)), p, Pushed).(queue := s.queue + [t])
    else SetWake(s, p, Pushed).(queue := s.queue + [t])
  }

  /** `pick_any`. */
  function DoPick(s: State, p: nat): State
    requires p in s.cpus
  {
    var idx := LowestClear(s.bits, 0);
    if idx < s.launched then SetWake(s, p, Picked(idx)).(bits := s.bits + {idx})
    else if s.isLaunching || idx >= MAX_APS_COUNT then SetWake(s, p, NoWake)
    else SetWake(s, p, PickedNew).(bits := s.bits + {idx}, isLaunching := true, launch := RequestedBy(p))
  }

  function DoArm(s: State, p: nat): State
    requires p in s.cpus && s.cpus[p].wake.Picked?
  {
    SetWake(s, p, Waker.Notify).(armed := s.armed + {s.cpus[p].wake.picked})
  }

  function DoRequest(s: State, p: nat): State
    requires p in s.cpus
  {
    SetWake(s, p, Waker.Notify).(launch := Sent)
  }

  function DoNotify(s: State, p: nat): State
    requires p in s.cpus
  {
    SetWake(s, p, NoWake).(token := true)
  }

  /** `finish_launch`; the source asserts `is_launching` here. */
  function DoFinishLaunch(s: State, p: nat): State
    requires p in s.cpus
  {
    SetAt(s, p, Loop).(isLaunching := false, launched := s.launched + 1, launch := NoLaunch)
  }

  function DoPop(s: State, p: nat): State
    requires p in s.cpus
  {
    if s.queue == [] then SetAt(s, p, SawEmpty)
    else
      var t := s.queue[0];
      var popped := SetAt(s, p, Popped(t)).(queue := s.queue[1..]);
      if t in s.tasks then SetTask(popped, t, s.tasks[t].(carrier := PoppedBy(p))) else popped
  }

  function DoStartRun(s: State, p: nat): State
    requires p in s.cpus && s.cpus[p].at.Popped? && s.cpus[p].at.task in s.tasks
  {
    var t := s.cpus[p].at.task;
    SetAt(SetTask(s, t, s.tasks[t].(state := Running, carrier := PolledBy(p))), p, Ready(t))
  }

  function DoPollFuture(s: State, p: nat): State
    requires p in s.cpus && s.cpus[p].at.Ready? && s.cpus[p].at.task in s.tasks
  {
    var t := s.cpus[p].at.task;
    SetAt(SetTask(s, t, s.tasks[t].(pending := false)), p, Polling(t))
  }

  function DoFinishPoll(s: State, p: nat, ready: bool): State
    requires p in s.cpus && s.cpus[p].at.Polling?
  {
    SetAt(s, p, Polled(s.cpus[p].at.task, ready))
  }

  /** What `poll` does after the future returns. */
  function DoUpdate(s: State, p: nat): State
    requires p in s.cpus && s.cpus[p].at.Polled? && s.cpus[p].at.task in s.tasks
  {
    var t := s.cpus[p].at.task;
    var task := s.tasks[t];
    if s.cpus[p].at.ready then SetAt(SetTask(s, t, Task(Done, Nobody, false)), p, Returning)
    else if task.state.Running? then SetAt(SetTask(s, t, task.(state := Waiting, carrier := Nobody)), p, Returning)
    else if task.state.Rescheduled? then SetAt(SetTask(s, t, task.(state := Running)), p, Ready(t))
    else SetAt(s, p, Returning)
  }

  /** `Scheduler::halt`; a refusal leads to `advance_time`. */
  function DoHalt(s: State, p: nat): State
    requires p in s.cpus
  {
    if s.bits - {p} == {} then SetAt(s, p, Advancing(true))
    else SetAt(s, p, Halted).(bits := s.bits - {p})
  }

  function DoPark(s: State, p: nat): State
    requires p in s.cpus
  {
    SetAt(s, p, Asleep).(token := true)
  }

  function DoWakeUp(s: State, p: nat): State
    requires p in s.cpus
  {
    SetAt(s, p, Awake).(kicked := s.kicked - {p})
  }

  function DoResume(s: State, p: nat): State
    requires p in s.cpus
  {
    SetAt(s, p, Loop).(bits := s.bits + {p})
  }

  /** The new vCPU takes its index from the counter. */
  function DoStartAp(s: State): State {
    s.(cpus := s.cpus[s.count := Cpu(Launching, NoWake)], count := s.count + 1, launch := Started)
  }

  function DoKickOne(s: State, id: nat): State
    requires s.supervisor.Kicking?
  {
    s.(supervisor := Kicking(s.supervisor.ids - {id}), kicked := s.kicked + {id})
  }

  function Apply(s: State, p: nat, a: Action): State
    requires Enabled(s, p, a)
  {
    match a
    case Spawn(t) => DoSpawn(s, p, t)
    case Wake(t) => DoWake(s, p, t)
    case Push => DoPush(s, p)
    case Pick => DoPick(s, p)
    case Arm => DoArm(s, p)
    case Request => DoRequest(s, p)
    case Notify => DoNotify(s, p)
    case FinishLaunch => DoFinishLaunch(s, p)
    case Pop => DoPop(s, p)
    case StartRun => DoStartRun(s, p)
    case PollFuture => DoPollFuture(s, p)
    case FinishPoll(ready) => DoFinishPoll(s, p, ready)
    case Update => DoUpdate(s, p)
    case Return => SetAt(s, p, Loop)
    case Halt => DoHalt(s, p)
    case Park => DoPark(s, p)
    case WakeUp => DoWakeUp(s, p)
    case Resume => DoResume(s, p)
    case TimeAdvanced => SetAt(s, p, Loop)
    case ArmSelf => s.(armed := s.armed + {p})
    case AbsorbKick => s.(kicked := s.kicked - {p})
    case StartAp => DoStartAp(s)
    case Drain => s.(supervisor := Drained)
    case Reset => s.(supervisor := Kicking(s.armed), armed := {})
    case KickOne(id) => DoKickOne(s, id)
    case SupervisorPark => s.(supervisor := Parked)
    case SupervisorWake => s.(supervisor := Busy, token := false)
  }

  /** The boot vCPU is launching; no task exists. */
  predicate Initial(s: State) {
    && s.tasks == map[] && s.queue == []
    && s.cpus == map[0 := Cpu(Launching, NoWake)] && s.count == 1
    && s.bits == {0} && s.launched == 0 && s.isLaunching && s.launch == Started
    && s.armed == {} && s.kicked == {}
  }

  datatype Label = Label(cpu: nat, action: Action)

  predicate Run(s: State, labels: seq<Label>, t: State)
    decreases |labels|
  {
    if labels == [] then s == t
    else
      && Enabled(s, labels[0].cpu, labels[0].action)
      && Run(Apply(s, labels[0].cpu, labels[0].action), labels[1..], t)
  }
}
