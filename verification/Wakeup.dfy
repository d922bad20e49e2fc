/** The sleep/wakeup protocol between __schedule() and try_to_wake_up(), for one task,
    any number of CPUs and any number of concurrent wakers.

    Every step is one access to a variable that is read or written outside the lock that
    normally protects it (__state, on_rq, on_cpu, the wake list), or one critical section
    whose intermediate values nobody can see. Memory is sequentially consistent. */
module Wakeup {
  import opened Sequences

  type Cpu = nat
  type WakerId = nat

  /** The sleep bits of p->__state, and the masks wakers test against them. */
  datatype Bit = Interruptible | Uninterruptible | OtherBit(n: nat)

  const NORMAL: set<Bit> := {Interruptible, Uninterruptible}

  /** p->__state: TASK_RUNNING is 0, TASK_WAKING a bit that no waker's mask contains. */
  datatype TaskState = RUNNING | WAKING | Sleeping(bits: set<Bit>) {
    predicate Matches(mask: set<Bit>) { Sleeping? && bits * mask != {} }
  }

  datatype OnRq = Off | Queued | Migrating

  /** Where the task is in its wait loop. */
  datatype Prog = BeforeSet | AfterSet | TestedFalse | InSchedule | TestedTrue | Finished

  /** What a CPU is doing while the task is its current task or the one it switches away from. */
  datatype Phase =
    | Running
    | Irq(w: WakerId)
    | Locked(preempt: bool)
    | Loaded(preempt: bool, prev: TaskState)
    | Zeroed
    | Picking(slept: bool, locked: bool)
    | Switching(slept: bool)

  /** The position of a waker inside try_to_wake_up(). */
  datatype WPc =
    | Armed(mask: set<Bit>)
    | SelfMatched(mask: set<Bit>, cpu: Cpu)
    | HavePi(mask: set<Bit>)
    | Matched(mask: set<Bit>)
    | RqWait(mask: set<Bit>)
    | MustEnqueue(mask: set<Bit>)
    | WakingSet
    | Offload(cpu: Cpu)
    | Spin
    | Select
    | Target(cpu: Cpu)
    | Release(success: bool)
    | Done(success: bool)

  /** `enq` holds one entry for every link of the task into a runqueue, `wakelist` one for every
      wake list it is on, and `cpus` says which CPUs hold it as current or previous task:
      that each is at most one is a theorem, not part of the representation. A runqueue lock is
      held by the CPU whose phase says so, or, between finish_task() and the unlock that ends a
      context switch, by the CPU in `tail`. */
  datatype State = State(
    st: TaskState,
    onRq: OnRq,
    onCpu: bool,
    cpu: Cpu,
    enq: seq<Cpu>,
    wakelist: seq<Cpu>,
    pi: Option<WakerId>,
    tail: set<Cpu>,
    cpus: map<Cpu, Phase>,
    prog: Prog,
    wakers: map<WakerId, WPc>,
    cond: bool)

  /** Steps of the task's own wait loop. */
  datatype TaskAct = SetState(b: set<Bit>) | Test | SetRunning | Restart | CallSchedule | Return

  /** Steps of __schedule() on a CPU, and of the switch to the task. */
  datatype SchedAct =
    | Preempt | LoadState | Decide | Dequeue | DropLock | RetakeLock
    | PickSelf | PickOther | FinishTask | TailUnlock | SwitchIn

  /** Steps of try_to_wake_up(). */
  datatype WakeAct =
    | Arm(mask: set<Bit>, setsCond: bool) | SelfTest(c: Cpu) | SelfSet
    | LockPi | TestState | LoadOnRq | TtwuRunnable | SetWaking
    | LoadOnCpu(offload: bool) | QueueOffload | SpinDone | SelectCpu(c: Cpu)
    | QueueRemote | QueueLocal | UnlockPi

  /** MoveOut and MoveIn are the two halves of move_queued_task(); Ipi is sched_ttwu_pending(). */
  datatype Action =
    | Task(c: Cpu, t: TaskAct)
    | Sched(c: Cpu, k: SchedAct)
    | MoveOut(to: Cpu)
    | MoveIn
    | Ipi(c: Cpu)
    | Wake(w: WakerId, a: WakeAct)

  predicate At(s: State, c: Cpu, p: Phase) { c in s.cpus && s.cpus[c] == p }

  predicate LockedPhase(p: Phase) {
    p.Locked? || p.Loaded? || p.Zeroed? || (p.Picking? && p.locked) || p.Switching?
  }

  /** Nobody holds c's runqueue lock. */
  predicate Free(s: State, c: Cpu) { c !in s.tail && (c in s.cpus ==> !LockedPhase(s.cpus[c])) }

  /** The sleeper waits in a state that a normal wakeup matches. */
  predicate SleepBits(b: set<Bit>) { b * NORMAL != {} }

  predicate TaskEnabled(s: State, c: Cpu, t: TaskAct) {
    At(s, c, Running) &&
    match t
    case SetState(b) => s.prog == BeforeSet && SleepBits(b)
    case Test => s.prog == AfterSet
    case SetRunning => s.prog == TestedTrue
    case Restart => s.prog == Finished
    case CallSchedule => s.prog == TestedFalse && Free(s, c)
    case Return => s.prog == InSchedule
  }

  predicate SchedEnabled(s: State, c: Cpu, k: SchedAct) {
    match k
    case Preempt => At(s, c, Running) && Free(s, c)
    case LoadState => c in s.cpus && s.cpus[c].Locked?
    case Decide => c in s.cpus && s.cpus[c].Loaded?
    case Dequeue => At(s, c, Zeroed)
    case DropLock => c in s.cpus && s.cpus[c].Picking? && s.cpus[c].locked
    case RetakeLock => c in s.cpus && s.cpus[c].Picking? && !s.cpus[c].locked && Free(s, c)
    case PickSelf => c in s.cpus && s.cpus[c].Picking? && s.cpus[c].locked && c in s.enq
    case PickOther => c in s.cpus && s.cpus[c].Picking? && s.cpus[c].locked
    case FinishTask => c in s.cpus && s.cpus[c].Switching?
    case TailUnlock => c in s.tail
    case SwitchIn => c !in s.cpus && Free(s, c) && c in s.enq
  }

  predicate WakeEnabled(s: State, w: WakerId, a: WakeAct) {
    if a.Arm? then
      (w in s.wakers ==> s.wakers[w].Done?) && (a.setsCond ==> NORMAL <= a.mask)
    else
      w in s.wakers && var pc := s.wakers[w];
      match a
      case Arm(_, _) => false
      case SelfTest(c) => pc.Armed? && At(s, c, Running)
      case SelfSet => pc.SelfMatched?
      case LockPi => pc.Armed? && s.pi.None?
      case TestState => pc.HavePi?
      case LoadOnRq => pc.Matched?
      case TtwuRunnable => pc.RqWait? && Free(s, s.cpu) && s.onRq != Migrating
      case SetWaking => pc.MustEnqueue?
      case LoadOnCpu(offload) => pc.WakingSet?
      case QueueOffload => pc.Offload?
      case SpinDone => pc.Spin? && !s.onCpu
      case SelectCpu(c) => pc.Select?
      case QueueRemote => pc.Target?
      case QueueLocal => pc.Target? && Free(s, pc.cpu)
      case UnlockPi => pc.Release?
  }

  predicate Enabled(s: State, a: Action) {
    match a
    case Task(c, t) => TaskEnabled(s, c, t)
    case Sched(c, k) => SchedEnabled(s, c, k)
    case MoveOut(to) => Free(s, s.cpu) && s.onRq == Queued && !s.onCpu
    case MoveIn => s.onRq == Migrating && Free(s, s.cpu)
    case Ipi(c) => c in s.wakelist && Free(s, c) && IrqsOn(s, c)
    case Wake(w, k) => WakeEnabled(s, w, k)
  }

  /** A CPU takes the wakeup IPI only with interrupts on, so never inside __schedule(). */
  predicate IrqsOn(s: State, c: Cpu) { c in s.cpus ==> s.cpus[c] == Running }

  function ToPhase(s: State, c: Cpu, p: Phase): State { s.(cpus := s.cpus[c := p]) }
  function ToPc(s: State, w: WakerId, pc: WPc): State { s.(wakers := s.wakers[w := pc]) }

  /** xs without one occurrence of c. */
  function Unlink(xs: seq<Cpu>, c: Cpu): seq<Cpu> {
    if xs == [] then [] else if xs[0] == c then xs[1..] else [xs[0]] + Unlink(xs[1..], c)
  }

  /** ttwu_do_activate(): link the task into c's runqueue, on_rq = QUEUED, __state = RUNNING. */
  function Activate(s: State, c: Cpu): State {
    s.(enq := s.enq + [c], onRq := Queued, st := RUNNING, cpu := c)
  }

  function TaskApply(s: State, c: Cpu, t: TaskAct): State
    requires TaskEnabled(s, c, t)
  {
    match t
    case SetState(b) => s.(st := Sleeping(b), prog := AfterSet)
    case Test => s.(prog := if s.cond then TestedTrue else TestedFalse)
    case SetRunning => s.(st := RUNNING, prog := Finished)
    case Restart => s.(prog := BeforeSet, cond := false)
    case CallSchedule => ToPhase(s, c, Locked(false)).(prog := InSchedule)
    case Return => s.(prog := BeforeSet)
  }

  function SchedApply(s: State, c: Cpu, k: SchedAct): State
    requires SchedEnabled(s, c, k)
  {
    match k
    case Preempt => ToPhase(s, c, Locked(true))
    case LoadState => ToPhase(s, c, Loaded(s.cpus[c].preempt, s.st))
    case Decide =>
      if !s.cpus[c].preempt && s.cpus[c].prev != RUNNING then ToPhase(s, c, Zeroed).(onRq := Off)
      else ToPhase(s, c, Picking(false, true))
    case Dequeue => ToPhase(s, c, Picking(true, true)).(enq := Unlink(s.enq, c))
    case DropLock => ToPhase(s, c, Picking(s.cpus[c].slept, false))
    case RetakeLock => ToPhase(s, c, Picking(s.cpus[c].slept, true))
    case PickSelf => ToPhase(s, c, Running)
    case PickOther => ToPhase(s, c, Switching(s.cpus[c].slept))
    case FinishTask => s.(onCpu := false, cpus := s.cpus - {c}, tail := s.tail + {c})
    case TailUnlock => s.(tail := s.tail - {c})
    case SwitchIn => ToPhase(s, c, Running).(onCpu := true)
  }

  function WakeApply(s: State, w: WakerId, a: WakeAct): State
    requires WakeEnabled(s, w, a)
  {
    match a
    case Arm(mask, setsCond) => ToPc(s, w, Armed(mask)).(cond := s.cond || setsCond)
    case SelfTest(c) =>
      if s.st.Matches(s.wakers[w].mask) then ToPhase(ToPc(s, w, SelfMatched(s.wakers[w].mask, c)), c, Irq(w))
      else ToPc(s, w, Done(false))
    case SelfSet => ToPhase(ToPc(s, w, Done(true)), s.wakers[w].cpu, Running).(st := RUNNING)
    case LockPi => ToPc(s, w, HavePi(s.wakers[w].mask)).(pi := Some(w))
    case TestState =>
      ToPc(s, w, if s.st.Matches(s.wakers[w].mask) then Matched(s.wakers[w].mask) else Release(false))
    case LoadOnRq =>
      ToPc(s, w, if s.onRq != Off then RqWait(s.wakers[w].mask) else MustEnqueue(s.wakers[w].mask))
    case TtwuRunnable =>
      if s.onRq == Queued then ToPc(s, w, Release(true)).(st := RUNNING)
      else ToPc(s, w, MustEnqueue(s.wakers[w].mask))
    case SetWaking => ToPc(s, w, WakingSet).(st := WAKING)
    case LoadOnCpu(offload) => ToPc(s, w, if s.onCpu && offload then Offload(s.cpu) else Spin)
    case QueueOffload =>
      ToPc(s, w, Release(true)).(wakelist := s.wakelist + [s.wakers[w].cpu])
    case SpinDone => ToPc(s, w, Select)
    case SelectCpu(c) => ToPc(s, w, Target(c)).(cpu := c)
    case QueueRemote =>
      ToPc(s, w, Release(true)).(wakelist := s.wakelist + [s.wakers[w].cpu])
    case QueueLocal => Activate(ToPc(s, w, Release(true)), s.wakers[w].cpu)
    case UnlockPi => ToPc(s, w, Done(s.wakers[w].success)).(pi := None)
  }

  function Apply(s: State, a: Action): State
    requires Enabled(s, a)
  {
    match a
    case Task(c, t) => TaskApply(s, c, t)
    case Sched(c, k) => SchedApply(s, c, k)
    case MoveOut(to) => s.(onRq := Migrating, enq := Unlink(s.enq, s.cpu), cpu := to)
    case MoveIn => s.(onRq := Queued, enq := s.enq + [s.cpu])
    case Ipi(c) => Activate(s.(wakelist := Unlink(s.wakelist, c)), c)
    case Wake(w, k) => WakeApply(s, w, k)
  }

  /** The task runs on c0 and no wakeup is under way. */
  function Init(c0: Cpu): State {
    State(RUNNING, Queued, true, c0, [c0], [], None, {}, map[c0 := Running],
          BeforeSet, map[], false)
  }

  /** `ss` are the states passed when the actions `acts` are taken in order from `s`. */
  ghost predicate IsRun(s: State, acts: seq<Action>, ss: seq<State>) {
    && |ss| == |acts| + 1
    && ss[0] == s
    && forall i :: 0 <= i < |acts| ==> Enabled(ss[i], acts[i]) && ss[i + 1] == Apply(ss[i], acts[i])
  }

  // ---------------------------------------------------------------- the inductive invariant

  predicate HoldsPi(pc: WPc) { !pc.Armed? && !pc.SelfMatched? && !pc.Done? }

  /** After __state = TASK_WAKING and before the task is handed to a runqueue or a wake list. */
  predicate Owes(pc: WPc) { pc.WakingSet? || pc.Offload? || pc.Spin? || pc.Select? || pc.Target? }

  /** Not yet past the point where it turns a sleeping task into a running or waking one. */
  predicate InFlight(pc: WPc) {
    (pc.Armed? || pc.SelfMatched? || pc.HavePi? || pc.Matched? || pc.RqWait? || pc.MustEnqueue?)
    && NORMAL <= pc.mask
  }

  predicate SleptPhase(p: Phase) {
    p.Zeroed? || (p.Picking? && p.slept) || (p.Switching? && p.slept)
  }

  predicate VoluntaryPhase(p: Phase) {
    SleptPhase(p) || (p.Locked? && !p.preempt) || (p.Loaded? && !p.preempt)
  }

  predicate PiOwes(s: State) {
    s.pi.Some? && s.pi.value in s.wakers && Owes(s.wakers[s.pi.value])
  }

  /** The task has found its condition false and will not look again before it runs. */
  predicate Committed(s: State) { s.prog == TestedFalse || s.prog == InSchedule }

  ghost predicate EnqInv(s: State) {
    s.enq == if s.onRq == Queued || At(s, s.cpu, Zeroed) then [s.cpu] else []
  }

  ghost predicate TokenInv(s: State) {
    && (s.wakelist == [] || s.wakelist == [s.cpu])
    && (s.st == WAKING <==> PiOwes(s) || s.wakelist != [])
    && !(PiOwes(s) && s.wakelist != [])
  }

  ghost predicate StateInv(s: State) {
    && (s.onRq == Off ==> s.prog == InSchedule && s.st != RUNNING)
    && (s.st == WAKING ==> s.onRq == Off)
    && (s.st.Sleeping? ==> SleepBits(s.st.bits))
  }

  ghost predicate CpuInv(s: State) {
    && s.cpus.Keys == (if s.onCpu then {s.cpu} else {})
    && (s.onCpu ==> s.cpu !in s.tail)
    && (s.onCpu ==>
          var p := s.cpus[s.cpu];
          && s.onRq == (if SleptPhase(p) then Off else Queued)
          && (p.Loaded? ==> p.prev == s.st)
          && (VoluntaryPhase(p) ==> s.prog == InSchedule)
          && (p.Irq? ==> p.w in s.wakers && s.wakers[p.w].SelfMatched?))
  }

  ghost predicate WakerInv(s: State, w: WakerId, pc: WPc) {
    && (HoldsPi(pc) <==> s.pi == Some(w))
    && (pc.SelfMatched? ==> At(s, pc.cpu, Irq(w)))
    && (pc.Matched? || pc.RqWait? || pc.MustEnqueue? ==> s.st != WAKING)
    && (pc.MustEnqueue? ==> s.onRq == Off)
    && (pc.Offload? ==> pc.cpu == s.cpu)
    && (pc.Select? ==> !s.onCpu)
    && (pc.Target? ==> !s.onCpu && pc.cpu == s.cpu)
  }

  ghost predicate WakersInv(s: State) {
    && (forall w :: w in s.wakers ==> WakerInv(s, w, s.wakers[w]))
    && (s.pi.Some? ==> s.pi.value in s.wakers)
  }

  /** A committed sleeper whose condition is already true still has a waker to come. */
  ghost predicate NotLost(s: State) {
    Committed(s) && s.cond && s.st.Sleeping? ==> exists w :: w in s.wakers && InFlight(s.wakers[w])
  }

  ghost predicate SafeInv(s: State) {
    EnqInv(s) && TokenInv(s) && StateInv(s) && CpuInv(s) && WakersInv(s)
  }

  ghost predicate Inv(s: State) { SafeInv(s) && NotLost(s) }

  // ---------------------------------------------------------------- every step keeps it

  lemma TaskStep(s: State, c: Cpu, t: TaskAct)
    requires Inv(s) && TaskEnabled(s, c, t)
    ensures Inv(TaskApply(s, c, t))
  {
    assert PiOwes(TaskApply(s, c, t)) == PiOwes(s);
  }

  lemma DecideStep(s: State, c: Cpu)
    requires Inv(s) && SchedEnabled(s, c, Decide)
    ensures SafeInv(SchedApply(s, c, Decide))
  {
    var t := SchedApply(s, c, Decide);
    assert s.cpus[c].prev == s.st && s.st != WAKING;
    assert t.cpus.Keys == s.cpus.Keys;
    assert PiOwes(t) == PiOwes(s);
    assert EnqInv(t);
    assert TokenInv(t) && StateInv(t);
    assert CpuInv(t);
  }

  lemma LeaveStep(s: State, c: Cpu, k: SchedAct)
    requires Inv(s) && SchedEnabled(s, c, k) && (k.Preempt? || k.LoadState?)
    ensures SafeInv(SchedApply(s, c, k))
  {
    var t := SchedApply(s, c, k);
    assert t.cpus.Keys == s.cpus.Keys;
    assert PiOwes(t) == PiOwes(s);
    assert EnqInv(t);
    assert TokenInv(t);
  }

  lemma DequeueStep(s: State, c: Cpu)
    requires Inv(s) && SchedEnabled(s, c, Dequeue)
    ensures SafeInv(SchedApply(s, c, Dequeue))
  {
    assert PiOwes(SchedApply(s, c, Dequeue)) == PiOwes(s);
  }

  lemma LockStep(s: State, c: Cpu, k: SchedAct)
    requires Inv(s) && SchedEnabled(s, c, k) && (k.DropLock? || k.RetakeLock?)
    ensures SafeInv(SchedApply(s, c, k))
  {
    var t := SchedApply(s, c, k);
    assert t.cpus.Keys == s.cpus.Keys;
    assert PiOwes(t) == PiOwes(s);
    assert EnqInv(t);
    assert TokenInv(t);
  }

  lemma PickStep(s: State, c: Cpu, k: SchedAct)
    requires Inv(s) && SchedEnabled(s, c, k) && (k.PickSelf? || k.PickOther? || k.TailUnlock?)
    ensures SafeInv(SchedApply(s, c, k))
  {
    var t := SchedApply(s, c, k);
    assert t.cpus.Keys == s.cpus.Keys;
    assert PiOwes(t) == PiOwes(s);
    assert EnqInv(t);
    assert TokenInv(t);
  }

  lemma SwitchStep(s: State, c: Cpu, k: SchedAct)
    requires Inv(s) && SchedEnabled(s, c, k) && (k.FinishTask? || k.SwitchIn?)
    ensures SafeInv(SchedApply(s, c, k))
  {
    var t := SchedApply(s, c, k);
    assert PiOwes(t) == PiOwes(s);
    assert EnqInv(t);
    assert TokenInv(t);
    assert CpuInv(t);
  }

  lemma SchedStep(s: State, c: Cpu, k: SchedAct)
    requires Inv(s) && SchedEnabled(s, c, k)
    ensures Inv(SchedApply(s, c, k))
  {
    match k
    case Decide => DecideStep(s, c);
    case Preempt | LoadState => LeaveStep(s, c, k);
    case Dequeue => DequeueStep(s, c);
    case DropLock | RetakeLock => LockStep(s, c, k);
    case PickSelf | PickOther | TailUnlock => PickStep(s, c, k);
    case FinishTask | SwitchIn => SwitchStep(s, c, k);
  }

  lemma MoveOutStep(s: State, a: Action)
    requires Inv(s) && a.MoveOut? && Enabled(s, a)
    ensures Inv(Apply(s, a))
  {
    assert PiOwes(Apply(s, a)) == PiOwes(s);
  }

  lemma MoveInStep(s: State, a: Action)
    requires Inv(s) && a.MoveIn? && Enabled(s, a)
    ensures Inv(Apply(s, a))
  {
    assert PiOwes(Apply(s, a)) == PiOwes(s);
  }

  lemma IpiStep(s: State, a: Action)
    requires Inv(s) && a.Ipi? && Enabled(s, a)
    ensures Inv(Apply(s, a))
  {
    assert PiOwes(Apply(s, a)) == PiOwes(s);
  }

  lemma ArmStep(s: State, w: WakerId, a: WakeAct)
    requires Inv(s) && a.Arm? && WakeEnabled(s, w, a)
    ensures SafeInv(WakeApply(s, w, a))
  {
  }

  lemma SelfTestStep(s: State, w: WakerId, a: WakeAct)
    requires Inv(s) && a.SelfTest? && WakeEnabled(s, w, a)
    ensures SafeInv(WakeApply(s, w, a))
  {
    var t := WakeApply(s, w, a);
    assert s.onRq == Queued && s.pi != Some(w);
    assert t.cpus.Keys == s.cpus.Keys;
    assert PiOwes(t) == PiOwes(s);
    assert EnqInv(t);
    assert TokenInv(t);
  }

  lemma SelfSetStep(s: State, w: WakerId, a: WakeAct)
    requires Inv(s) && a.SelfSet? && WakeEnabled(s, w, a)
    ensures SafeInv(WakeApply(s, w, a))
  {
    var t := WakeApply(s, w, a);
    assert s.onRq == Queued && s.pi != Some(w);
    assert t.cpus.Keys == s.cpus.Keys;
    assert PiOwes(t) == PiOwes(s);
    assert EnqInv(t);
    assert TokenInv(t);
  }

  lemma LockPiStep(s: State, w: WakerId, a: WakeAct)
    requires Inv(s) && a.LockPi? && WakeEnabled(s, w, a)
    ensures SafeInv(WakeApply(s, w, a))
  {
  }

  lemma TestStateStep(s: State, w: WakerId, a: WakeAct)
    requires Inv(s) && a.TestState? && WakeEnabled(s, w, a)
    ensures SafeInv(WakeApply(s, w, a))
  {
  }

  lemma LoadOnRqStep(s: State, w: WakerId, a: WakeAct)
    requires Inv(s) && a.LoadOnRq? && WakeEnabled(s, w, a)
    ensures SafeInv(WakeApply(s, w, a))
  {
  }

  lemma TtwuRunnableStep(s: State, w: WakerId, a: WakeAct)
    requires Inv(s) && a.TtwuRunnable? && WakeEnabled(s, w, a) && s.onRq == Queued
    ensures SafeInv(WakeApply(s, w, a))
  {
  }

  lemma TtwuNotRunnableStep(s: State, w: WakerId, a: WakeAct)
    requires Inv(s) && a.TtwuRunnable? && WakeEnabled(s, w, a) && s.onRq != Queued
    ensures SafeInv(WakeApply(s, w, a))
  {
  }

  lemma SetWakingStep(s: State, w: WakerId, a: WakeAct)
    requires Inv(s) && a.SetWaking? && WakeEnabled(s, w, a)
    ensures SafeInv(WakeApply(s, w, a))
  {
  }

  lemma LoadOnCpuStep(s: State, w: WakerId, a: WakeAct)
    requires Inv(s) && a.LoadOnCpu? && WakeEnabled(s, w, a)
    ensures SafeInv(WakeApply(s, w, a))
  {
  }

  lemma QueueOffloadStep(s: State, w: WakerId, a: WakeAct)
    requires Inv(s) && a.QueueOffload? && WakeEnabled(s, w, a)
    ensures SafeInv(WakeApply(s, w, a))
  {
  }

  lemma SpinDoneStep(s: State, w: WakerId, a: WakeAct)
    requires Inv(s) && a.SpinDone? && WakeEnabled(s, w, a)
    ensures SafeInv(WakeApply(s, w, a))
  {
  }

  lemma SelectCpuStep(s: State, w: WakerId, a: WakeAct)
    requires Inv(s) && a.SelectCpu? && WakeEnabled(s, w, a)
    ensures SafeInv(WakeApply(s, w, a))
  {
  }

  lemma QueueRemoteStep(s: State, w: WakerId, a: WakeAct)
    requires Inv(s) && a.QueueRemote? && WakeEnabled(s, w, a)
    ensures SafeInv(WakeApply(s, w, a))
  {
  }

  lemma QueueLocalStep(s: State, w: WakerId, a: WakeAct)
    requires Inv(s) && a.QueueLocal? && WakeEnabled(s, w, a)
    ensures SafeInv(WakeApply(s, w, a))
  {
  }

  lemma UnlockPiStep(s: State, w: WakerId, a: WakeAct)
    requires Inv(s) && a.UnlockPi? && WakeEnabled(s, w, a)
    ensures SafeInv(WakeApply(s, w, a))
  {
  }

  /** No step of a waker ends the last chance of a committed sleeper whose condition is true. */
  lemma WakeKeepsNotLost(s: State, w: WakerId, a: WakeAct)
    requires Inv(s) && WakeEnabled(s, w, a)
    ensures NotLost(WakeApply(s, w, a))
  {
    var t := WakeApply(s, w, a);
    if Committed(t) && t.cond && t.st.Sleeping? {
      if s.cond {
        var v :| v in s.wakers && InFlight(s.wakers[v]);
        if v == w {
          assert NORMAL * s.st.bits <= s.wakers[w].mask * s.st.bits;
          assert w in t.wakers && InFlight(t.wakers[w]);
        } else {
          assert v in t.wakers && InFlight(t.wakers[v]);
        }
      } else {
        assert w in t.wakers && InFlight(t.wakers[w]);
      }
    }
  }

  lemma WakeStep(s: State, w: WakerId, a: WakeAct)
    requires Inv(s) && WakeEnabled(s, w, a)
    ensures Inv(WakeApply(s, w, a))
  {
    WakeKeepsNotLost(s, w, a);
    match a
    case Arm(_, _) => ArmStep(s, w, a);
    case SelfTest(_) => SelfTestStep(s, w, a);
    case SelfSet => SelfSetStep(s, w, a);
    case LockPi => LockPiStep(s, w, a);
    case TestState => TestStateStep(s, w, a);
    case LoadOnRq => LoadOnRqStep(s, w, a);
    case TtwuRunnable =>
      if s.onRq == Queued { TtwuRunnableStep(s, w, a); } else { TtwuNotRunnableStep(s, w, a); }
    case SetWaking => SetWakingStep(s, w, a);
    case LoadOnCpu(_) => LoadOnCpuStep(s, w, a);
    case QueueOffload => QueueOffloadStep(s, w, a);
    case SpinDone => SpinDoneStep(s, w, a);
    case SelectCpu(_) => SelectCpuStep(s, w, a);
    case QueueRemote => QueueRemoteStep(s, w, a);
    case QueueLocal => QueueLocalStep(s, w, a);
    case UnlockPi => UnlockPiStep(s, w, a);
  }

  lemma StepInv(s: State, a: Action)
    requires Inv(s) && Enabled(s, a)
    ensures Inv(Apply(s, a))
  {
    match a
    case Task(c, t) => TaskStep(s, c, t);
    case Sched(c, k) => SchedStep(s, c, k);
    case Wake(w, k) => WakeStep(s, w, k);
    case MoveOut(_) => MoveOutStep(s, a);
    case MoveIn => MoveInStep(s, a);
    case Ipi(_) => IpiStep(s, a);
  }

  lemma {:induction false} RunInv(s: State, acts: seq<Action>, ss: seq<State>, i: nat)
    requires Inv(s) && IsRun(s, acts, ss) && i < |ss|
    ensures Inv(ss[i])
  {
    if i > 0 {
      RunInv(s, acts, ss, i - 1);
      StepInv(ss[i - 1], acts[i - 1]);
    }
  }

  // ---------------------------------------------------------------- what it means for a run

  /** In every state of every run the task is linked into at most one runqueue, once, is on at
      most one wake list, once, and is current on or being switched away from at most one CPU,
      which is the one on_cpu and task_cpu() describe. */
  lemma OneRunqueueOneCpu(c0: Cpu, acts: seq<Action>, ss: seq<State>, i: nat)
    requires IsRun(Init(c0), acts, ss) && i < |ss|
    ensures |ss[i].enq| <= 1 && |ss[i].wakelist| <= 1 && |ss[i].cpus| <= 1
    ensures ss[i].onCpu <==> ss[i].cpus.Keys == {ss[i].cpu}
    ensures ss[i].onCpu || ss[i].cpus == map[]
    ensures forall c :: c in ss[i].enq ==> c == ss[i].cpu
  {
    RunInv(Init(c0), acts, ss, i);
    assert |ss[i].cpus| == |ss[i].cpus.Keys|;
  }

  predicate Enqueues(a: Action) { a.Ipi? || (a.Wake? && a.a.QueueLocal?) || a.MoveIn? }

  /** Whatever enqueues the task finds it on no runqueue; a wakeup that enqueues also finds it
      running nowhere, so neither warning in sched_ttwu_pending() can fire. */
  lemma EnqueueFindsItOff(c0: Cpu, acts: seq<Action>, ss: seq<State>, i: nat)
    requires IsRun(Init(c0), acts, ss) && i < |acts| && Enqueues(acts[i])
    ensures ss[i].enq == [] && !ss[i].onCpu && ss[i].cpus == map[]
    ensures !acts[i].MoveIn? ==> ss[i].onRq == Off && ss[i].st == WAKING
    ensures acts[i].Ipi? ==> ss[i].cpu == acts[i].c
  {
    RunInv(Init(c0), acts, ss, i);
    var s := ss[i];
    assert s.onCpu ==> s.cpu in s.cpus;
    if acts[i].Ipi? {
      assert s.wakelist == [s.cpu];
    }
  }

  /** While the task is in the wake machinery no second waker can pass the state test. */
  lemma OneWakerEnqueues(c0: Cpu, acts: seq<Action>, ss: seq<State>, i: nat, v: WakerId, w: WakerId)
    requires IsRun(Init(c0), acts, ss) && i < |ss| && v in ss[i].wakers && w in ss[i].wakers
    requires Owes(ss[i].wakers[v])
    ensures ss[i].wakelist == []
    ensures w != v ==> !Owes(ss[i].wakers[w]) && !ss[i].wakers[w].MustEnqueue?
  {
    RunInv(Init(c0), acts, ss, i);
    assert WakerInv(ss[i], v, ss[i].wakers[v]) && WakerInv(ss[i], w, ss[i].wakers[w]);
  }

  /** No lost wakeup: once the condition is true, all wakers have finished and no wakeup waits on
      a wake list, the task is on a runqueue (or between two of them). */
  lemma NoLostWakeup(c0: Cpu, acts: seq<Action>, ss: seq<State>, i: nat)
    requires IsRun(Init(c0), acts, ss) && i < |ss|
    requires ss[i].cond
    requires forall w :: w in ss[i].wakers ==> ss[i].wakers[w].Done?
    requires ss[i].wakelist == []
    ensures ss[i].onRq != Off
    ensures ss[i].onRq == Queued ==> ss[i].enq == [ss[i].cpu]
  {
    RunInv(Init(c0), acts, ss, i);
  }

  // ---------------------------------------------------------------- the machinery cannot block

  /** Steps that neither start a new waker nor a new __schedule(), nor let the task run. */
  predicate WakeSide(a: Action) {
    match a
    case Task(_, _) => false
    case Sched(_, k) => !k.Preempt? && !k.SwitchIn?
    case MoveOut(_) => false
    case MoveIn => true
    case Ipi(_) => true
    case Wake(_, k) => !k.Arm?
  }

  /** Queueing the wakeup on another CPU's wake list, which ttwu_queue_wakelist() may refuse. */
  predicate Refusable(a: Action) { a.Wake? && (a.a.QueueRemote? || a.a == LoadOnCpu(true)) }

  /** How far the task is from a runqueue: what its waker, the CPU leaving it, and the tail of
      that CPU's context switch still have to do. */
  ghost function Distance(s: State): (d: nat)
  {
    if s.onRq != Off then 0
    else 100 * WakerDistance(s) + 10 * CpuDistance(s) + if s.cpu in s.tail then 1 else 0
  }

  ghost function CpuDistance(s: State): (d: nat)
    ensures d <= 4
  {
    if !s.onCpu || s.cpu !in s.cpus then 0
    else match s.cpus[s.cpu]
      case Zeroed => 4
      case Picking(_, false) => 3
      case Picking(_, true) => 2
      case _ => 1
  }

  ghost function WakerDistance(s: State): (d: nat)
    ensures d > 0
  {
    if s.wakelist != [] then 1
    else if s.pi.None? || s.pi.value !in s.wakers then 10
    else match s.wakers[s.pi.value]
      case Target(_) => 2
      case Offload(_) => 2
      case Select => 3
      case Spin => 4
      case WakingSet => 5
      case MustEnqueue(_) => 6
      case RqWait(_) => 7
      case Matched(_) => 8
      case HavePi(mask) => if s.st.Matches(mask) then 9 else 12
      case _ => 11
  }

  /** What the holder of pi_lock does next; it may be refused the remote queue, so it does not use it. */
  function HolderStep(pc: WPc): WakeAct
    requires HoldsPi(pc)
  {
    match pc
    case HavePi(_) => TestState
    case Matched(_) => LoadOnRq
    case RqWait(_) => TtwuRunnable
    case MustEnqueue(_) => SetWaking
    case WakingSet => LoadOnCpu(false)
    case Offload(_) => QueueOffload
    case Spin => SpinDone
    case Select => SelectCpu(0)
    case Target(_) => QueueLocal
    case Release(_) => UnlockPi
  }

  ghost predicate Advances(s: State, a: Action) {
    && WakeSide(a) && !Refusable(a) && Enabled(s, a)
    && var t := Apply(s, a);
       t.onRq == Off ==> t.cond && Distance(t) < Distance(s)
  }

  lemma LeaveAdvances(s: State, k: SchedAct)
    requires Inv(s) && s.onRq == Off && s.cond && SchedEnabled(s, s.cpu, k)
    requires k.Dequeue? || k.PickOther? || k.RetakeLock?
    ensures Advances(s, Sched(s.cpu, k))
  {
  }

  lemma TailAdvances(s: State, k: SchedAct)
    requires Inv(s) && s.onRq == Off && s.cond && SchedEnabled(s, s.cpu, k)
    requires k.FinishTask? || k.TailUnlock?
    ensures Advances(s, Sched(s.cpu, k))
  {
  }

  lemma HolderTests(s: State, w: WakerId)
    requires Inv(s) && s.onRq == Off && s.cond && !s.onCpu && s.wakelist == []
    requires s.pi == Some(w) && s.cpu !in s.tail
    requires var pc := s.wakers[w]; pc.HavePi? || pc.Matched? || pc.RqWait? || pc.MustEnqueue? || pc.Release?
    ensures Advances(s, Wake(w, HolderStep(s.wakers[w])))
  {
    assert WakerInv(s, w, s.wakers[w]);
    var t := WakeApply(s, w, HolderStep(s.wakers[w]));
    assert t.onRq == Off ==> WakerDistance(t) < WakerDistance(s);
  }

  lemma HolderEnqueues(s: State, w: WakerId)
    requires Inv(s) && s.onRq == Off && s.cond && !s.onCpu && s.wakelist == []
    requires s.pi == Some(w) && s.cpu !in s.tail && Owes(s.wakers[w])
    ensures Advances(s, Wake(w, HolderStep(s.wakers[w])))
  {
    assert WakerInv(s, w, s.wakers[w]);
    var t := WakeApply(s, w, HolderStep(s.wakers[w]));
    assert t.onRq == Off ==> WakerDistance(t) < WakerDistance(s);
  }

  lemma HolderAdvances(s: State, w: WakerId)
    requires Inv(s) && s.onRq == Off && s.cond && !s.onCpu && s.wakelist == []
    requires s.pi == Some(w) && s.cpu !in s.tail
    ensures Advances(s, Wake(w, HolderStep(s.wakers[w])))
  {
    assert WakerInv(s, w, s.wakers[w]);
    if Owes(s.wakers[w]) { HolderEnqueues(s, w); } else { HolderTests(s, w); }
  }

  lemma LockAdvances(s: State) returns (w: WakerId)
    requires Inv(s) && s.onRq == Off && s.cond && !s.onCpu && s.wakelist == [] && s.pi.None?
    ensures Advances(s, Wake(w, LockPi))
  {
    w :| w in s.wakers && InFlight(s.wakers[w]);
    assert WakerInv(s, w, s.wakers[w]);
    assert NORMAL * s.st.bits <= s.wakers[w].mask * s.st.bits;
  }

  /** While the task is off the runqueues and its condition is true, some step of the wake side
      is possible and brings it closer, and it is none that can be refused. */
  lemma WakeSideAdvances(s: State) returns (a: Action)
    requires Inv(s) && s.onRq == Off && s.cond
    ensures Advances(s, a)
  {
    if s.onCpu {
      var k := match s.cpus[s.cpu]
        case Zeroed => Dequeue
        case Picking(_, locked) => if locked then PickOther else RetakeLock
        case _ => FinishTask;
      if k.FinishTask? { TailAdvances(s, k); } else { LeaveAdvances(s, k); }
      a := Sched(s.cpu, k);
    } else if s.cpu in s.tail {
      TailAdvances(s, TailUnlock);
      a := Sched(s.cpu, TailUnlock);
    } else if s.wakelist != [] {
      a := Ipi(s.cpu);
    } else if s.pi.Some? {
      HolderAdvances(s, s.pi.value);
      a := Wake(s.pi.value, HolderStep(s.wakers[s.pi.value]));
    } else {
      var w := LockAdvances(s);
      a := Wake(w, LockPi);
    }
  }

  /** From every reachable state with the condition true, the wakers, interrupts and context
      switches already under way can put the task back on a runqueue on their own. */
  lemma {:induction false} WakeupCanComplete(s: State) returns (acts: seq<Action>, ss: seq<State>)
    requires Inv(s) && s.cond
    ensures IsRun(s, acts, ss) && (forall a :: a in acts ==> WakeSide(a) && !Refusable(a))
    ensures ss[|ss| - 1].onRq != Off
    decreases Distance(s)
  {
    if s.onRq != Off {
      return [], [s];
    }
    var a := WakeSideAdvances(s);
    var t := Apply(s, a);
    if t.onRq != Off {
      return [a], [s, t];
    }
    StepInv(s, a);
    var bs, ts := WakeupCanComplete(t);
    RunCons(s, a, bs, ts);
    acts, ss := [a] + bs, [s] + ts;
  }

  /** In no reachable state can a wakeup be stuck: if the condition is true, there is a way on, of steps
      of the wake side alone, that ends with the task on a runqueue. */
  lemma NeverStuck(c0: Cpu, acts: seq<Action>, ss: seq<State>, i: nat)
    requires IsRun(Init(c0), acts, ss) && i < |ss| && ss[i].cond
    ensures exists bs: seq<Action>, ts: seq<State> ::
      && IsRun(ss[i], bs, ts) && (forall a :: a in bs ==> WakeSide(a) && !Refusable(a))
      && ts[|ts| - 1].onRq != Off
  {
    RunInv(Init(c0), acts, ss, i);
    var bs, ts := WakeupCanComplete(ss[i]);
  }

  lemma RunCons(s: State, a: Action, acts: seq<Action>, ss: seq<State>)
    requires Enabled(s, a) && IsRun(Apply(s, a), acts, ss)
    ensures IsRun(s, [a] + acts, [s] + ss)
  {
  }
}
