/** The affinity-change handshake of one task: any number of set_cpus_allowed_ptr() callers,
    the task's own migrate_disable()/migrate_enable(), and one stopper thread per CPU.

    A caller's stack-allocated set_affinity_pending is named by the caller. Each step is one
    section under pi_lock and the runqueue lock, or one action after those locks are dropped
    (queueing a stop work, complete_all(), dropping a reference, returning). No CPU hotplug. */
module Affinity {
  import opened Sequences

  type Cpu = nat
  type Id = nat

  /** Who has to act next on a pending object: queue its stop work, run it, or complete it.
      No step tests this field; it names the agent whose program counter says the same. */
  datatype Duty =
    | Nobody
    | CallerQueues(a: Id) | StopperQueues(c: Cpu) | SelfQueues
    | Linked(c: Cpu) | ToRun(c: Cpu)
    | CallerCompletes(a: Id) | StopperCompletes(c: Cpu) | SelfCompletes
  {
    predicate Stop() { CallerQueues? || StopperQueues? || SelfQueues? || Linked? || ToRun? }
    predicate Completes() { CallerCompletes? || StopperCompletes? || SelfCompletes? }
  }

  /** struct set_affinity_pending; `links` holds one entry for every stopper queue that its
      stop_work is linked into. */
  datatype Pending = Pending(
    refs: int, stopPending: bool, done: bool, dest: Cpu, links: seq<Cpu>, duty: Duty)

  /** A caller inside affine_move_task(), after the locked section. */
  datatype CPc =
    | Queueing(id: Id, cpu: Cpu)
    | Completing(id: Id, waits: bool)
    | Waiting(id: Id)
    | OwnerWait
    | Returned(ret: int)

  /** A busy stopper in migration_cpu_stop(): past the flush of its wake list, or past the locks:
      about to complete the object, or to queue the stop work where the task is by then. */
  datatype SPc = Flushed(id: Id) | Finishing(id: Id) | Chasing(id: Id) | Idle

  /** The task inside its outermost migrate_enable(), where preemption is disabled. */
  datatype MePc = Outside | MeQueueing(id: Id, cpu: Cpu) | MeCompleting(id: Id) | MeClearing

  /** p->cpus_ptr: the task's own cpus_mask, or the single CPU it was switched out on while
      migration was disabled. */
  datatype Ptr = ToMask | Pinned(c: Cpu)

  datatype State = State(
    cpu: Cpu,
    mask: set<Cpu>,
    ptr: Ptr,
    dis: nat,
    running: bool,
    queued: bool,
    waking: bool,
    me: MePc,
    installed: Option<Id>,
    pend: map<Id, Pending>,
    callers: map<Id, CPc>,
    stoppers: map<Cpu, SPc>)

  const EBUSY: int := -16
  const EINVAL: int := -22

  function CpusPtr(s: State): set<Cpu> { if s.ptr.ToMask? then s.mask else {s.ptr.c} }

  datatype CallAct =
    | Call(mask: set<Cpu>, dest: Cpu, isCurrent: bool)
    | QueueWork
    | Complete
    | PutRef
    | Return

  datatype StopAct = Pop(id: Id) | Decide | FinishStop | Requeue

  datatype TaskAct =
    | Block | SwitchOut | SwitchIn | WakeOnCpu | WakeLocal(c: Cpu) | WakeRemote(c: Cpu) | Ipi
    | Balance(c: Cpu) | MigrateDisable | MigrateEnable | MeQueue | MeComplete | MeClear

  datatype Action = ByCaller(a: Id, k: CallAct) | ByStopper(c: Cpu, w: StopAct) | ByTask(t: TaskAct)

  // ---------------------------------------------------------------- callers

  predicate CallEnabled(s: State, a: Id, k: CallAct) {
    if k.Call? then
      && (a in s.callers ==> s.callers[a].Returned?)
      && (k.mask != {} ==> k.dest in k.mask)
      && (k.isCurrent ==> s.running && s.queued && s.me.Outside?)
    else
      a in s.callers && var pc := s.callers[a];
      match k
      case Call(_, _, _) => false
      case QueueWork => pc.Queueing? && pc.id in s.pend
      case Complete => pc.Completing? && pc.id in s.pend
      case PutRef => pc.Waiting? && pc.id in s.pend && s.pend[pc.id].done
      case Return => pc.OwnerWait? && (a in s.pend ==> s.pend[a].refs == 0)
  }

  function ToCPc(s: State, a: Id, pc: CPc): State { s.(callers := s.callers[a := pc]) }
  function SetPend(s: State, id: Id, p: Pending): State { s.(pend := s.pend[id := p]) }

  /** affine_move_task() when the task's CPU is in the new mask. */
  function AlreadyThere(s: State, a: Id): State
    requires s.installed.Some? ==> s.installed.value in s.pend
  {
    if s.installed.Some? && !s.pend[s.installed.value].stopPending then
      var id := s.installed.value;
      ToCPc(SetPend(s, id, s.pend[id].(duty := CallerCompletes(a))), a, Completing(id, false))
        .(installed := None)
    else ToCPc(s, a, Returned(0))
  }

  /** Install the caller's own pending object, or join the installed one and update its target. */
  function Join(s: State, a: Id, dest: Cpu): State
    requires s.installed.Some? ==> s.installed.value in s.pend
  {
    if s.installed.None? then
      SetPend(s, a, Pending(1, false, false, dest, [], Nobody)).(installed := Some(a))
    else
      var p := s.pend[s.installed.value];
      SetPend(s, s.installed.value, p.(refs := p.refs + 1, dest := dest))
  }

  /** affine_move_task() after joining: hand the task to its stopper, or move it here. */
  function Move(s: State, a: Id, dest: Cpu): State
    requires s.installed.Some? && s.installed.value in s.pend
  {
    var id := s.installed.value;
    var p := s.pend[id];
    if s.running || s.waking then
      if !p.stopPending then
        ToCPc(SetPend(s, id, p.(stopPending := true, duty := CallerQueues(a))), a, Queueing(id, s.cpu))
      else ToCPc(s, a, Waiting(id))
    else if s.dis > 0 then ToCPc(s, a, Waiting(id))
    else
      var t := if s.queued then s.(cpu := dest) else s;
      if !p.stopPending then
        ToCPc(SetPend(t, id, p.(duty := CallerCompletes(a))), a, Completing(id, true)).(installed := None)
      else ToCPc(t, a, Waiting(id))
  }

  /** __set_cpus_allowed_ptr() without SCA_MIGRATE_ENABLE, up to the unlock. */
  function SetAllowed(s: State, a: Id, mask: set<Cpu>, dest: Cpu, isCurrent: bool): State
    requires s.installed.Some? ==> s.installed.value in s.pend
  {
    if s.mask == mask then ToCPc(s, a, Returned(0))
    else if isCurrent && s.dis > 0 && s.cpu !in mask then ToCPc(s, a, Returned(EBUSY))
    else if mask == {} then ToCPc(s, a, Returned(EINVAL))
    else
      var t := s.(mask := mask);
      if s.cpu in mask then AlreadyThere(t, a) else Move(Join(t, a, dest), a, dest)
  }

  function CallApply(s: State, a: Id, k: CallAct): State
    requires CallEnabled(s, a, k)
    requires s.installed.Some? ==> s.installed.value in s.pend
  {
    match k
    case Call(mask, dest, isCurrent) => SetAllowed(s, a, mask, dest, isCurrent)
    case QueueWork =>
      var pc := s.callers[a];
      ToCPc(SetPend(s, pc.id, Link(s.pend[pc.id], pc.cpu)), a, Waiting(pc.id))
    case Complete =>
      var pc := s.callers[a];
      ToCPc(SetPend(s, pc.id, Finish(s.pend[pc.id])), a, if pc.waits then Waiting(pc.id) else Returned(0))
    case PutRef =>
      var id := s.callers[a].id;
      ToCPc(SetPend(s, id, s.pend[id].(refs := s.pend[id].refs - 1)), a, OwnerWait)
    case Return => ToCPc(s, a, Returned(0)).(pend := s.pend - {a})
  }

  /** stop_one_cpu_nowait(cpu, ...) */
  function Link(p: Pending, cpu: Cpu): Pending { p.(links := p.links + [cpu], duty := Linked(cpu)) }

  /** complete_all(&pending->done) */
  function Finish(p: Pending): Pending { p.(done := true, duty := Nobody) }

  // ---------------------------------------------------------------- stoppers

  function Unlink(xs: seq<Cpu>, c: Cpu): seq<Cpu> {
    if xs == [] then [] else if xs[0] == c then xs[1..] else [xs[0]] + Unlink(xs[1..], c)
  }

  /** While a stopper runs on c the task does not. */
  predicate StopEnabled(s: State, c: Cpu, w: StopAct) {
    match w
    case Pop(id) =>
      (c in s.stoppers ==> s.stoppers[c].Idle?) && id in s.pend && c in s.pend[id].links
      && !(s.running && s.cpu == c)
    case Decide => c in s.stoppers && s.stoppers[c].Flushed? && s.stoppers[c].id in s.pend
    case FinishStop => c in s.stoppers && s.stoppers[c].Finishing? && s.stoppers[c].id in s.pend
    case Requeue => c in s.stoppers && s.stoppers[c].Chasing? && s.stoppers[c].id in s.pend
  }

  function ToSPc(s: State, c: Cpu, pc: SPc): State { s.(stoppers := s.stoppers[c := pc]) }

  /** The locked section of migration_cpu_stop() on CPU c for the pending object id. */
  function MigrationCpuStop(s: State, c: Cpu, id: Id): State
    requires id in s.pend
  {
    var p := s.pend[id];
    var completing := ToSPc(SetPend(s, id, p.(stopPending := false, duty := StopperCompletes(c))), c,
                            Finishing(id)).(installed := None);
    if s.cpu == c then
      if s.dis > 0 then ToSPc(SetPend(s, id, p.(stopPending := false, duty := Nobody)), c, Idle)
      else if s.cpu in s.mask then completing
      else if s.queued && p.dest in CpusPtr(s) then completing.(cpu := p.dest)
      else completing
    else if s.cpu in CpusPtr(s) then completing
    else ToSPc(SetPend(s, id, p.(duty := StopperQueues(c))), c, Chasing(id))
  }

  function StopApply(s: State, c: Cpu, w: StopAct): State
    requires StopEnabled(s, c, w)
  {
    match w
    case Pop(id) =>
      var p := s.pend[id];
      var t := ToSPc(SetPend(s, id, p.(links := Unlink(p.links, c), duty := ToRun(c))), c, Flushed(id));
      if s.waking && s.cpu == c then t.(waking := false, queued := true) else t
    case Decide => MigrationCpuStop(s, c, s.stoppers[c].id)
    case FinishStop => ToSPc(SetPend(s, s.stoppers[c].id, Finish(s.pend[s.stoppers[c].id])), c, Idle)
    case Requeue =>
      var pc := s.stoppers[c];
      ToSPc(SetPend(s, pc.id, Link(s.pend[pc.id], s.cpu)), c, Idle)
  }

  // ---------------------------------------------------------------- the task

  predicate StopperBusy(s: State, c: Cpu) { c in s.stoppers && !s.stoppers[c].Idle? }

  predicate TaskEnabled(s: State, t: TaskAct) {
    match t
    case Block => s.running && s.queued && s.me.Outside?
    case SwitchOut => s.running && s.me.Outside?
    case SwitchIn => !s.running && s.queued && !StopperBusy(s, s.cpu)
    case WakeOnCpu => s.running && !s.queued && !s.waking && s.cpu in CpusPtr(s)
    case WakeLocal(c) => !s.running && !s.queued && !s.waking && c in CpusPtr(s)
    case WakeRemote(c) => !s.running && !s.queued && !s.waking && c in CpusPtr(s)
    case Ipi => s.waking && !s.running && !(s.cpu in s.stoppers && s.stoppers[s.cpu].Flushed?)
    case Balance(c) => !s.running && s.queued && c in CpusPtr(s)
    case MigrateDisable => s.running && s.queued && s.me.Outside?
    case MigrateEnable => s.running && s.queued && s.me.Outside? && s.dis > 0
    case MeQueue => s.me.MeQueueing? && s.me.id in s.pend
    case MeComplete => s.me.MeCompleting? && s.me.id in s.pend
    case MeClear => s.me.MeClearing?
  }

  /** affine_move_task() with SCA_MIGRATE_ENABLE, after cpus_ptr points at cpus_mask again. */
  function EnableMove(s: State): State
    requires s.installed.Some? ==> s.installed.value in s.pend
  {
    if s.installed.None? then s.(me := MeClearing)
    else
      var id := s.installed.value;
      var p := s.pend[id];
      if p.stopPending then s.(me := MeClearing)
      else if s.cpu in s.mask then
        SetPend(s, id, p.(duty := SelfCompletes)).(installed := None, me := MeCompleting(id))
      else
        SetPend(s, id, p.(stopPending := true, duty := SelfQueues)).(me := MeQueueing(id, s.cpu))
  }

  function TaskApply(s: State, t: TaskAct): State
    requires TaskEnabled(s, t)
    requires s.installed.Some? ==> s.installed.value in s.pend
  {
    match t
    case Block => s.(queued := false)
    case SwitchOut => s.(running := false, ptr := if s.dis > 0 && s.ptr.ToMask? then Pinned(s.cpu) else s.ptr)
    case SwitchIn => s.(running := true)
    case WakeOnCpu => s.(waking := true)
    case WakeLocal(c) => s.(cpu := c, queued := true)
    case WakeRemote(c) => s.(cpu := c, waking := true)
    case Ipi => s.(waking := false, queued := true)
    case Balance(c) => s.(cpu := c)
    case MigrateDisable => s.(dis := s.dis + 1)
    case MigrateEnable =>
      if s.dis > 1 then s.(dis := s.dis - 1)
      else if s.ptr.Pinned? then EnableMove(s.(ptr := ToMask))
      else s.(me := MeClearing)
    case MeQueue => SetPend(s, s.me.id, Link(s.pend[s.me.id], s.me.cpu)).(me := MeClearing)
    case MeComplete => SetPend(s, s.me.id, Finish(s.pend[s.me.id])).(me := MeClearing)
    case MeClear => s.(dis := 0, me := Outside)
  }

  predicate Enabled(s: State, a: Action) {
    match a
    case ByCaller(c, k) => CallEnabled(s, c, k)
    case ByStopper(c, w) => StopEnabled(s, c, w)
    case ByTask(t) => TaskEnabled(s, t)
  }

  function Apply(s: State, a: Action): State
    requires Enabled(s, a)
    requires s.installed.Some? ==> s.installed.value in s.pend
  {
    match a
    case ByCaller(c, k) => CallApply(s, c, k)
    case ByStopper(c, w) => StopApply(s, c, w)
    case ByTask(t) => TaskApply(s, t)
  }

  /** A task running on c0, with no affinity change under way. */
  predicate Init(s: State) {
    && s.cpu in s.mask && s.ptr.ToMask? && s.dis == 0
    && s.running && s.queued && !s.waking && s.me.Outside?
    && s.installed.None? && s.pend == map[] && s.callers == map[] && s.stoppers == map[]
  }

  // ---------------------------------------------------------------- the inductive invariant

  predicate Joins(pc: CPc, id: Id) {
    (pc.Queueing? && pc.id == id) || (pc.Completing? && pc.id == id && pc.waits) || (pc.Waiting? && pc.id == id)
  }

  ghost function Participants(s: State, id: Id): set<Id> {
    set a | a in s.callers && Joins(s.callers[a], id)
  }

  /** An object is installed and idle, installed with one stop work in hand, uninstalled with
      one agent about to complete it, or done. */
  ghost predicate ObjectInv(s: State, id: Id, p: Pending) {
    && (p.stopPending <==> p.duty.Stop())
    && (p.stopPending ==> s.installed == Some(id))
    && (s.installed == Some(id) ==> !p.done && !p.duty.Completes())
    && (p.duty.Completes() ==> !p.done)
    && (s.installed != Some(id) ==> p.done || p.duty.Completes())
    && p.links == (if p.duty.Linked? then [p.duty.c] else [])
    && p.refs == |Participants(s, id)|
    && id in s.callers && (Joins(s.callers[id], id) || (s.callers[id].OwnerWait? && p.done))
  }

  ghost predicate DutyInv(s: State, id: Id, p: Pending) {
    match p.duty
    case Nobody => true
    case Linked(c) => true
    case ToRun(c) => c in s.stoppers && s.stoppers[c].Flushed? && s.stoppers[c].id == id
    case CallerQueues(a) => a in s.callers && s.callers[a].Queueing? && s.callers[a].id == id
    case StopperQueues(c) => c in s.stoppers && s.stoppers[c].Chasing? && s.stoppers[c].id == id
    case SelfQueues => s.me.MeQueueing? && s.me.id == id
    case CallerCompletes(a) => a in s.callers && s.callers[a].Completing? && s.callers[a].id == id
    case StopperCompletes(c) => c in s.stoppers && s.stoppers[c].Finishing? && s.stoppers[c].id == id
    case SelfCompletes => s.me.MeCompleting? && s.me.id == id
  }

  ghost predicate CallerInv(s: State, a: Id, pc: CPc) {
    match pc
    case Queueing(id, _) => id in s.pend && s.pend[id].duty.CallerQueues? && s.pend[id].duty.a == a
    case Completing(id, _) => id in s.pend && s.pend[id].duty.CallerCompletes? && s.pend[id].duty.a == a
    case Waiting(id) => id in s.pend
    case OwnerWait => true
    case Returned(_) => a !in s.pend
  }

  ghost predicate StopperInv(s: State, c: Cpu, pc: SPc) {
    match pc
    case Flushed(id) =>
      id in s.pend && s.pend[id].duty.ToRun? && s.pend[id].duty.c == c && !(s.running && s.cpu == c)
    case Finishing(id) => id in s.pend && s.pend[id].duty.StopperCompletes? && s.pend[id].duty.c == c
    case Chasing(id) => id in s.pend && s.pend[id].duty.StopperQueues? && s.pend[id].duty.c == c
    case Idle => true
  }

  ghost predicate TaskInv(s: State) {
    && s.mask != {}
    && !(s.waking && s.queued)
    && (!s.me.Outside? ==> s.running && s.queued && s.dis == 1 && s.ptr.ToMask?)
    && (s.ptr.Pinned? ==> s.ptr.c == s.cpu && s.dis > 0)
    && (s.dis > 0 && !s.running ==> s.ptr.Pinned?)
    && (s.me.MeQueueing? ==> s.me.id in s.pend && s.pend[s.me.id].duty.SelfQueues?)
    && (s.me.MeCompleting? ==> s.me.id in s.pend && s.pend[s.me.id].duty.SelfCompletes?)
  }

  /** What makes the handshake reach its end at an allowed CPU. */
  ghost predicate TargetInv(s: State) {
    s.installed.Some? ==>
      && s.installed.value in s.pend
      && var p := s.pend[s.installed.value];
         && (s.cpu !in s.mask ==> p.dest in s.mask)
         && (!p.stopPending ==> s.ptr.Pinned?)
  }

  ghost predicate ObjectsInv(s: State) {
    forall id :: id in s.pend ==> ObjectInv(s, id, s.pend[id]) && DutyInv(s, id, s.pend[id])
  }

  ghost predicate AgentsInv(s: State) {
    && (forall a :: a in s.callers ==> CallerInv(s, a, s.callers[a]))
    && (forall c :: c in s.stoppers ==> StopperInv(s, c, s.stoppers[c]))
  }

  ghost predicate Inv(s: State) { TaskInv(s) && TargetInv(s) && ObjectsInv(s) && AgentsInv(s) }

  // ---------------------------------------------------------------- every step keeps it

  datatype Who = Caller(a: Id) | Stopper(c: Cpu) | Self

  /** From s to t only `who` moves, and only the object o (if any) changes. */
  ghost predicate Local(s: State, t: State, o: Option<Id>, who: Who) {
    && (if who.Caller? then who.a in t.callers && t.callers == s.callers[who.a := t.callers[who.a]]
        else t.callers == s.callers)
    && (if who.Stopper? then who.c in t.stoppers && t.stoppers == s.stoppers[who.c := t.stoppers[who.c]]
        else t.stoppers == s.stoppers)
    && (!who.Self? ==> t.me == s.me)
    && (if o.None? then t.pend == s.pend
        else if o.value in t.pend then t.pend == s.pend[o.value := t.pend[o.value]]
        else t.pend == s.pend - {o.value})
    && (o.Some? && o.value in t.pend && o.value !in s.pend ==> who == Caller(o.value))
    && (o.Some? && o.value !in t.pend && o.value in s.pend ==>
          s.pend[o.value].done && Participants(s, o.value) == {})
    && (t.installed != s.installed ==> o.Some? && t.installed in {None, o} && s.installed in {None, o})
    && (forall c :: c in s.stoppers && s.stoppers[c].Flushed? ==> t.running && t.cpu == c ==> s.running && s.cpu == c)
  }

  /** `who` is the one to act on the object, or nobody is. */
  predicate MayTouch(d: Duty, who: Who) {
    match d
    case Nobody => true
    case Linked(_) => true
    case CallerQueues(a) => who == Caller(a)
    case CallerCompletes(a) => who == Caller(a)
    case StopperQueues(c) => who == Stopper(c)
    case StopperCompletes(c) => who == Stopper(c)
    case ToRun(c) => who == Stopper(c)
    case SelfQueues => who == Self
    case SelfCompletes => who == Self
  }

  predicate CallerAbout(pc: CPc, o: Option<Id>) {
    pc.OwnerWait? || pc.Returned? || o == Some(pc.id)
  }

  predicate MeAbout(me: MePc, o: Option<Id>) { me.Outside? || me.MeClearing? || o == Some(me.id) }

  /** The agent that moves is concerned with no object but o, before and after. */
  ghost predicate OnlyAbout(s: State, t: State, o: Option<Id>, who: Who) {
    && (o.Some? && o.value in s.pend && o.value in t.pend && t.pend[o.value].duty != s.pend[o.value].duty ==>
          MayTouch(s.pend[o.value].duty, who))
    && (match who
        case Caller(a) =>
          && (a in s.callers ==> CallerAbout(s.callers[a], o))
          && a in t.callers && CallerAbout(t.callers[a], o)
          && (o != Some(a) && a in s.pend ==> a in s.callers && !s.callers[a].OwnerWait?)
        case Stopper(c) => c in s.stoppers ==> s.stoppers[c].Idle? || o == Some(s.stoppers[c].id)
        case Self => MeAbout(s.me, o))
  }

  lemma PartsSame(s: State, t: State, id: Id)
    requires forall a ::
      (a in s.callers && Joins(s.callers[a], id)) <==> (a in t.callers && Joins(t.callers[a], id))
    ensures Participants(t, id) == Participants(s, id)
  {
  }

  /** An object that a local step is not about stays as it is, installed or not, with the same participants. */
  lemma OtherStays(s: State, t: State, o: Option<Id>, who: Who, i: Id)
    requires Local(s, t, o, who) && o != Some(i) && i in t.pend
    ensures i in s.pend && t.pend[i] == s.pend[i] && (t.installed == Some(i) <==> s.installed == Some(i))
  {}

  lemma OtherJoins(s: State, t: State, o: Option<Id>, who: Who, i: Id, a: Id)
    requires Local(s, t, o, who) && OnlyAbout(s, t, o, who) && o != Some(i)
    ensures (a in s.callers && Joins(s.callers[a], i)) <==> (a in t.callers && Joins(t.callers[a], i))
  {}

  lemma OtherOwner(s: State, t: State, o: Option<Id>, who: Who, i: Id)
    requires Local(s, t, o, who) && OnlyAbout(s, t, o, who) && o != Some(i) && i in s.pend && i in s.callers
    ensures i in t.callers && (s.callers[i].OwnerWait? ==> t.callers[i].OwnerWait?)
  {}

  lemma SameObject(s: State, t: State, i: Id)
    requires i in s.pend && i in t.pend && t.pend[i] == s.pend[i] && ObjectInv(s, i, s.pend[i])
    requires t.installed == Some(i) <==> s.installed == Some(i)
    requires Participants(t, i) == Participants(s, i)
    requires i in t.callers && (s.callers[i].OwnerWait? ==> t.callers[i].OwnerWait?)
    requires Joins(s.callers[i], i) ==> Joins(t.callers[i], i)
    ensures ObjectInv(t, i, t.pend[i])
  {}

  lemma OtherObject(s: State, t: State, o: Option<Id>, who: Who, i: Id)
    requires ObjectsInv(s) && Local(s, t, o, who) && OnlyAbout(s, t, o, who)
    requires i in t.pend && o != Some(i)
    ensures ObjectInv(t, i, t.pend[i])
  {
    OtherStays(s, t, o, who, i);
    assert ObjectInv(s, i, s.pend[i]);
    forall a
      ensures (a in s.callers && Joins(s.callers[a], i)) <==> (a in t.callers && Joins(t.callers[a], i))
    {
      OtherJoins(s, t, o, who, i, a);
    }
    PartsSame(s, t, i);
    OtherOwner(s, t, o, who, i);
    SameObject(s, t, i);
  }

  lemma OtherObjects(s: State, t: State, o: Option<Id>, who: Who)
    requires Inv(s) && Local(s, t, o, who) && OnlyAbout(s, t, o, who)
    ensures forall i :: i in t.pend && o != Some(i) ==> ObjectInv(t, i, t.pend[i])
  {
    forall i | i in t.pend && o != Some(i) ensures ObjectInv(t, i, t.pend[i]) {
      OtherObject(s, t, o, who, i);
    }
  }

  /** The agents that are about another object stay where they are: callers, stoppers, the task. */
  lemma OtherCallerStays(s: State, t: State, o: Option<Id>, who: Who, i: Id, a: Id)
    requires Local(s, t, o, who) && OnlyAbout(s, t, o, who) && o != Some(i)
    requires a in s.callers && (s.callers[a].Queueing? || s.callers[a].Completing?) && s.callers[a].id == i
    ensures a in t.callers && t.callers[a] == s.callers[a]
  {}

  lemma OtherStopperStays(s: State, t: State, o: Option<Id>, who: Who, i: Id, c: Cpu)
    requires Local(s, t, o, who) && OnlyAbout(s, t, o, who) && o != Some(i)
    requires c in s.stoppers && !s.stoppers[c].Idle? && s.stoppers[c].id == i
    ensures c in t.stoppers && t.stoppers[c] == s.stoppers[c]
  {}

  lemma OtherTaskStays(s: State, t: State, o: Option<Id>, who: Who, i: Id)
    requires Local(s, t, o, who) && OnlyAbout(s, t, o, who) && o != Some(i)
    requires (s.me.MeQueueing? || s.me.MeCompleting?) && s.me.id == i
    ensures t.me == s.me
  {}

  lemma OtherDuty(s: State, t: State, o: Option<Id>, who: Who, i: Id)
    requires ObjectsInv(s) && Local(s, t, o, who) && OnlyAbout(s, t, o, who)
    requires i in t.pend && o != Some(i)
    ensures DutyInv(t, i, t.pend[i])
  {
    OtherStays(s, t, o, who, i);
    assert DutyInv(s, i, s.pend[i]);
    match s.pend[i].duty
    case CallerQueues(a) => OtherCallerStays(s, t, o, who, i, a);
    case CallerCompletes(a) => OtherCallerStays(s, t, o, who, i, a);
    case ToRun(c) => OtherStopperStays(s, t, o, who, i, c);
    case StopperQueues(c) => OtherStopperStays(s, t, o, who, i, c);
    case StopperCompletes(c) => OtherStopperStays(s, t, o, who, i, c);
    case SelfQueues => OtherTaskStays(s, t, o, who, i);
    case SelfCompletes => OtherTaskStays(s, t, o, who, i);
    case _ =>
  }

  lemma OtherDuties(s: State, t: State, o: Option<Id>, who: Who)
    requires Inv(s) && Local(s, t, o, who) && OnlyAbout(s, t, o, who)
    ensures forall i :: i in t.pend && o != Some(i) ==> DutyInv(t, i, t.pend[i])
  {
    forall i | i in t.pend && o != Some(i) ensures DutyInv(t, i, t.pend[i]) {
      OtherDuty(s, t, o, who, i);
    }
  }

  /** Nobody but the agent on duty takes an object's duty away. */
  lemma DutyStays(s: State, t: State, o: Option<Id>, who: Who, i: Id)
    requires Local(s, t, o, who) && OnlyAbout(s, t, o, who)
    requires i in s.pend && ObjectInv(s, i, s.pend[i]) && !MayTouch(s.pend[i].duty, who)
    ensures i in t.pend && t.pend[i].duty == s.pend[i].duty
  {}

  lemma WaitedForStays(s: State, t: State, o: Option<Id>, who: Who, i: Id, a: Id)
    requires Local(s, t, o, who) && i in s.pend && a in s.callers && Joins(s.callers[a], i)
    ensures i in t.pend
  {
    assert a in Participants(s, i);
  }

  lemma OtherCaller(s: State, t: State, o: Option<Id>, who: Who, b: Id)
    requires ObjectsInv(s) && AgentsInv(s) && Local(s, t, o, who) && OnlyAbout(s, t, o, who)
    requires b in t.callers && who != Caller(b)
    ensures CallerInv(t, b, t.callers[b])
  {
    var pc := s.callers[b];
    assert CallerInv(s, b, pc) && t.callers[b] == pc;
    if pc.Queueing? || pc.Completing? {
      assert ObjectInv(s, pc.id, s.pend[pc.id]);
      DutyStays(s, t, o, who, pc.id);
    } else if pc.Waiting? {
      WaitedForStays(s, t, o, who, pc.id, b);
    }
  }

  lemma OtherCallers(s: State, t: State, o: Option<Id>, who: Who)
    requires Inv(s) && Local(s, t, o, who) && OnlyAbout(s, t, o, who)
    ensures forall b :: b in t.callers && who != Caller(b) ==> CallerInv(t, b, t.callers[b])
  {
    forall b | b in t.callers && who != Caller(b) ensures CallerInv(t, b, t.callers[b]) {
      OtherCaller(s, t, o, who, b);
    }
  }

  lemma OtherStopper(s: State, t: State, o: Option<Id>, who: Who, c: Cpu)
    requires ObjectsInv(s) && AgentsInv(s) && Local(s, t, o, who) && OnlyAbout(s, t, o, who)
    requires c in t.stoppers && who != Stopper(c)
    ensures StopperInv(t, c, t.stoppers[c])
  {
    var pc := s.stoppers[c];
    assert StopperInv(s, c, pc) && t.stoppers[c] == pc;
    if !pc.Idle? {
      assert ObjectInv(s, pc.id, s.pend[pc.id]);
      DutyStays(s, t, o, who, pc.id);
    }
  }

  lemma OtherStoppers(s: State, t: State, o: Option<Id>, who: Who)
    requires Inv(s) && Local(s, t, o, who) && OnlyAbout(s, t, o, who)
    ensures forall c :: c in t.stoppers && who != Stopper(c) ==> StopperInv(t, c, t.stoppers[c])
  {
    forall c | c in t.stoppers && who != Stopper(c) ensures StopperInv(t, c, t.stoppers[c]) {
      OtherStopper(s, t, o, who, c);
    }
  }

  /** A local step keeps the invariant if it keeps it for the object and the agent it is about. */
  lemma Frame(s: State, t: State, o: Option<Id>, who: Who)
    requires Inv(s) && Local(s, t, o, who) && OnlyAbout(s, t, o, who)
    requires TaskInv(t) && TargetInv(t)
    requires o.Some? && o.value in t.pend ==>
      ObjectInv(t, o.value, t.pend[o.value]) && DutyInv(t, o.value, t.pend[o.value])
    requires who.Caller? ==> CallerInv(t, who.a, t.callers[who.a])
    requires who.Stopper? ==> StopperInv(t, who.c, t.stoppers[who.c])
    ensures Inv(t)
  {
    OtherObjects(s, t, o, who);
    OtherDuties(s, t, o, who);
    OtherCallers(s, t, o, who);
    OtherStoppers(s, t, o, who);
  }

  lemma PartsAdd(s: State, t: State, id: Id, a: Id)
    requires a in t.callers && t.callers == s.callers[a := t.callers[a]] && Joins(t.callers[a], id)
    requires a in s.callers ==> !Joins(s.callers[a], id)
    ensures |Participants(t, id)| == |Participants(s, id)| + 1
  {
    assert Participants(t, id) == Participants(s, id) + {a};
  }

  lemma PartsDrop(s: State, t: State, id: Id, a: Id)
    requires a in s.callers && a in t.callers && t.callers == s.callers[a := t.callers[a]]
    requires Joins(s.callers[a], id) && !Joins(t.callers[a], id)
    ensures |Participants(t, id)| == |Participants(s, id)| - 1
  {
    assert Participants(t, id) == Participants(s, id) - {a};
  }

  predicate EarlyOut(s: State, k: CallAct)
    requires k.Call?
  {
    s.mask == k.mask || (k.isCurrent && s.dis > 0 && s.cpu !in k.mask) || k.mask == {}
  }

  /** A caller returns at once; the mask may be a new one that allows the task's CPU. */
  lemma ReturnsAtOnce(s: State, t: State, a: Id, mask: set<Cpu>, ret: int)
    requires Inv(s) && (a in s.callers ==> s.callers[a].Returned?)
    requires mask == s.mask || (mask != {} && s.cpu in mask)
    requires t == s.(mask := mask, callers := s.callers[a := Returned(ret)])
    ensures Inv(t)
  {
    if a in s.callers { assert CallerInv(s, a, s.callers[a]); }
    Frame(s, t, None, Caller(a));
  }

  /** A call that changes nothing. */
  lemma CallOutIs(s: State, a: Id, k: CallAct) returns (ret: int)
    requires Grounded(s) && CallEnabled(s, a, k) && k.Call? && EarlyOut(s, k)
    ensures CallApply(s, a, k) == s.(callers := s.callers[a := Returned(ret)])
    ensures ret == 0 <==> s.mask == k.mask
  {
    ret := if s.mask == k.mask then 0 else if k.isCurrent && s.dis > 0 && s.cpu !in k.mask then EBUSY else EINVAL;
  }

  lemma CallOut(s: State, a: Id, k: CallAct)
    requires Inv(s) && CallEnabled(s, a, k) && k.Call? && EarlyOut(s, k)
    ensures Inv(CallApply(s, a, k))
  {
    var ret := CallOutIs(s, a, k);
    ReturnsAtOnce(s, CallApply(s, a, k), a, s.mask, ret);
  }

  lemma CallThereIs(s: State, a: Id, k: CallAct)
    requires Grounded(s) && CallEnabled(s, a, k) && k.Call? && !EarlyOut(s, k) && s.cpu in k.mask
    requires s.installed.None? || s.pend[s.installed.value].stopPending
    ensures CallApply(s, a, k) == s.(mask := k.mask, callers := s.callers[a := Returned(0)])
  {}

  lemma CallThere(s: State, a: Id, k: CallAct)
    requires Inv(s) && CallEnabled(s, a, k) && k.Call? && !EarlyOut(s, k) && s.cpu in k.mask
    requires s.installed.None? || s.pend[s.installed.value].stopPending
    ensures Inv(CallApply(s, a, k))
  {
    CallThereIs(s, a, k);
    ReturnsAtOnce(s, CallApply(s, a, k), a, k.mask, 0);
  }

  lemma CallCompletesIs(s: State, a: Id, k: CallAct)
    requires Grounded(s) && CallEnabled(s, a, k) && k.Call? && !EarlyOut(s, k) && s.cpu in k.mask
    requires s.installed.Some? && !s.pend[s.installed.value].stopPending
    ensures var id := s.installed.value;
      CallApply(s, a, k) == s.(mask := k.mask, installed := None,
        pend := s.pend[id := s.pend[id].(duty := CallerCompletes(a))], callers := s.callers[a := Completing(id, false)])
  {}

  lemma CompletesAtOnce(s: State, t: State, a: Id, mask: set<Cpu>, id: Id)
    requires Inv(s) && (a in s.callers ==> s.callers[a].Returned?) && mask != {} && s.cpu in mask
    requires s.installed == Some(id) && !s.pend[id].stopPending
    requires t == s.(mask := mask, installed := None,
      pend := s.pend[id := s.pend[id].(duty := CallerCompletes(a))], callers := s.callers[a := Completing(id, false)])
    ensures Inv(t)
  {
    assert ObjectInv(s, id, s.pend[id]);
    if a in s.callers { assert CallerInv(s, a, s.callers[a]); }
    PartsSame(s, t, id);
    assert ObjectInv(t, id, t.pend[id]);
    Frame(s, t, Some(id), Caller(a));
  }

  lemma CallCompletes(s: State, a: Id, k: CallAct)
    requires Inv(s) && CallEnabled(s, a, k) && k.Call? && !EarlyOut(s, k) && s.cpu in k.mask
    requires s.installed.Some? && !s.pend[s.installed.value].stopPending
    ensures Inv(CallApply(s, a, k))
  {
    CallCompletesIs(s, a, k);
    CompletesAtOnce(s, CallApply(s, a, k), a, k.mask, s.installed.value);
  }

  /** What a call that finds the task on a CPU outside the new mask leaves behind: the object id
      is now q, the caller is at pc, and the task may have been moved to `cpu`. */
  function Outcome(s: State, a: Id, k: CallAct, id: Id, q: Pending, pc: CPc, cpu: Cpu, done: bool): State
    requires k.Call?
  {
    s.(mask := k.mask, cpu := cpu, installed := if done then None else Some(id),
       pend := s.pend[id := q], callers := s.callers[a := pc])
  }

  ghost predicate OutcomeOk(s: State, a: Id, k: CallAct, id: Id, q: Pending, pc: CPc, cpu: Cpu, done: bool) {
    && CallEnabled(s, a, k) && k.Call? && k.mask != {} && s.cpu !in k.mask
    && (s.installed == Some(id) || (s.installed.None? && a == id))
    && (s.installed.Some? ==> id in s.pend)
    && (cpu == s.cpu || (cpu in k.mask && !s.running && s.dis == 0))
    && q.dest in k.mask && !q.done && Joins(pc, id) && done == pc.Completing?
    && q.refs == (if s.installed.Some? then s.pend[id].refs + 1 else 1)
    && q.links == (if s.installed.Some? then s.pend[id].links else [])
    && (if pc.Waiting? then
          && (q.stopPending || s.ptr.Pinned?)
          && q.stopPending == (s.installed.Some? && s.pend[id].stopPending)
          && q.duty == (if s.installed.Some? then s.pend[id].duty else Nobody)
        else
          && (s.installed.Some? ==> !s.pend[id].stopPending)
          && q.stopPending == pc.Queueing?
          && q.duty == (if pc.Queueing? then CallerQueues(a) else CallerCompletes(a)))
  }

  lemma OutcomeTask(s: State, a: Id, k: CallAct, id: Id, q: Pending, pc: CPc, cpu: Cpu, done: bool)
    requires Inv(s) && OutcomeOk(s, a, k, id, q, pc, cpu, done)
    ensures TaskInv(Outcome(s, a, k, id, q, pc, cpu, done)) && TargetInv(Outcome(s, a, k, id, q, pc, cpu, done))
  {
    assert s.installed.Some? ==> ObjectInv(s, id, s.pend[id]);
  }

  lemma OutcomeObject(s: State, a: Id, k: CallAct, id: Id, q: Pending, pc: CPc, cpu: Cpu, done: bool)
    requires Inv(s) && OutcomeOk(s, a, k, id, q, pc, cpu, done)
    ensures var t := Outcome(s, a, k, id, q, pc, cpu, done); ObjectInv(t, id, q) && DutyInv(t, id, q)
  {
    var t := Outcome(s, a, k, id, q, pc, cpu, done);
    if s.installed.Some? {
      assert ObjectInv(s, id, s.pend[id]) && DutyInv(s, id, s.pend[id]);
    } else {
      assert id !in s.callers || !Joins(s.callers[id], id);
      assert Participants(s, id) == {};
    }
    PartsAdd(s, t, id, a);
  }

  lemma OutcomeInv(s: State, a: Id, k: CallAct, id: Id, q: Pending, pc: CPc, cpu: Cpu, done: bool)
    requires Inv(s) && OutcomeOk(s, a, k, id, q, pc, cpu, done)
    ensures Inv(Outcome(s, a, k, id, q, pc, cpu, done))
  {
    var t := Outcome(s, a, k, id, q, pc, cpu, done);
    OutcomeTask(s, a, k, id, q, pc, cpu, done);
    OutcomeObject(s, a, k, id, q, pc, cpu, done);
    assert s.installed.Some? ==> ObjectInv(s, id, s.pend[id]);
    assert a !in s.pend;
    Frame(s, t, Some(id), Caller(a));
  }

  /** The object and program counter a call leaves behind, in the order of the source's tests. */
  function CallObject(s: State, a: Id, k: CallAct): (Id, Pending, CPc)
    requires k.Call? && (s.installed.Some? ==> s.installed.value in s.pend)
  {
    var id := if s.installed.Some? then s.installed.value else a;
    var q := if s.installed.None? then Pending(1, false, false, k.dest, [], Nobody)
      else s.pend[id].(refs := s.pend[id].refs + 1, dest := k.dest);
    if q.stopPending || (s.dis > 0 && !s.running && !s.waking) then (id, q, Waiting(id))
    else if s.running || s.waking then
      (id, q.(stopPending := true, duty := CallerQueues(a)), Queueing(id, s.cpu))
    else (id, q.(duty := CallerCompletes(a)), Completing(id, true))
  }

  function CallCpu(s: State, k: CallAct): Cpu
    requires k.Call?
  {
    if s.queued && !s.running && !s.waking && s.dis == 0 then k.dest else s.cpu
  }

  lemma CallInstalls(s: State, a: Id, k: CallAct)
    requires k.Call? && !EarlyOut(s, k) && s.cpu !in k.mask && s.installed.None?
    ensures var (id, q, pc) := CallObject(s, a, k);
      SetAllowed(s, a, k.mask, k.dest, k.isCurrent) == Outcome(s, a, k, id, q, pc, CallCpu(s, k), pc.Completing?)
  {
    var (id, q, pc) := CallObject(s, a, k);
    var t := SetAllowed(s, a, k.mask, k.dest, k.isCurrent);
    assert t.pend == s.pend[id := q];
  }

  lemma CallShares(s: State, a: Id, k: CallAct)
    requires k.Call? && !EarlyOut(s, k) && s.cpu !in k.mask && s.installed.Some? && s.installed.value in s.pend
    ensures var (id, q, pc) := CallObject(s, a, k);
      SetAllowed(s, a, k.mask, k.dest, k.isCurrent) == Outcome(s, a, k, id, q, pc, CallCpu(s, k), pc.Completing?)
  {
    var (id, q, pc) := CallObject(s, a, k);
    var t := SetAllowed(s, a, k.mask, k.dest, k.isCurrent);
    assert t.pend == s.pend[id := q];
  }

  lemma CallJoins(s: State, a: Id, k: CallAct)
    requires Inv(s) && CallEnabled(s, a, k) && k.Call? && !EarlyOut(s, k) && s.cpu !in k.mask
    ensures Inv(CallApply(s, a, k))
  {
    var (id, q, pc) := CallObject(s, a, k);
    assert s.installed.Some? ==> ObjectInv(s, id, s.pend[id]);
    if s.installed.None? { CallInstalls(s, a, k); } else { CallShares(s, a, k); }
    OutcomeInv(s, a, k, id, q, pc, CallCpu(s, k), pc.Completing?);
  }

  /** An agent on duty at object id works on it: the participants stay the same. */
  lemma QueueWorkIs(s: State, a: Id)
    requires Grounded(s) && CallEnabled(s, a, QueueWork)
    ensures var (id, cpu) := (s.callers[a].id, s.callers[a].cpu);
      CallApply(s, a, QueueWork) ==
        s.(pend := s.pend[id := Link(s.pend[id], cpu)], callers := s.callers[a := Waiting(id)])
  {}

  lemma QueueWorkInv(s: State, t: State, a: Id, id: Id, cpu: Cpu)
    requires Inv(s) && a in s.callers && s.callers[a] == Queueing(id, cpu) && id in s.pend
    requires t == s.(pend := s.pend[id := Link(s.pend[id], cpu)], callers := s.callers[a := Waiting(id)])
    ensures Inv(t)
  {
    assert ObjectInv(s, id, s.pend[id]) && CallerInv(s, a, s.callers[a]);
    PartsSame(s, t, id);
    assert ObjectInv(t, id, t.pend[id]);
    Frame(s, t, Some(id), Caller(a));
  }

  lemma QueueWorkStep(s: State, a: Id, k: CallAct)
    requires Inv(s) && CallEnabled(s, a, k) && k.QueueWork?
    ensures Inv(CallApply(s, a, k))
  {
    QueueWorkIs(s, a);
    QueueWorkInv(s, CallApply(s, a, k), a, s.callers[a].id, s.callers[a].cpu);
  }

  lemma CompleteIs(s: State, a: Id)
    requires Grounded(s) && CallEnabled(s, a, Complete)
    ensures var (id, waits) := (s.callers[a].id, s.callers[a].waits);
      CallApply(s, a, Complete) == s.(pend := s.pend[id := Finish(s.pend[id])],
        callers := s.callers[a := if waits then Waiting(id) else Returned(0)])
  {}

  lemma CompletesOnDuty(s: State, a: Id, id: Id, waits: bool)
    requires Inv(s) && a in s.callers && s.callers[a] == Completing(id, waits)
    ensures id in s.pend && s.pend[id].duty == CallerCompletes(a) && s.installed != Some(id) && (waits || a !in s.pend)
  {
    assert CallerInv(s, a, s.callers[a]) && ObjectInv(s, id, s.pend[id]);
    assert a in s.pend ==> ObjectInv(s, a, s.pend[a]);
  }

  lemma CompleteObject(s: State, t: State, a: Id, id: Id, waits: bool)
    requires Inv(s) && a in s.callers && s.callers[a] == Completing(id, waits) && id in s.pend
    requires t == s.(pend := s.pend[id := Finish(s.pend[id])],
      callers := s.callers[a := if waits then Waiting(id) else Returned(0)])
    ensures ObjectInv(t, id, t.pend[id]) && DutyInv(t, id, t.pend[id])
  {
    CompletesOnDuty(s, a, id, waits);
    assert ObjectInv(s, id, s.pend[id]);
    PartsSame(s, t, id);
  }

  lemma CompleteInv(s: State, t: State, a: Id, id: Id, waits: bool)
    requires Inv(s) && a in s.callers && s.callers[a] == Completing(id, waits) && id in s.pend
    requires t == s.(pend := s.pend[id := Finish(s.pend[id])],
      callers := s.callers[a := if waits then Waiting(id) else Returned(0)])
    ensures Inv(t)
  {
    CompletesOnDuty(s, a, id, waits);
    CompleteObject(s, t, a, id, waits);
    Frame(s, t, Some(id), Caller(a));
  }

  lemma CompleteStep(s: State, a: Id, k: CallAct)
    requires Inv(s) && CallEnabled(s, a, k) && k.Complete?
    ensures Inv(CallApply(s, a, k))
  {
    CompleteIs(s, a);
    CompleteInv(s, CallApply(s, a, k), a, s.callers[a].id, s.callers[a].waits);
  }

  lemma PutRefIs(s: State, a: Id)
    requires Grounded(s) && CallEnabled(s, a, PutRef)
    ensures var id := s.callers[a].id;
      CallApply(s, a, PutRef) ==
        s.(pend := s.pend[id := s.pend[id].(refs := s.pend[id].refs - 1)], callers := s.callers[a := OwnerWait])
  {}

  lemma PutRefInv(s: State, t: State, a: Id, id: Id)
    requires Inv(s) && a in s.callers && s.callers[a] == Waiting(id) && id in s.pend && s.pend[id].done
    requires t ==
      s.(pend := s.pend[id := s.pend[id].(refs := s.pend[id].refs - 1)], callers := s.callers[a := OwnerWait])
    ensures Inv(t)
  {
    assert ObjectInv(s, id, s.pend[id]) && DutyInv(s, id, s.pend[id]);
    if a in s.pend { assert ObjectInv(s, a, s.pend[a]); }
    PartsDrop(s, t, id, a);
    assert ObjectInv(t, id, t.pend[id]);
    Frame(s, t, Some(id), Caller(a));
  }

  lemma PutRefStep(s: State, a: Id, k: CallAct)
    requires Inv(s) && CallEnabled(s, a, k) && k.PutRef?
    ensures Inv(CallApply(s, a, k))
  {
    PutRefIs(s, a);
    PutRefInv(s, CallApply(s, a, k), a, s.callers[a].id);
  }

  lemma ReturnInv(s: State, t: State, a: Id)
    requires Inv(s) && a in s.callers && s.callers[a].OwnerWait? && (a in s.pend ==> s.pend[a].refs == 0)
    requires t == s.(pend := s.pend - {a}, callers := s.callers[a := Returned(0)])
    ensures Inv(t)
  {
    if a in s.pend {
      assert ObjectInv(s, a, s.pend[a]);
      assert Participants(s, a) == {};
    }
    Frame(s, t, Some(a), Caller(a));
  }

  lemma ReturnStep(s: State, a: Id, k: CallAct)
    requires Inv(s) && CallEnabled(s, a, k) && k.Return?
    ensures Inv(CallApply(s, a, k))
  {
    ReturnInv(s, CallApply(s, a, k), a);
  }

  /** The stopper takes its work, and first enqueues the task if it is on the CPU's wake list. */
  lemma PopIs(s: State, c: Cpu, id: Id) returns (flushed: bool)
    requires Grounded(s) && StopEnabled(s, c, Pop(id))
    ensures flushed == (s.waking && s.cpu == c)
    ensures var p := s.pend[id];
      StopApply(s, c, Pop(id)) == s.(pend := s.pend[id := p.(links := Unlink(p.links, c), duty := ToRun(c))],
        stoppers := s.stoppers[c := Flushed(id)], waking := s.waking && !flushed, queued := s.queued || flushed)
  {
    flushed := s.waking && s.cpu == c;
  }

  lemma PopObject(s: State, t: State, c: Cpu, id: Id, flushed: bool)
    requires Inv(s) && StopEnabled(s, c, Pop(id)) && (flushed ==> s.waking && !s.running)
    requires var p := s.pend[id];
      t == s.(pend := s.pend[id := p.(links := Unlink(p.links, c), duty := ToRun(c))],
        stoppers := s.stoppers[c := Flushed(id)], waking := s.waking && !flushed, queued := s.queued || flushed)
    ensures ObjectInv(t, id, t.pend[id]) && DutyInv(t, id, t.pend[id])
    ensures s.pend[id].duty == Linked(c) && s.pend[id].stopPending
  {
    assert ObjectInv(s, id, s.pend[id]);
    PartsSame(s, t, id);
  }

  lemma PopInv(s: State, t: State, c: Cpu, id: Id, flushed: bool)
    requires Inv(s) && StopEnabled(s, c, Pop(id)) && (flushed ==> s.waking && !s.running)
    requires var p := s.pend[id];
      t == s.(pend := s.pend[id := p.(links := Unlink(p.links, c), duty := ToRun(c))],
        stoppers := s.stoppers[c := Flushed(id)], waking := s.waking && !flushed, queued := s.queued || flushed)
    ensures Inv(t)
  {
    PopObject(s, t, c, id, flushed);
    Frame(s, t, Some(id), Stopper(c));
  }

  lemma PopStep(s: State, c: Cpu, w: StopAct)
    requires Inv(s) && StopEnabled(s, c, w) && w.Pop?
    ensures Inv(StopApply(s, c, w))
  {
    var flushed := PopIs(s, c, w.id);
    PopInv(s, StopApply(s, c, w), c, w.id, flushed);
  }

  /** What the locked section of the stopper leaves behind. */
  function StopOutcome(s: State, c: Cpu, id: Id, q: Pending, pc: SPc, cpu: Cpu): State {
    s.(stoppers := s.stoppers[c := pc], pend := s.pend[id := q], cpu := cpu,
       installed := if pc.Finishing? then None else s.installed)
  }

  /** What it may leave behind: the object completed, chased after, or left to the task. */
  ghost predicate StopOutcomeOk(s: State, c: Cpu, id: Id, q: Pending, pc: SPc, cpu: Cpu) {
    && c in s.stoppers && s.stoppers[c] == Flushed(id) && id in s.pend
    && q.(stopPending := true, duty := ToRun(c)) == s.pend[id]
    && (cpu == s.cpu || (!s.running && s.dis == 0 && cpu in s.mask))
    && (|| (pc == Finishing(id) && !q.stopPending && q.duty == StopperCompletes(c))
        || (pc == Chasing(id) && q.stopPending && q.duty == StopperQueues(c))
        || (pc == Idle && s.ptr.Pinned? && !q.stopPending && q.duty.Nobody?))
  }

  lemma StopOutcomeObject(s: State, t: State, c: Cpu, id: Id, q: Pending, pc: SPc, cpu: Cpu)
    requires Inv(s) && StopOutcomeOk(s, c, id, q, pc, cpu) && t == StopOutcome(s, c, id, q, pc, cpu)
    ensures ObjectInv(t, id, q) && DutyInv(t, id, q) && s.installed == Some(id)
  {
    assert ObjectInv(s, id, s.pend[id]);
    PartsSame(s, t, id);
  }

  lemma StopOutcomeInv(s: State, t: State, c: Cpu, id: Id, q: Pending, pc: SPc, cpu: Cpu)
    requires Inv(s) && StopOutcomeOk(s, c, id, q, pc, cpu) && t == StopOutcome(s, c, id, q, pc, cpu)
    ensures Inv(t)
  {
    StopOutcomeObject(s, t, c, id, q, pc, cpu);
    assert Local(s, t, Some(id), Stopper(c));
    Frame(s, t, Some(id), Stopper(c));
  }

  /** The decision, in the order of the source's tests. */
  function DecideObject(s: State, c: Cpu, id: Id): (Pending, SPc)
    requires id in s.pend
  {
    var p := s.pend[id];
    if s.cpu == c && s.dis > 0 then (p.(stopPending := false, duty := Nobody), Idle)
    else if s.cpu == c || s.cpu in CpusPtr(s) then
      (p.(stopPending := false, duty := StopperCompletes(c)), Finishing(id))
    else (p.(duty := StopperQueues(c)), Chasing(id))
  }

  function DecideCpu(s: State, c: Cpu, id: Id): Cpu
    requires id in s.pend
  {
    var dest := s.pend[id].dest;
    if s.cpu == c && s.dis == 0 && s.cpu !in s.mask && s.queued && dest in CpusPtr(s) then dest else s.cpu
  }

  lemma DecideIs(s: State, c: Cpu)
    requires Grounded(s) && StopEnabled(s, c, Decide)
    ensures var id := s.stoppers[c].id; var (q, pc) := DecideObject(s, c, id);
      StopApply(s, c, Decide) == StopOutcome(s, c, id, q, pc, DecideCpu(s, c, id))
  {
    StopDecides(s, c, s.stoppers[c].id);
  }

  lemma StopDecides(s: State, c: Cpu, id: Id)
    requires id in s.pend
    ensures var (q, pc) := DecideObject(s, c, id);
      MigrationCpuStop(s, c, id) == StopOutcome(s, c, id, q, pc, DecideCpu(s, c, id))
  {
    if s.cpu == c { DecidesHere(s, c, id); } else { DecidesElsewhere(s, c, id); }
  }

  lemma DecidesHere(s: State, c: Cpu, id: Id)
    requires id in s.pend && s.cpu == c
    ensures var (q, pc) := DecideObject(s, c, id);
      MigrationCpuStop(s, c, id) == StopOutcome(s, c, id, q, pc, DecideCpu(s, c, id))
  {}

  lemma DecidesElsewhere(s: State, c: Cpu, id: Id)
    requires id in s.pend && s.cpu != c
    ensures var (q, pc) := DecideObject(s, c, id);
      MigrationCpuStop(s, c, id) == StopOutcome(s, c, id, q, pc, DecideCpu(s, c, id))
  {}

  lemma DecideOk(s: State, c: Cpu)
    requires Inv(s) && StopEnabled(s, c, Decide)
    ensures var id := s.stoppers[c].id; var (q, pc) := DecideObject(s, c, id);
      StopOutcomeOk(s, c, id, q, pc, DecideCpu(s, c, id)) && s.installed == Some(id)
  {
    assert StopperInv(s, c, s.stoppers[c]) && ObjectInv(s, s.stoppers[c].id, s.pend[s.stoppers[c].id]);
  }

  lemma DecideStep(s: State, c: Cpu, w: StopAct)
    requires Inv(s) && StopEnabled(s, c, w) && w.Decide?
    ensures Inv(StopApply(s, c, w))
  {
    var id := s.stoppers[c].id;
    var (q, pc) := DecideObject(s, c, id);
    DecideIs(s, c);
    DecideOk(s, c);
    StopOutcomeInv(s, StopApply(s, c, w), c, id, q, pc, DecideCpu(s, c, id));
  }

  lemma AfterStopIs(s: State, c: Cpu, w: StopAct)
    requires Grounded(s) && StopEnabled(s, c, w) && (w.FinishStop? || w.Requeue?)
    ensures var id := s.stoppers[c].id;
      StopApply(s, c, w) == s.(stoppers := s.stoppers[c := Idle],
        pend := s.pend[id := if w.FinishStop? then Finish(s.pend[id]) else Link(s.pend[id], s.cpu)])
  {}

  lemma FinishStopInv(s: State, t: State, c: Cpu, id: Id)
    requires Inv(s) && c in s.stoppers && s.stoppers[c] == Finishing(id) && id in s.pend
    requires t == s.(stoppers := s.stoppers[c := Idle], pend := s.pend[id := Finish(s.pend[id])])
    ensures Inv(t)
  {
    assert StopperInv(s, c, s.stoppers[c]) && ObjectInv(s, id, s.pend[id]);
    PartsSame(s, t, id);
    assert ObjectInv(t, id, t.pend[id]);
    Frame(s, t, Some(id), Stopper(c));
  }

  lemma RequeueInv(s: State, t: State, c: Cpu, id: Id)
    requires Inv(s) && c in s.stoppers && s.stoppers[c] == Chasing(id) && id in s.pend
    requires t == s.(stoppers := s.stoppers[c := Idle], pend := s.pend[id := Link(s.pend[id], s.cpu)])
    ensures Inv(t)
  {
    assert StopperInv(s, c, s.stoppers[c]) && ObjectInv(s, id, s.pend[id]);
    PartsSame(s, t, id);
    assert ObjectInv(t, id, t.pend[id]);
    Frame(s, t, Some(id), Stopper(c));
  }

  lemma AfterStop(s: State, c: Cpu, w: StopAct)
    requires Inv(s) && StopEnabled(s, c, w) && (w.FinishStop? || w.Requeue?)
    ensures Inv(StopApply(s, c, w))
  {
    AfterStopIs(s, c, w);
    var t, id := StopApply(s, c, w), s.stoppers[c].id;
    if w.FinishStop? { FinishStopInv(s, t, c, id); } else { RequeueInv(s, t, c, id); }
  }

  /** Only the task's own state changes, and no CPU with a flushed wake list gets it. */
  ghost predicate OnlyTask(s: State, t: State) {
    && t.mask == s.mask && t.installed == s.installed && t.pend == s.pend
    && t.callers == s.callers && t.stoppers == s.stoppers
    && (s.me.Outside? || s.me.MeClearing?) && (t.me.Outside? || t.me.MeClearing?)
    && (t.running ==> !(t.cpu in s.stoppers && s.stoppers[t.cpu].Flushed?) || (s.running && s.cpu == t.cpu))
  }

  lemma TaskMoves(s: State, t: State)
    requires Inv(s) && OnlyTask(s, t) && TaskInv(t) && TargetInv(t)
    ensures Inv(t)
  {
    Frame(s, t, None, Self);
  }

  lemma RunStateMoves(s: State, t: TaskAct)
    requires TaskInv(s) && TargetInv(s) && TaskEnabled(s, t)
    requires t.Block? || t.SwitchOut? || t.SwitchIn? || t.MigrateDisable? || t.MeClear?
    ensures var u := TaskApply(s, t); OnlyTask(s, u) && TaskInv(u) && TargetInv(u)
  {}

  lemma PlaceMoves(s: State, t: TaskAct)
    requires TaskInv(s) && TargetInv(s) && TaskEnabled(s, t)
    requires t.WakeOnCpu? || t.WakeLocal? || t.WakeRemote? || t.Ipi? || t.Balance?
    ensures var u := TaskApply(s, t); OnlyTask(s, u) && TaskInv(u) && TargetInv(u)
  {}

  lemma ScheduleStep(s: State, t: TaskAct)
    requires Inv(s) && TaskEnabled(s, t)
    requires t.Block? || t.SwitchOut? || t.SwitchIn? || t.WakeOnCpu? || t.WakeLocal? || t.WakeRemote?
      || t.Ipi? || t.Balance? || t.MigrateDisable? || t.MeClear?
    ensures Inv(TaskApply(s, t))
  {
    if t.Block? || t.SwitchOut? || t.SwitchIn? || t.MigrateDisable? || t.MeClear? { RunStateMoves(s, t); }
    else { PlaceMoves(s, t); }
    TaskMoves(s, TaskApply(s, t));
  }

  /** migrate_enable() that finds nothing to do. */
  predicate EnablesQuietly(s: State)
    requires Grounded(s)
  {
    s.dis > 1 || s.ptr.ToMask? || s.installed.None? || s.pend[s.installed.value].stopPending
  }

  lemma QuietEnableIs(s: State)
    requires TaskInv(s) && TargetInv(s) && TaskEnabled(s, MigrateEnable) && EnablesQuietly(s)
    ensures var u := TaskApply(s, MigrateEnable); OnlyTask(s, u) && TaskInv(u) && TargetInv(u)
  {}

  /** The object it works on otherwise: completed, or with its stop work to be queued. */
  function EnableObject(s: State): (Pending, MePc)
    requires s.installed.Some? && s.installed.value in s.pend
  {
    var id := s.installed.value;
    var p := s.pend[id];
    if s.cpu in s.mask then (p.(duty := SelfCompletes), MeCompleting(id))
    else (p.(stopPending := true, duty := SelfQueues), MeQueueing(id, s.cpu))
  }

  function EnableOutcome(s: State, id: Id, q: Pending, me: MePc): State {
    s.(ptr := ToMask, pend := s.pend[id := q], me := me, installed := if me.MeCompleting? then None else Some(id))
  }

  lemma BusyEnableIs(s: State)
    requires Grounded(s) && TaskEnabled(s, MigrateEnable) && !EnablesQuietly(s)
    ensures var (q, me) := EnableObject(s);
      TaskApply(s, MigrateEnable) == EnableOutcome(s, s.installed.value, q, me)
  {}

  lemma BusyEnableObject(s: State, t: State, id: Id, q: Pending, me: MePc)
    requires Inv(s) && s.installed == Some(id) && !s.pend[id].stopPending && (q, me) == EnableObject(s)
    requires t == EnableOutcome(s, id, q, me)
    ensures ObjectInv(t, id, q) && DutyInv(t, id, q) && (s.pend[id].duty.Nobody? || MayTouch(s.pend[id].duty, Self))
  {
    assert ObjectInv(s, id, s.pend[id]);
    PartsSame(s, t, id);
  }

  lemma BusyEnableInv(s: State, t: State, id: Id, q: Pending, me: MePc)
    requires Inv(s) && TaskEnabled(s, MigrateEnable) && s.dis == 1
    requires s.installed == Some(id) && !s.pend[id].stopPending && (q, me) == EnableObject(s)
    requires t == EnableOutcome(s, id, q, me)
    ensures Inv(t)
  {
    BusyEnableObject(s, t, id, q, me);
    Frame(s, t, Some(id), Self);
  }

  lemma MigrateEnableStep(s: State, t: TaskAct)
    requires Inv(s) && TaskEnabled(s, t) && t.MigrateEnable?
    ensures Inv(TaskApply(s, t))
  {
    if EnablesQuietly(s) {
      QuietEnableIs(s);
      TaskMoves(s, TaskApply(s, t));
    } else {
      var (q, me) := EnableObject(s);
      BusyEnableIs(s);
      BusyEnableInv(s, TaskApply(s, t), s.installed.value, q, me);
    }
  }

  lemma MeQueueIs(s: State)
    requires Grounded(s) && TaskEnabled(s, MeQueue)
    ensures TaskApply(s, MeQueue) ==
      s.(pend := s.pend[s.me.id := Link(s.pend[s.me.id], s.me.cpu)], me := MeClearing)
  {}

  lemma MeQueueInv(s: State, t: State, id: Id, cpu: Cpu)
    requires Inv(s) && s.me == MeQueueing(id, cpu) && id in s.pend
    requires t == s.(pend := s.pend[id := Link(s.pend[id], cpu)], me := MeClearing)
    ensures Inv(t)
  {
    assert ObjectInv(s, id, s.pend[id]);
    PartsSame(s, t, id);
    assert ObjectInv(t, id, t.pend[id]);
    Frame(s, t, Some(id), Self);
  }

  lemma MeCompleteIs(s: State)
    requires Grounded(s) && TaskEnabled(s, MeComplete)
    ensures TaskApply(s, MeComplete) == s.(pend := s.pend[s.me.id := Finish(s.pend[s.me.id])], me := MeClearing)
  {}

  lemma MeCompleteInv(s: State, t: State, id: Id)
    requires Inv(s) && s.me == MeCompleting(id) && id in s.pend
    requires t == s.(pend := s.pend[id := Finish(s.pend[id])], me := MeClearing)
    ensures Inv(t)
  {
    assert ObjectInv(s, id, s.pend[id]);
    PartsSame(s, t, id);
    assert ObjectInv(t, id, t.pend[id]);
    Frame(s, t, Some(id), Self);
  }

  lemma AfterEnable(s: State, t: TaskAct)
    requires Inv(s) && TaskEnabled(s, t) && (t.MeQueue? || t.MeComplete?)
    ensures Inv(TaskApply(s, t))
  {
    if t.MeQueue? {
      MeQueueIs(s);
      MeQueueInv(s, TaskApply(s, t), s.me.id, s.me.cpu);
    } else {
      MeCompleteIs(s);
      MeCompleteInv(s, TaskApply(s, t), s.me.id);
    }
  }

  lemma StepInv(s: State, a: Action)
    requires Inv(s) && Enabled(s, a)
    ensures Inv(Apply(s, a))
  {
    match a
    case ByCaller(b, k) =>
      if k.Call? {
        if EarlyOut(s, k) { CallOut(s, b, k); }
        else if s.cpu in k.mask {
          if s.installed.None? || s.pend[s.installed.value].stopPending { CallThere(s, b, k); }
          else { CallCompletes(s, b, k); }
        }
        else { CallJoins(s, b, k); }
      } else if k.PutRef? { PutRefStep(s, b, k); }
      else if k.Return? { ReturnStep(s, b, k); }
      else if k.QueueWork? { QueueWorkStep(s, b, k); }
      else { CompleteStep(s, b, k); }
    case ByStopper(c, w) =>
      if w.Pop? { PopStep(s, c, w); } else if w.Decide? { DecideStep(s, c, w); } else { AfterStop(s, c, w); }
    case ByTask(t) =>
      if t.MigrateEnable? { MigrateEnableStep(s, t); }
      else if t.MeQueue? || t.MeComplete? { AfterEnable(s, t); }
      else { ScheduleStep(s, t); }
  }

  // ---------------------------------------------------------------- what it means for a run

  /** `ss` are the states passed when the actions `acts` are taken in order from `s`. */
  ghost predicate IsRun(s: State, acts: seq<Action>, ss: seq<State>) {
    && |ss| == |acts| + 1
    && ss[0] == s
    && (forall i :: 0 <= i < |ss| ==> Grounded(ss[i]))
    && forall i :: 0 <= i < |acts| ==> Enabled(ss[i], acts[i]) && ss[i + 1] == Apply(ss[i], acts[i])
  }

  predicate Grounded(s: State) { s.installed.Some? ==> s.installed.value in s.pend }

  lemma {:induction false} RunInv(s: State, acts: seq<Action>, ss: seq<State>, i: nat)
    requires Init(s) && IsRun(s, acts, ss) && i < |ss|
    ensures Inv(ss[i])
  {
    if i > 0 {
      RunInv(s, acts, ss, i - 1);
      StepInv(ss[i - 1], acts[i - 1]);
    }
  }

  /** The places a stop work can be: a stopper's queue or hands, or someone about to queue it. */
  datatype Carrier = InQueue(c: Cpu) | AtStopper(c: Cpu) | AtCaller(a: Id) | AtStopperAgain(c: Cpu) | AtTask

  ghost predicate Carries(s: State, id: Id, x: Carrier) {
    match x
    case InQueue(c) => id in s.pend && c in s.pend[id].links
    case AtStopper(c) => c in s.stoppers && s.stoppers[c].Flushed? && s.stoppers[c].id == id
    case AtCaller(a) => a in s.callers && s.callers[a].Queueing? && s.callers[a].id == id
    case AtStopperAgain(c) => c in s.stoppers && s.stoppers[c].Chasing? && s.stoppers[c].id == id
    case AtTask => s.me.MeQueueing? && s.me.id == id
  }

  function CarrierOf(d: Duty): Carrier {
    match d
    case Linked(c) => InQueue(c)
    case ToRun(c) => AtStopper(c)
    case CallerQueues(a) => AtCaller(a)
    case StopperQueues(c) => AtStopperAgain(c)
    case _ => AtTask
  }

  lemma CarrierIsOnDuty(s: State, id: Id, x: Carrier)
    requires Inv(s) && Carries(s, id, x)
    ensures id in s.pend && x == CarrierOf(s.pend[id].duty) && s.pend[id].duty.Stop()
  {
    match x
    case AtCaller(a) => assert CallerInv(s, a, s.callers[a]);
    case AtStopper(c) => assert StopperInv(s, c, s.stoppers[c]);
    case AtStopperAgain(c) => assert StopperInv(s, c, s.stoppers[c]);
    case InQueue(c) => assert ObjectInv(s, id, s.pend[id]);
    case AtTask =>
  }

  /** stop_pending is set exactly while one stop work of the object is in flight, never two, and
      such an object is the installed one. */
  lemma StopPendingIsOneWork(s: State, acts: seq<Action>, ss: seq<State>, i: nat, id: Id)
    requires Init(s) && IsRun(s, acts, ss) && i < |ss| && id in ss[i].pend
    ensures ss[i].pend[id].stopPending <==> exists x :: Carries(ss[i], id, x)
    ensures forall x, y :: Carries(ss[i], id, x) && Carries(ss[i], id, y) ==> x == y
    ensures |ss[i].pend[id].links| <= 1
    ensures ss[i].pend[id].stopPending ==> ss[i].installed == Some(id)
  {
    RunInv(s, acts, ss, i);
    var z := ss[i];
    assert ObjectInv(z, id, z.pend[id]) && DutyInv(z, id, z.pend[id]);
    forall x | Carries(z, id, x) ensures x == CarrierOf(z.pend[id].duty) && z.pend[id].duty.Stop() {
      CarrierIsOnDuty(z, id, x);
    }
    assert z.pend[id].stopPending ==> Carries(z, id, CarrierOf(z.pend[id].duty));
  }

  /** No agent ever works on an object whose owner has returned, and refs counts the callers that
      have not dropped their reference. */
  lemma ObjectsOutliveTheirUsers(s: State, acts: seq<Action>, ss: seq<State>, i: nat, id: Id)
    requires Init(s) && IsRun(s, acts, ss) && i < |ss|
    requires (exists x :: Carries(ss[i], id, x)) || CompletesNext(ss[i], id) || Participants(ss[i], id) != {}
      || ss[i].installed == Some(id)
    ensures id in ss[i].pend && id in ss[i].callers && !ss[i].callers[id].Returned?
    ensures ss[i].pend[id].refs == |Participants(ss[i], id)|
  {
    RunInv(s, acts, ss, i);
    var z := ss[i];
    if x :| Carries(z, id, x) {
      CarrierIsOnDuty(z, id, x);
    } else if CompletesNext(z, id) {
      CompleterIsOnDuty(z, id);
    } else if a :| a in Participants(z, id) {
      assert CallerInv(z, a, z.callers[a]);
    }
    assert ObjectInv(z, id, z.pend[id]);
  }

  /** Some agent has uninstalled id and is about to call complete_all() on it. */
  ghost predicate CompletesNext(s: State, id: Id) {
    || (exists a :: a in s.callers && s.callers[a].Completing? && s.callers[a].id == id)
    || (exists c :: c in s.stoppers && s.stoppers[c].Finishing? && s.stoppers[c].id == id)
    || (s.me.MeCompleting? && s.me.id == id)
  }

  lemma CompleterIsOnDuty(s: State, id: Id)
    requires Inv(s) && CompletesNext(s, id)
    ensures id in s.pend && s.pend[id].duty.Completes()
  {
    if a :| a in s.callers && s.callers[a].Completing? && s.callers[a].id == id {
      assert CallerInv(s, a, s.callers[a]);
    } else if c :| c in s.stoppers && s.stoppers[c].Finishing? && s.stoppers[c].id == id {
      assert StopperInv(s, c, s.stoppers[c]);
    }
  }

  /** The object complete_all() is called on by this step. */
  function CompletedBy(s: State, a: Action): Option<Id>
    requires Enabled(s, a)
  {
    match a
    case ByCaller(b, k) => if k.Complete? then Some(s.callers[b].id) else None
    case ByStopper(c, w) => if w.FinishStop? then Some(s.stoppers[c].id) else None
    case ByTask(t) => if t.MeComplete? then Some(s.me.id) else None
  }

  /** An object is completed at most once, after it was uninstalled, and nobody else is about to
      complete it. */
  lemma CompletedOnce(s: State, acts: seq<Action>, ss: seq<State>, i: nat, id: Id)
    requires Init(s) && IsRun(s, acts, ss) && i < |acts|
    requires CompletedBy(ss[i], acts[i]) == Some(id)
    ensures id in ss[i].pend && !ss[i].pend[id].done && ss[i].installed != Some(id)
    ensures ss[i + 1].pend[id].done && !CompletesNext(ss[i + 1], id)
  {
    RunInv(s, acts, ss, i);
    RunInv(s, acts, ss, i + 1);
    var z, y := ss[i], ss[i + 1];
    match acts[i] {
      case ByCaller(b, k) => assert CallerInv(z, b, z.callers[b]);
      case ByStopper(c, w) => assert StopperInv(z, c, z.stoppers[c]);
      case ByTask(t) =>
    }
    assert ObjectInv(z, id, z.pend[id]) && ObjectInv(y, id, y.pend[id]);
    if CompletesNext(y, id) { CompleterIsOnDuty(y, id); }
  }

  /** A waiter whose object is not done has a completer or a stop work coming, or the task is inside a
      migrate-disabled region whose end will see the object. */
  lemma WaitersAreServed(s: State, acts: seq<Action>, ss: seq<State>, i: nat, a: Id)
    requires Init(s) && IsRun(s, acts, ss) && i < |ss|
    requires a in ss[i].callers && ss[i].callers[a].Waiting?
    ensures var id := ss[i].callers[a].id;
      && id in ss[i].pend
      && (ss[i].pend[id].done || CompletesNext(ss[i], id)
          || (ss[i].installed == Some(id) && (ss[i].pend[id].stopPending || (ss[i].dis > 0 && ss[i].ptr.Pinned?))))
  {
    RunInv(s, acts, ss, i);
    var z := ss[i];
    assert CallerInv(z, a, z.callers[a]);
    var id := z.callers[a].id;
    assert ObjectInv(z, id, z.pend[id]) && DutyInv(z, id, z.pend[id]);
  }

  /** The stopper always finds its object installed and stop_pending set; the owner returns only
      after completion, with no stop work and no participant left. */
  lemma WarningsNeverFire(s: State, acts: seq<Action>, ss: seq<State>, i: nat)
    requires Init(s) && IsRun(s, acts, ss) && i < |acts|
    ensures acts[i].ByStopper? && acts[i].w.Decide? ==>
      var id := ss[i].stoppers[acts[i].c].id;
      ss[i].installed == Some(id) && id in ss[i].pend && ss[i].pend[id].stopPending
    ensures acts[i].ByCaller? && acts[i].k.Return? && acts[i].a in ss[i].pend ==>
      var p := ss[i].pend[acts[i].a];
      p.done && !p.stopPending && p.links == [] && Participants(ss[i], acts[i].a) == {}
      && forall x :: !Carries(ss[i], acts[i].a, x)
  {
    RunInv(s, acts, ss, i);
    var z := ss[i];
    if acts[i].ByStopper? && acts[i].w.Decide? {
      assert StopperInv(z, acts[i].c, z.stoppers[acts[i].c]);
    } else if acts[i].ByCaller? && acts[i].k.Return? && acts[i].a in z.pend {
      assert ObjectInv(z, acts[i].a, z.pend[acts[i].a]);
      StopPendingIsOneWork(s, acts, ss, i, acts[i].a);
    }
  }

  // ---------------------------------------------------------------- where the task ends up

  /** The task is, or is bound to be, on a CPU outside its mask and no affinity change is left
      that would move it. */
  predicate Misplaced(s: State) {
    s.cpu !in s.mask && s.installed.None? && (s.running || s.queued || s.waking || s.ptr.Pinned?)
  }

  /** Two branches of migration_cpu_stop() complete with the task on a CPU outside its mask: the
      task sits elsewhere, pinned there by a migrate-disabled region, so that cpus_ptr allows the
      CPU although cpus_mask does not; or the task was put on this CPU's wake list after the
      stopper flushed it, and its mask changed since. */
  predicate BadDecision(s: State, a: Action) {
    && a.ByStopper? && a.w.Decide? && Enabled(s, a) && s.cpu !in s.mask
    && (if s.cpu == a.c then s.dis == 0 && s.waking else s.cpu in CpusPtr(s))
  }

  /** The step from s to t decides a completion. */
  predicate Decides(s: State, t: State) { s.installed.Some? && t.installed.None? }

  ghost predicate PlacedWell(s: State, a: Action, t: State) {
    && (Decides(s, t) && t.queued && t.dis == 0 ==> t.cpu in t.mask)
    && (!Misplaced(s) ==> (Misplaced(t) <==> BadDecision(s, a)))
  }

  lemma PlacedByOutcome(s: State, b: Id, k: CallAct, t: State, id: Id, q: Pending, pc: CPc)
    requires Grounded(s) && CallEnabled(s, b, k) && k.Call? && !EarlyOut(s, k) && s.cpu !in k.mask
    requires (id, q, pc) == CallObject(s, b, k) && t == Outcome(s, b, k, id, q, pc, CallCpu(s, k), pc.Completing?)
    requires s.installed.Some? && s.pend[id].stopPending ==> !pc.Completing?
    requires s.ptr.Pinned? ==> s.dis > 0
    ensures PlacedWell(s, ByCaller(b, k), t)
  {}

  lemma PlacedByCall(s: State, b: Id, k: CallAct)
    requires Inv(s) && CallEnabled(s, b, k) && k.Call?
    ensures PlacedWell(s, ByCaller(b, k), CallApply(s, b, k))
  {
    if EarlyOut(s, k) {
      var ret := CallOutIs(s, b, k);
    } else if s.cpu in k.mask {
      if s.installed.None? || s.pend[s.installed.value].stopPending { CallThereIs(s, b, k); }
      else { CallCompletesIs(s, b, k); }
    } else {
      var (id, q, pc) := CallObject(s, b, k);
      if s.installed.None? { CallInstalls(s, b, k); } else { CallShares(s, b, k); }
      PlacedByOutcome(s, b, k, CallApply(s, b, k), id, q, pc);
    }
  }

  lemma PlacedByCaller(s: State, b: Id, k: CallAct)
    requires Inv(s) && CallEnabled(s, b, k)
    ensures PlacedWell(s, ByCaller(b, k), CallApply(s, b, k))
  {
    if k.Call? { PlacedByCall(s, b, k); }
  }

  lemma PlacedByDecision(s: State, c: Cpu, t: State, id: Id, q: Pending, pc: SPc, cpu: Cpu)
    requires StopEnabled(s, c, Decide) && id == s.stoppers[c].id && s.installed == Some(id)
    requires TaskInv(s) && TargetInv(s)
    requires (q, pc) == DecideObject(s, c, id) && cpu == DecideCpu(s, c, id) && s.pend[id].stopPending
    requires t == StopOutcome(s, c, id, q, pc, cpu) && !(s.running && s.cpu == c)
    ensures PlacedWell(s, ByStopper(c, Decide), t)
  {}

  lemma PlacedByStopper(s: State, c: Cpu, w: StopAct)
    requires Inv(s) && StopEnabled(s, c, w)
    ensures PlacedWell(s, ByStopper(c, w), StopApply(s, c, w))
  {
    match w
    case Pop(id) =>
      var flushed := PopIs(s, c, id);
    case Decide =>
      var id := s.stoppers[c].id;
      var (q, pc) := DecideObject(s, c, id);
      DecideIs(s, c);
      DecideOk(s, c);
      assert StopperInv(s, c, s.stoppers[c]) && ObjectInv(s, id, s.pend[id]);
      PlacedByDecision(s, c, StopApply(s, c, w), id, q, pc, DecideCpu(s, c, id));
    case _ =>
      AfterStopIs(s, c, w);
  }

  lemma PlacedByTask(s: State, t: TaskAct)
    requires Inv(s) && TaskEnabled(s, t)
    ensures PlacedWell(s, ByTask(t), TaskApply(s, t))
  {
  }

  lemma EveryStepPlacesWell(s: State, a: Action)
    requires Inv(s) && Enabled(s, a)
    ensures PlacedWell(s, a, Apply(s, a))
  {
    match a
    case ByCaller(b, k) => PlacedByCaller(s, b, k);
    case ByStopper(c, w) => PlacedByStopper(s, c, w);
    case ByTask(t) => PlacedByTask(s, t);
  }

  /** Whenever a step decides a completion while the task is queued and may migrate, it leaves
      the task on an allowed CPU. */
  lemma CompletionFindsAllowedCpu(s: State, acts: seq<Action>, ss: seq<State>, i: nat)
    requires Init(s) && IsRun(s, acts, ss) && i < |acts|
    requires Decides(ss[i], ss[i + 1]) && ss[i + 1].queued && ss[i + 1].dis == 0
    ensures ss[i + 1].cpu in ss[i + 1].mask
  {
    RunInv(s, acts, ss, i);
    EveryStepPlacesWell(ss[i], acts[i]);
  }

  /** A step misplaces a task that was not misplaced exactly when it is one of the two bad
      decisions. */
  lemma MisplacedExactlyBy(s: State, acts: seq<Action>, ss: seq<State>, i: nat)
    requires Init(s) && IsRun(s, acts, ss) && i < |acts| && !Misplaced(ss[i])
    ensures Misplaced(ss[i + 1]) <==> BadDecision(ss[i], acts[i])
  {
    RunInv(s, acts, ss, i);
    EveryStepPlacesWell(ss[i], acts[i]);
  }

  /** migrate_enable() warns that there is no pending object. */
  predicate WarnsNoPending(s: State) {
    TaskEnabled(s, MigrateEnable) && s.dis == 1 && s.ptr.Pinned? && s.cpu !in s.mask && s.installed.None?
  }

  /** In a run without those two branches the task is never misplaced, so migrate_enable() never
      warns, and a running or queued task outside its mask always has an object installed. */
  lemma {:induction false} NeverMisplaced(s: State, acts: seq<Action>, ss: seq<State>, i: nat)
    requires Init(s) && IsRun(s, acts, ss) && i < |ss|
    requires forall j :: 0 <= j < i ==> !BadDecision(ss[j], acts[j])
    ensures !Misplaced(ss[i]) && !WarnsNoPending(ss[i])
  {
    if i > 0 {
      NeverMisplaced(s, acts, ss, i - 1);
      MisplacedExactlyBy(s, acts, ss, i - 1);
      assert WarnsNoPending(ss[i]) ==> Misplaced(ss[i]);
    }
  }

  // ---------------------------------------------------------------- both bad decisions happen

  ghost predicate Reaches(s: State, t: State) {
    exists acts: seq<Action>, ss: seq<State> :: IsRun(s, acts, ss) && ss[|acts|] == t
  }

  lemma RunOn(s: State, acts: seq<Action>, ss: seq<State>, a: Action, t: State)
    requires IsRun(s, acts, ss) && Enabled(ss[|acts|], a) && Apply(ss[|acts|], a) == t && Grounded(t)
    ensures IsRun(s, acts + [a], ss + [t])
  {
    var bs, ts := acts + [a], ss + [t];
    forall i | 0 <= i < |bs| ensures Grounded(ts[i]) && Enabled(ts[i], bs[i]) && ts[i + 1] == Apply(ts[i], bs[i]) {
      if i < |acts| { assert bs[i] == acts[i] && ts[i] == ss[i] && ts[i + 1] == ss[i + 1]; }
    }
  }

  lemma Then(s: State, t: State, a: Action, u: State)
    requires Reaches(s, t) && Grounded(t) && Enabled(t, a) && Apply(t, a) == u && Grounded(u)
    ensures Reaches(s, u)
  {
    var acts, ss :| IsRun(s, acts, ss) && ss[|acts|] == t;
    RunOn(s, acts, ss, a, u);
    assert (ss + [u])[|acts + [a]|] == u;
  }

  lemma Here(s: State)
    requires Grounded(s)
    ensures Reaches(s, s)
  {
    assert IsRun(s, [], [s]);
  }

  const START := State(0, {0, 1, 2}, ToMask, 0, true, true, false, Outside, None, map[], map[], map[])

  /** Caller 10 has asked for CPU 1 only; its stop work is to be queued, and then is, on CPU 0. */
  const ASKED := START.(mask := {1}, installed := Some(10), callers := map[10 := Queueing(10, 0)],
    pend := map[10 := Pending(1, true, false, 1, [], CallerQueues(10))])
  const QUEUED := ASKED.(callers := map[10 := Waiting(10)],
    pend := map[10 := Pending(1, true, false, 1, [0], Linked(0))])

  lemma ReachAsked()
    ensures Reaches(START, ASKED)
  {
    Here(START);
    Then(START, START, ByCaller(10, Call({1}, 1, false)), ASKED);
  }

  lemma ReachQueued()
    ensures Reaches(START, QUEUED)
  {
    ReachAsked();
    QueueWorkIs(ASKED, 10);
    assert [] + [0] == [0];
    Then(START, ASKED, ByCaller(10, QueueWork), QUEUED);
  }

  /** The task has gone to sleep. */
  const ASLEEP := QUEUED.(queued := false, running := false)

  lemma ReachAsleep()
    ensures Reaches(START, ASLEEP)
  {
    ReachQueued();
    Then(START, QUEUED, ByTask(Block), QUEUED.(queued := false));
    Then(START, QUEUED.(queued := false), ByTask(SwitchOut), ASLEEP);
  }

  /** It has woken on CPU 1 and been switched out there with migration disabled. */
  const PINNED := QUEUED.(cpu := 1, ptr := Pinned(1), dis := 1, running := false)

  lemma ReachPinned()
    ensures Reaches(START, PINNED)
  {
    ReachAsleep();
    var awake := ASLEEP.(cpu := 1, queued := true);
    Then(START, ASLEEP, ByTask(WakeLocal(1)), awake);
    Then(START, awake, ByTask(SwitchIn), awake.(running := true));
    Then(START, awake.(running := true), ByTask(MigrateDisable), awake.(running := true, dis := 1));
    Then(START, awake.(running := true, dis := 1), ByTask(SwitchOut), PINNED);
  }

  /** Caller 11 has asked for CPU 2 and joined. */
  const JOINED := PINNED.(mask := {2}, callers := map[10 := Waiting(10), 11 := Waiting(10)],
    pend := map[10 := Pending(2, true, false, 2, [0], Linked(0))])

  /** The stopper of CPU 0 takes the work, decides, and completes the object. */
  const TAKEN := JOINED.(stoppers := map[0 := Flushed(10)], pend := map[10 := Pending(2, true, false, 2, [], ToRun(0))])
  const DECIDED := JOINED.(stoppers := map[0 := Finishing(10)], installed := None,
    pend := map[10 := Pending(2, false, false, 2, [], StopperCompletes(0))])
  const FINISHED := DECIDED.(stoppers := map[0 := Idle], pend := map[10 := Pending(2, false, true, 2, [], Nobody)])

  lemma ReachJoined()
    ensures Reaches(START, JOINED)
  {
    ReachPinned();
    CallShares(PINNED, 11, Call({2}, 2, false));
    Then(START, PINNED, ByCaller(11, Call({2}, 2, false)), JOINED);
  }

  lemma ReachTaken()
    ensures Reaches(START, TAKEN)
  {
    ReachJoined();
    var flushed := PopIs(JOINED, 0, 10);
    assert Unlink([0], 0) == [];
    Then(START, JOINED, ByStopper(0, Pop(10)), TAKEN);
  }

  lemma ReachDecided()
    ensures Reaches(START, DECIDED) && BadDecision(TAKEN, ByStopper(0, Decide))
  {
    ReachTaken();
    DecideIs(TAKEN, 0);
    Then(START, TAKEN, ByStopper(0, Decide), DECIDED);
  }

  lemma ReachFinished()
    ensures Reaches(START, FINISHED)
  {
    ReachDecided();
    AfterStopIs(DECIDED, 0, FinishStop);
    Then(START, DECIDED, ByStopper(0, FinishStop), FINISHED);
  }

  /** Caller 11 drops its reference and returns; the task runs again. */
  const LEFT := FINISHED.(callers := map[10 := Waiting(10), 11 := OwnerWait],
    pend := map[10 := Pending(1, false, true, 2, [], Nobody)])
  const BACK := LEFT.(callers := map[10 := Waiting(10), 11 := Returned(0)])
  const ASTRAY := BACK.(running := true)

  lemma ReachLeft()
    ensures Reaches(START, LEFT)
  {
    ReachFinished();
    PutRefIs(FINISHED, 11);
    Then(START, FINISHED, ByCaller(11, PutRef), LEFT);
  }

  lemma ReachBack()
    ensures Reaches(START, BACK)
  {
    ReachLeft();
    assert LEFT.pend - {11} == LEFT.pend;
    Then(START, LEFT, ByCaller(11, Return), BACK);
  }

  /** The first bad decision is reachable, and so is the warning in migrate_enable(): the stopper of CPU 0
      completes, because cpus_ptr allows CPU 1. Caller 11 has returned success while the task is queued on
      CPU 1, which it excluded, and the task's own migrate_enable() finds no pending object. */
  lemma PinnedTaskCanBeMisplaced()
    ensures Init(START) && Reaches(START, ASTRAY)
    ensures ASTRAY.callers[11] == Returned(0) && ASTRAY.queued && ASTRAY.cpu !in ASTRAY.mask && WarnsNoPending(ASTRAY)
  {
    ReachBack();
    Then(START, BACK, ByTask(SwitchIn), ASTRAY);
  }

  /** The task sleeps on CPU 0, whose stopper has flushed its wake list for caller 10's object. */
  const FLUSHED := ASLEEP.(stoppers := map[0 := Flushed(10)],
    pend := map[10 := Pending(1, true, false, 1, [], ToRun(0))])

  lemma ReachFlushed()
    ensures Reaches(START, FLUSHED)
  {
    ReachAsleep();
    var flushed := PopIs(ASLEEP, 0, 10);
    assert Unlink([0], 0) == [];
    Then(START, ASLEEP, ByStopper(0, Pop(10)), FLUSHED);
  }

  /** Caller 11 has allowed CPU 0, and the task has been put on its wake list. */
  const ALLOWED := FLUSHED.(mask := {0}, callers := map[10 := Waiting(10), 11 := Returned(0)])
  const WOKEN := ALLOWED.(waking := true)

  lemma ReachWoken()
    ensures Reaches(START, WOKEN)
  {
    ReachFlushed();
    CallThereIs(FLUSHED, 11, Call({0}, 0, false));
    Then(START, FLUSHED, ByCaller(11, Call({0}, 0, false)), ALLOWED);
    Then(START, ALLOWED, ByTask(WakeRemote(0)), WOKEN);
  }

  /** Caller 12 has asked for CPU 1 and joined. */
  const REJOINED := WOKEN.(mask := {1}, callers := map[10 := Waiting(10), 11 := Returned(0), 12 := Waiting(10)],
    pend := map[10 := Pending(2, true, false, 1, [], ToRun(0))])

  lemma ReachRejoined()
    ensures Reaches(START, REJOINED)
  {
    ReachWoken();
    CallShares(WOKEN, 12, Call({1}, 1, false));
    Then(START, WOKEN, ByCaller(12, Call({1}, 1, false)), REJOINED);
  }

  /** The stopper decides, and completes the object. */
  const SETTLED := REJOINED.(stoppers := map[0 := Finishing(10)], installed := None,
    pend := map[10 := Pending(2, false, false, 1, [], StopperCompletes(0))])
  const SERVED := SETTLED.(stoppers := map[0 := Idle], pend := map[10 := Pending(2, false, true, 1, [], Nobody)])

  lemma ReachSettled()
    ensures Reaches(START, SETTLED) && BadDecision(REJOINED, ByStopper(0, Decide))
  {
    ReachRejoined();
    DecideIs(REJOINED, 0);
    Then(START, REJOINED, ByStopper(0, Decide), SETTLED);
  }

  lemma ReachServed()
    ensures Reaches(START, SERVED)
  {
    ReachSettled();
    AfterStopIs(SETTLED, 0, FinishStop);
    Then(START, SETTLED, ByStopper(0, FinishStop), SERVED);
  }

  /** Caller 12 drops its reference and returns; the wake list is flushed. */
  const GONE := SERVED.(callers := map[10 := Waiting(10), 11 := Returned(0), 12 := OwnerWait],
    pend := map[10 := Pending(1, false, true, 1, [], Nobody)])
  const RETURNED := GONE.(callers := map[10 := Waiting(10), 11 := Returned(0), 12 := Returned(0)])
  const ENQUEUED := RETURNED.(waking := false, queued := true)

  lemma ReachGone()
    ensures Reaches(START, GONE)
  {
    ReachServed();
    PutRefIs(SERVED, 12);
    Then(START, SERVED, ByCaller(12, PutRef), GONE);
  }

  lemma ReachReturned()
    ensures Reaches(START, RETURNED)
  {
    ReachGone();
    assert GONE.pend - {12} == GONE.pend;
    Then(START, GONE, ByCaller(12, Return), RETURNED);
  }

  /** The second bad decision is reachable: caller 11 allows CPU 0, the task is woken onto CPU 0's wake list,
      and caller 12 asks for CPU 1 and joins; the stopper then completes, caller 12 returns success, and the
      task is enqueued on CPU 0. */
  lemma WakingTaskCanBeMisplaced()
    ensures Init(START) && Reaches(START, ENQUEUED)
    ensures ENQUEUED.callers[12] == Returned(0) && ENQUEUED.queued && ENQUEUED.cpu !in ENQUEUED.mask
    ensures ENQUEUED.dis == 0 && ENQUEUED.installed.None?
  {
    ReachReturned();
    Then(START, RETURNED, ByTask(Ipi), ENQUEUED);
  }

  /** So both happen in some run: a caller has returned success, nothing is pending, and the task is queued on
      a CPU that its mask excludes; once with migrate_enable() about to warn, and once with migration enabled. */
  lemma MisplacementIsReachable()
    ensures exists s: State, t: State, a: Id :: Misplaces(s, t, a) && WarnsNoPending(t)
    ensures exists s: State, t: State, a: Id :: Misplaces(s, t, a) && t.dis == 0
  {
    PinnedTaskCanBeMisplaced();
    assert Misplaces(START, ASTRAY, 11);
    WakingTaskCanBeMisplaced();
    assert Misplaces(START, ENQUEUED, 12);
  }

  ghost predicate Misplaces(s: State, t: State, a: Id) {
    && Init(s) && Reaches(s, t)
    && a in t.callers && t.callers[a] == Returned(0)
    && t.queued && t.cpu !in t.mask && t.installed.None?
  }
}
