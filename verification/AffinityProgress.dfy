/** Progress of the affinity handshake. From every state that can be reached, some steps of the stoppers, of the
    task and of the callers that are under way let all callers return; and however the stoppers and the callers
    are interleaved, they come to an end at which all have returned or it is the task's turn. */
module AffinityProgress {
  import opened Sequences
  import opened Affinity

  predicate IsCall(act: Action) { act.ByCaller? && act.k.Call? }

  /** A call that is not over. */
  predicate Blocked(s: State, a: Id) { a in s.callers && !s.callers[a].Returned? }

  // ---------------------------------------------------------------- how far it is to the end

  /** The task's nested migrate_disable() calls; the outermost migrate_enable() counts in two halves. */
  function Depth(s: State): nat { if s.me.Outside? then 2 * s.dis else 1 }

  function Rank(pc: CPc): nat {
    match pc
    case Queueing(_, _) => 3
    case Completing(_, _) => 3
    case Waiting(_) => 2
    case OwnerWait => 1
    case Returned(_) => 0
  }

  function AtLeast(callers: map<Id, CPc>, r: nat): set<Id> {
    set a | a in callers && Rank(callers[a]) >= r
  }

  /** What is left to do for the callers themselves. */
  function Work(callers: map<Id, CPc>): nat {
    |AtLeast(callers, 1)| + |AtLeast(callers, 2)| + |AtLeast(callers, 3)|
  }

  /** How far the installed object is from its completion. */
  function Stage(s: State): nat
    requires Grounded(s)
  {
    if s.installed.None? then 0
    else
      match s.pend[s.installed.value].duty
      case Nobody => 2
      case ToRun(c) => if c == s.cpu then 3 else 6
      case Linked(c) => if c == s.cpu then 4 else 7
      case StopperQueues(_) => 5
      case _ => 8
  }

  function FinishingStoppers(stoppers: map<Cpu, SPc>): set<Cpu> {
    set c | c in stoppers && stoppers[c].Finishing?
  }

  function Completers(s: State): nat {
    |FinishingStoppers(s.stoppers)| + if s.me.MeCompleting? then 1 else 0
  }

  /** A stop work needs the task off its CPU; without one the task has to run to its migrate_enable(). */
  function Legs(s: State): nat
    requires Grounded(s)
  {
    if s.installed.None? then 0
    else if s.pend[s.installed.value].stopPending then (if s.running then 1 else 0)
    else if s.running then (if s.queued then 0 else 4)
    else if s.queued then 1 else if s.waking then 2 else 3
  }

  /** A bound on the steps to the end; the weights make up for what a step sets back. */
  function Total(s: State): nat
    requires Grounded(s)
  {
    64 * Depth(s) + Work(s.callers) + 8 * Stage(s) + Completers(s) + Legs(s)
  }

  /** No caller comes or goes, one that has returned stays as it is, and none returns with an error. */
  ghost predicate Served(s: State, t: State) {
    && t.callers.Keys == s.callers.Keys
    && forall a :: a in s.callers ==>
      if s.callers[a].Returned? then t.callers[a] == s.callers[a]
      else t.callers[a].Returned? ==> t.callers[a] == Returned(0)
  }

  ghost predicate Nearer(s: State, t: State) {
    Grounded(s) && Grounded(t) && Total(t) < Total(s) && Served(s, t)
  }

  ghost predicate Advances(s: State, act: Action) {
    Grounded(s) && Enabled(s, act) && !IsCall(act) && Nearer(s, Apply(s, act))
  }

  lemma ServedOn(s: State, t: State, u: State)
    requires Served(s, t) && Served(t, u)
    ensures Served(s, u)
  {}

  lemma SetAt(callers: map<Id, CPc>, a: Id, pc: CPc, r: nat)
    requires a in callers && Rank(pc) < Rank(callers[a])
    ensures AtLeast(callers[a := pc], r) ==
      if Rank(pc) < r <= Rank(callers[a]) then AtLeast(callers, r) - {a} else AtLeast(callers, r)
  {}

  lemma LessWork(callers: map<Id, CPc>, a: Id, pc: CPc)
    requires a in callers && Rank(pc) < Rank(callers[a])
    ensures Work(callers[a := pc]) < Work(callers)
  {
    SetAt(callers, a, pc, 1);
    SetAt(callers, a, pc, 2);
    SetAt(callers, a, pc, 3);
    assert a in AtLeast(callers, Rank(callers[a]));
  }

  // ---------------------------------------------------------------- callers

  lemma StaysGrounded(s: State, act: Action)
    requires Inv(s) && Enabled(s, act)
    ensures Grounded(Apply(s, act))
  {
    StepInv(s, act);
  }

  /** A caller moves on, and what it does to an object does not set that object back. */
  lemma CallerNearer(s: State, t: State, a: Id, pc: CPc)
    requires Grounded(s) && Grounded(t) && a in s.callers && Rank(pc) < Rank(s.callers[a])
    requires pc.Returned? ==> pc == Returned(0)
    requires t == s.(callers := s.callers[a := pc], pend := t.pend)
    requires Stage(t) <= Stage(s) && Legs(t) <= Legs(s)
    ensures Nearer(s, t)
  {
    LessWork(s.callers, a, pc);
  }

  lemma QueueNearer(s: State, a: Id)
    requires Inv(s) && CallEnabled(s, a, QueueWork)
    ensures Nearer(s, CallApply(s, a, QueueWork))
  {
    StaysGrounded(s, ByCaller(a, QueueWork));
    QueueWorkIs(s, a);
    var id := s.callers[a].id;
    assert CallerInv(s, a, s.callers[a]) && ObjectInv(s, id, s.pend[id]);
    CallerNearer(s, CallApply(s, a, QueueWork), a, Waiting(id));
  }

  lemma Completed(s: State, t: State, a: Id, id: Id, waits: bool)
    requires Grounded(s) && a in s.callers && s.callers[a] == Completing(id, waits) && id in s.pend
    requires s.installed != Some(id)
    requires t == s.(pend := s.pend[id := Finish(s.pend[id])],
      callers := s.callers[a := if waits then Waiting(id) else Returned(0)])
    ensures Nearer(s, t)
  {
    CallerNearer(s, t, a, if waits then Waiting(id) else Returned(0));
  }

  lemma CompleteNearer(s: State, a: Id)
    requires Inv(s) && CallEnabled(s, a, Complete)
    ensures Nearer(s, CallApply(s, a, Complete))
  {
    CompleteIs(s, a);
    var (id, waits) := (s.callers[a].id, s.callers[a].waits);
    CompletesOnDuty(s, a, id, waits);
    Completed(s, CallApply(s, a, Complete), a, id, waits);
  }

  lemma RefDropped(s: State, t: State, a: Id, id: Id)
    requires Grounded(s) && a in s.callers && s.callers[a] == Waiting(id) && id in s.pend
    requires t ==
      s.(pend := s.pend[id := s.pend[id].(refs := s.pend[id].refs - 1)], callers := s.callers[a := OwnerWait])
    ensures Nearer(s, t)
  {
    CallerNearer(s, t, a, OwnerWait);
  }

  lemma PutRefNearer(s: State, a: Id)
    requires Inv(s) && CallEnabled(s, a, PutRef)
    ensures Nearer(s, CallApply(s, a, PutRef))
  {
    PutRefIs(s, a);
    RefDropped(s, CallApply(s, a, PutRef), a, s.callers[a].id);
  }

  lemma OwnerReturned(s: State, t: State, a: Id)
    requires Grounded(s) && Grounded(t) && a in s.callers && s.callers[a].OwnerWait?
    requires t == s.(pend := s.pend - {a}, callers := s.callers[a := Returned(0)])
    ensures Nearer(s, t)
  {
    CallerNearer(s, t, a, Returned(0));
  }

  lemma ReturnNearer(s: State, a: Id)
    requires Inv(s) && CallEnabled(s, a, Return)
    ensures Nearer(s, CallApply(s, a, Return))
  {
    StaysGrounded(s, ByCaller(a, Return));
    OwnerReturned(s, CallApply(s, a, Return), a);
  }

  lemma CallerStepNearer(s: State, a: Id, k: CallAct)
    requires Inv(s) && CallEnabled(s, a, k) && !k.Call?
    ensures Nearer(s, CallApply(s, a, k))
  {
    match k
    case QueueWork => QueueNearer(s, a);
    case Complete => CompleteNearer(s, a);
    case PutRef => PutRefNearer(s, a);
    case Return => ReturnNearer(s, a);
  }

  // ---------------------------------------------------------------- stoppers

  lemma OneFinisherMore(stoppers: map<Cpu, SPc>, c: Cpu, pc: SPc)
    ensures |FinishingStoppers(stoppers[c := pc])| <= |FinishingStoppers(stoppers)| + 1
  {
    var was, now := FinishingStoppers(stoppers), FinishingStoppers(stoppers[c := pc]);
    assert now <= was + {c};
    SmallerSet(now, was + {c});
  }

  lemma SmallerSet(x: set<Cpu>, y: set<Cpu>)
    requires x <= y
    ensures |x| <= |y|
  {
    assert y == x + (y - x);
  }

  lemma OneFinisherLess(stoppers: map<Cpu, SPc>, c: Cpu)
    requires c in stoppers && stoppers[c].Finishing?
    ensures |FinishingStoppers(stoppers[c := Idle])| < |FinishingStoppers(stoppers)|
  {
    assert c in FinishingStoppers(stoppers);
    assert FinishingStoppers(stoppers[c := Idle]) == FinishingStoppers(stoppers) - {c};
  }

  /** A stopper's work on the installed object brings it a stage further. */
  lemma StageNearer(s: State, t: State, c: Cpu)
    requires Grounded(s) && Grounded(t) && t.callers == s.callers && t.me == s.me && t.dis == s.dis
    requires Stage(t) < Stage(s) && (t.installed == s.installed || Stage(t) + 1 < Stage(s))
    requires |FinishingStoppers(t.stoppers)| <= |FinishingStoppers(s.stoppers)| + 1
    ensures Nearer(s, t)
  {}

  lemma Popped(s: State, t: State, c: Cpu, id: Id, flushed: bool)
    requires Grounded(s) && s.installed == Some(id) && s.pend[id].duty == Linked(c)
    requires c in s.stoppers ==> s.stoppers[c].Idle?
    requires var p := s.pend[id];
      t == s.(pend := s.pend[id := p.(links := Unlink(p.links, c), duty := ToRun(c))],
        stoppers := s.stoppers[c := Flushed(id)], waking := s.waking && !flushed, queued := s.queued || flushed)
    ensures Nearer(s, t)
  {
    OneFinisherMore(s.stoppers, c, Flushed(id));
    StageNearer(s, t, c);
  }

  lemma PopNearer(s: State, c: Cpu, id: Id)
    requires Inv(s) && StopEnabled(s, c, Pop(id))
    ensures Nearer(s, StopApply(s, c, Pop(id)))
  {
    var flushed := PopIs(s, c, id);
    assert ObjectInv(s, id, s.pend[id]);
    Popped(s, StopApply(s, c, Pop(id)), c, id, flushed);
  }

  lemma Decided(s: State, t: State, c: Cpu, id: Id, q: Pending, pc: SPc, cpu: Cpu)
    requires Grounded(s) && s.installed == Some(id) && StopOutcomeOk(s, c, id, q, pc, cpu)
    requires (q, pc) == DecideObject(s, c, id) && cpu == DecideCpu(s, c, id)
    requires t == StopOutcome(s, c, id, q, pc, cpu)
    ensures Nearer(s, t)
  {
    OneFinisherMore(s.stoppers, c, pc);
    StageNearer(s, t, c);
  }

  lemma DecideNearer(s: State, c: Cpu)
    requires Inv(s) && StopEnabled(s, c, Decide)
    ensures Nearer(s, StopApply(s, c, Decide))
  {
    DecideIs(s, c);
    DecideOk(s, c);
    var id := s.stoppers[c].id;
    var (q, pc) := DecideObject(s, c, id);
    Decided(s, StopApply(s, c, Decide), c, id, q, pc, DecideCpu(s, c, id));
  }

  lemma Requeued(s: State, t: State, c: Cpu, id: Id)
    requires Grounded(s) && s.installed == Some(id) && s.pend[id].duty.StopperQueues?
    requires t == s.(stoppers := s.stoppers[c := Idle], pend := s.pend[id := Link(s.pend[id], s.cpu)])
    ensures Nearer(s, t)
  {
    OneFinisherMore(s.stoppers, c, Idle);
    StageNearer(s, t, c);
  }

  lemma RequeueNearer(s: State, c: Cpu)
    requires Inv(s) && StopEnabled(s, c, Requeue)
    ensures Nearer(s, StopApply(s, c, Requeue))
  {
    AfterStopIs(s, c, Requeue);
    assert StopperInv(s, c, s.stoppers[c]) && ObjectInv(s, s.stoppers[c].id, s.pend[s.stoppers[c].id]);
    Requeued(s, StopApply(s, c, Requeue), c, s.stoppers[c].id);
  }

  lemma ObjectFinished(s: State, t: State, c: Cpu, id: Id)
    requires Grounded(s) && c in s.stoppers && s.stoppers[c] == Finishing(id) && id in s.pend
    requires s.installed != Some(id)
    requires t == s.(stoppers := s.stoppers[c := Idle], pend := s.pend[id := Finish(s.pend[id])])
    ensures Nearer(s, t)
  {
    OneFinisherLess(s.stoppers, c);
  }

  lemma FinishNearer(s: State, c: Cpu)
    requires Inv(s) && StopEnabled(s, c, FinishStop)
    ensures Nearer(s, StopApply(s, c, FinishStop))
  {
    AfterStopIs(s, c, FinishStop);
    assert StopperInv(s, c, s.stoppers[c]) && ObjectInv(s, s.stoppers[c].id, s.pend[s.stoppers[c].id]);
    ObjectFinished(s, StopApply(s, c, FinishStop), c, s.stoppers[c].id);
  }

  lemma StopperStepNearer(s: State, c: Cpu, w: StopAct)
    requires Inv(s) && StopEnabled(s, c, w)
    ensures Nearer(s, StopApply(s, c, w))
  {
    match w
    case Pop(id) => PopNearer(s, c, id);
    case Decide => DecideNearer(s, c);
    case FinishStop => FinishNearer(s, c);
    case Requeue => RequeueNearer(s, c);
  }

  // ---------------------------------------------------------------- the task

  /** The task goes on inside its outermost migrate_enable(): it queues the stop work, completes the object,
      or leaves. */
  predicate InEnable(t: TaskAct) { t.MeQueue? || t.MeComplete? || t.MeClear? }

  lemma MeQueueNearer(s: State, t: State, id: Id, cpu: Cpu)
    requires Inv(s) && s.me == MeQueueing(id, cpu) && id in s.pend
    requires t == s.(pend := s.pend[id := Link(s.pend[id], cpu)], me := MeClearing)
    ensures Nearer(s, t)
  {
    assert ObjectInv(s, id, s.pend[id]);
  }

  lemma MeCompleteNearer(s: State, t: State, id: Id)
    requires Inv(s) && s.me == MeCompleting(id) && id in s.pend
    requires t == s.(pend := s.pend[id := Finish(s.pend[id])], me := MeClearing)
    ensures Nearer(s, t)
  {
    assert ObjectInv(s, id, s.pend[id]);
  }

  lemma EnableNearer(s: State, t: TaskAct)
    requires Inv(s) && TaskEnabled(s, t) && InEnable(t)
    ensures Nearer(s, TaskApply(s, t))
  {
    match t
    case MeQueue =>
      MeQueueIs(s);
      MeQueueNearer(s, TaskApply(s, t), s.me.id, s.me.cpu);
    case MeComplete =>
      MeCompleteIs(s);
      MeCompleteNearer(s, TaskApply(s, t), s.me.id);
    case MeClear =>
  }

  /** Steps of the stoppers and of the callers, and of the task where it cannot be preempted. */
  predicate Serves(act: Action) {
    match act
    case ByCaller(_, k) => !k.Call?
    case ByStopper(_, _) => true
    case ByTask(t) => InEnable(t)
  }

  lemma ServeNearer(s: State, act: Action)
    requires Inv(s) && Enabled(s, act) && Serves(act)
    ensures Nearer(s, Apply(s, act))
  {
    match act
    case ByCaller(a, k) => CallerStepNearer(s, a, k);
    case ByStopper(c, w) => StopperStepNearer(s, c, w);
    case ByTask(t) => EnableNearer(s, t);
  }

  // ---------------------------------------------------------------- the next step

  /** A caller that need not wait. */
  predicate Ready(s: State, a: Id) {
    a in s.callers && ReadyAt(s, a, s.callers[a])
  }

  predicate ReadyAt(s: State, a: Id, pc: CPc) {
    match pc
    case Queueing(_, _) => true
    case Completing(_, _) => true
    case Waiting(id) => id in s.pend ==> s.pend[id].done
    case OwnerWait => a in s.pend ==> s.pend[a].refs == 0
    case Returned(_) => false
  }

  function CallerAct(pc: CPc): CallAct {
    match pc
    case Queueing(_, _) => QueueWork
    case Completing(_, _) => Complete
    case Waiting(_) => PutRef
    case _ => Return
  }

  lemma ReadyCanMove(s: State, a: Id)
    requires Inv(s) && Ready(s, a)
    ensures CallEnabled(s, a, CallerAct(s.callers[a])) && !CallerAct(s.callers[a]).Call?
  {
    assert CallerInv(s, a, s.callers[a]);
  }

  function StopperAct(pc: SPc): StopAct
    requires !pc.Idle?
  {
    match pc
    case Flushed(_) => Decide
    case Finishing(_) => FinishStop
    case Chasing(_) => Requeue
  }

  lemma BusyCanMove(s: State, c: Cpu)
    requires Inv(s) && StopperBusy(s, c)
    ensures StopEnabled(s, c, StopperAct(s.stoppers[c]))
  {
    assert StopperInv(s, c, s.stoppers[c]);
  }

  function EnableAct(me: MePc): TaskAct {
    match me
    case MeQueueing(_, _) => MeQueue
    case MeCompleting(_) => MeComplete
    case _ => MeClear
  }

  /** Nobody but the task and the queues of idle stoppers has anything to do. */
  ghost predicate Settled(s: State) {
    && s.me.Outside?
    && (forall c :: !StopperBusy(s, c))
    && (forall a :: !Ready(s, a))
  }

  lemma NoParticipants(s: State, id: Id)
    requires id in s.pend && s.pend[id].done && forall a :: !Ready(s, a)
    ensures Participants(s, id) == {}
  {
    forall a | a in s.callers ensures !Joins(s.callers[a], id) {
      assert !Ready(s, a);
    }
  }

  lemma NoOwnerWaits(s: State, a: Id)
    requires Inv(s) && Settled(s) && a in s.callers
    ensures s.callers[a].Waiting? || s.callers[a].Returned?
  {
    assert !Ready(s, a);
    if s.callers[a].OwnerWait? {
      assert ObjectInv(s, a, s.pend[a]);
      NoParticipants(s, a);
    }
  }

  lemma DutyHasAgent(s: State, id: Id)
    requires Inv(s) && id in s.pend
    ensures s.pend[id].duty.Nobody? || s.pend[id].duty.Linked?
      || !s.me.Outside? || (exists c :: StopperBusy(s, c)) || exists a :: Ready(s, a)
  {
    assert DutyInv(s, id, s.pend[id]);
    match s.pend[id].duty
    case CallerQueues(b) => assert Ready(s, b);
    case CallerCompletes(b) => assert Ready(s, b);
    case StopperQueues(c) => assert StopperBusy(s, c);
    case StopperCompletes(c) => assert StopperBusy(s, c);
    case ToRun(c) => assert StopperBusy(s, c);
    case _ =>
  }

  /** Then a caller that waits does so for the installed object, whose stop work is in a queue, or which
      the task, pinned to its CPU, will see at its migrate_enable(). */
  lemma WaitsForInstalled(s: State, a: Id)
    requires Inv(s) && Settled(s) && Blocked(s, a)
    ensures s.installed.Some? && s.installed.value in s.pend
    ensures var p := s.pend[s.installed.value];
      if p.stopPending then p.duty.Linked? && p.links == [p.duty.c] else s.ptr.Pinned?
  {
    NoOwnerWaits(s, a);
    assert CallerInv(s, a, s.callers[a]) && !Ready(s, a);
    var id := s.callers[a].id;
    var p := s.pend[id];
    assert ObjectInv(s, id, p) && DutyInv(s, id, p);
    DutyHasAgent(s, id);
  }

  lemma TaskStepsAside(s: State)
    requires Inv(s) && s.me.Outside? && s.running
    requires s.installed.Some? && s.installed.value in s.pend
    requires s.pend[s.installed.value].stopPending || !s.queued
    ensures Advances(s, ByTask(SwitchOut))
  {
    StaysGrounded(s, ByTask(SwitchOut));
  }

  lemma PopEnabled(s: State, c: Cpu, id: Id)
    requires id in s.pend && s.pend[id].links == [c] && !StopperBusy(s, c) && !(s.running && s.cpu == c)
    ensures StopEnabled(s, c, Pop(id))
  {
    assert c in s.pend[id].links;
  }

  /** The stop work reaches its stopper once the task is off the stopper's CPU. */
  lemma StopWorkMoves(s: State) returns (act: Action)
    requires Inv(s) && Settled(s) && s.installed.Some? && s.installed.value in s.pend
    requires var p := s.pend[s.installed.value]; p.stopPending && p.duty.Linked? && p.links == [p.duty.c]
    ensures Advances(s, act)
  {
    var id := s.installed.value;
    var c := s.pend[id].duty.c;
    if s.running && s.cpu == c {
      act := ByTask(SwitchOut);
      TaskStepsAside(s);
    } else {
      act := ByStopper(c, Pop(id));
      assert !StopperBusy(s, c);
      PopEnabled(s, c, id);
      PopNearer(s, c, id);
    }
  }

  lemma TaskEnables(s: State)
    requires Inv(s) && TaskEnabled(s, MigrateEnable) && s.installed.Some? && s.installed.value in s.pend
    requires s.ptr.Pinned? && !s.pend[s.installed.value].stopPending
    ensures Advances(s, ByTask(MigrateEnable))
  {
    StaysGrounded(s, ByTask(MigrateEnable));
    if EnablesQuietly(s) { QuietEnableIs(s); } else { BusyEnableIs(s); }
  }

  lemma TaskRuns(s: State, t: TaskAct)
    requires Inv(s) && s.me.Outside? && !StopperBusy(s, s.cpu) && s.installed.Some? && s.installed.value in s.pend
    requires !s.pend[s.installed.value].stopPending && s.ptr.Pinned? && !s.running
    requires t == if s.queued then SwitchIn else if s.waking then Ipi else WakeLocal(s.cpu)
    ensures Advances(s, ByTask(t))
  {
    StaysGrounded(s, ByTask(t));
  }

  /** The pinned task is woken, runs, and leaves its migrate-disabled regions. */
  lemma TaskComesBack(s: State) returns (act: Action)
    requires Inv(s) && Settled(s) && s.installed.Some? && s.installed.value in s.pend
    requires s.ptr.Pinned? && !s.pend[s.installed.value].stopPending
    ensures Advances(s, act)
  {
    assert !StopperBusy(s, s.cpu);
    if !s.running {
      var t := if s.queued then SwitchIn else if s.waking then Ipi else WakeLocal(s.cpu);
      act := ByTask(t);
      TaskRuns(s, t);
    } else if !s.queued {
      act := ByTask(SwitchOut);
      TaskStepsAside(s);
    } else {
      act := ByTask(MigrateEnable);
      TaskEnables(s);
    }
  }

  lemma NextStep(s: State, a: Id) returns (act: Action)
    requires Inv(s) && Blocked(s, a)
    ensures Advances(s, act)
  {
    if !s.me.Outside? {
      act := ByTask(EnableAct(s.me));
      ServeNearer(s, act);
    } else if c :| StopperBusy(s, c) {
      act := ByStopper(c, StopperAct(s.stoppers[c]));
      BusyCanMove(s, c);
      ServeNearer(s, act);
    } else if b :| Ready(s, b) {
      act := ByCaller(b, CallerAct(s.callers[b]));
      ReadyCanMove(s, b);
      ServeNearer(s, act);
    } else {
      WaitsForInstalled(s, a);
      if s.pend[s.installed.value].stopPending { act := StopWorkMoves(s); } else { act := TaskComesBack(s); }
    }
  }

  // ---------------------------------------------------------------- the run to the end

  lemma Prepend(s: State, act: Action, acts: seq<Action>, ss: seq<State>)
    requires Grounded(s) && Enabled(s, act) && IsRun(Apply(s, act), acts, ss)
    ensures IsRun(s, [act] + acts, [s] + ss)
  {
    var bs, ts := [act] + acts, [s] + ss;
    forall i | 0 <= i < |bs| ensures Enabled(ts[i], bs[i]) && ts[i + 1] == Apply(ts[i], bs[i]) {
      if i > 0 { assert ts[i] == ss[i - 1] && bs[i] == acts[i - 1]; }
    }
  }

  lemma OneStep(s: State, a: Id) returns (act: Action, t: State)
    requires Inv(s) && Blocked(s, a)
    ensures Enabled(s, act) && t == Apply(s, act) && Inv(t) && Nearer(s, t) && !IsCall(act)
  {
    act := NextStep(s, a);
    StepInv(s, act);
    t := Apply(s, act);
  }

  /** The run has no call in it and ends all that are under way. */
  ghost predicate Ends(s: State, acts: seq<Action>, ss: seq<State>) {
    && IsRun(s, acts, ss) && (forall i :: 0 <= i < |acts| ==> !IsCall(acts[i]))
    && Finished(s, ss[|acts|])
  }

  ghost predicate Finished(s: State, t: State) { Inv(t) && Served(s, t) && forall a :: !Blocked(t, a) }

  lemma EndsOn(s: State, act: Action, t: State, acts: seq<Action>, ss: seq<State>)
    requires Grounded(s) && Enabled(s, act) && t == Apply(s, act) && !IsCall(act) && Served(s, t)
    requires IsRun(t, acts, ss) && (forall i :: 0 <= i < |acts| ==> !IsCall(acts[i])) && Finished(t, ss[|acts|])
    ensures Ends(s, [act] + acts, [s] + ss)
  {
    Prepend(s, act, acts, ss);
    ServedOn(s, t, ss[|acts|]);
    assert ([s] + ss)[|[act] + acts|] == ss[|acts|];
  }

  lemma {:induction false} ToTheEnd(s: State) returns (acts: seq<Action>, ss: seq<State>)
    requires Inv(s)
    ensures Ends(s, acts, ss)
    decreases Total(s)
  {
    if a :| Blocked(s, a) {
      var act, t := OneStep(s, a);
      var bs, ts := ToTheEnd(t);
      EndsOn(s, act, t, bs, ts);
      acts, ss := [act] + bs, [s] + ts;
    } else {
      acts, ss := [], [s];
    }
  }

  lemma OwnersBlocked(s: State)
    requires Inv(s)
    ensures forall id :: id in s.pend ==> Blocked(s, id)
  {
    forall id | id in s.pend ensures Blocked(s, id) {
      assert ObjectInv(s, id, s.pend[id]);
    }
  }

  /** A run without further calls at whose end every call has returned, those under way in s with success,
      and no pending object is left. */
  ghost predicate EndsAllCalls(s: State, acts: seq<Action>, ss: seq<State>) {
    && IsRun(s, acts, ss) && (forall j :: 0 <= j < |acts| ==> !IsCall(acts[j]))
    && var z := ss[|acts|];
       && z.callers.Keys == s.callers.Keys
       && (forall a :: a in z.callers ==>
             z.callers[a] == if s.callers[a].Returned? then s.callers[a] else Returned(0))
       && z.installed.None? && z.pend == map[]
  }

  /** In no reachable state can a caller be stuck: some steps of the stoppers, of the task and of the callers
      end all calls. */
  lemma EveryCallCanReturn(s: State, acts: seq<Action>, ss: seq<State>, i: nat)
    requires Init(s) && IsRun(s, acts, ss) && i < |ss|
    ensures exists more: seq<Action>, ts: seq<State> :: EndsAllCalls(ss[i], more, ts)
  {
    RunInv(s, acts, ss, i);
    var more, ts := ToTheEnd(ss[i]);
    var z := ts[|more|];
    forall a | a in z.callers
      ensures z.callers[a] == if ss[i].callers[a].Returned? then ss[i].callers[a] else Returned(0)
    {
      assert !Blocked(z, a);
    }
    OwnersBlocked(z);
    assert z.pend.Keys == {};
    assert EndsAllCalls(ss[i], more, ts);
  }

  // ---------------------------------------------------------------- every run to the end

  ghost predicate AllServe(acts: seq<Action>) { forall i :: 0 <= i < |acts| ==> Serves(acts[i]) }

  lemma {:induction false} ServesDown(s: State, acts: seq<Action>, ss: seq<State>, i: nat)
    requires Inv(s) && IsRun(s, acts, ss) && AllServe(acts) && i < |ss|
    ensures Inv(ss[i]) && Total(ss[i]) + i <= Total(s) && Served(s, ss[i])
  {
    if i > 0 {
      ServesDown(s, acts, ss, i - 1);
      assert Serves(acts[i - 1]);
      ServeNearer(ss[i - 1], acts[i - 1]);
      StepInv(ss[i - 1], acts[i - 1]);
      ServedOn(s, ss[i - 1], ss[i]);
    }
  }

  ghost predicate NoneLeft(s: State) { forall act :: Serves(act) ==> !Enabled(s, act) }

  lemma UnsettledCanMove(s: State)
    requires Inv(s) && !Settled(s)
    ensures exists act :: Serves(act) && Enabled(s, act)
  {
    if !s.me.Outside? {
      assert Serves(ByTask(EnableAct(s.me))) && Enabled(s, ByTask(EnableAct(s.me)));
    } else if c :| StopperBusy(s, c) {
      BusyCanMove(s, c);
      assert Serves(ByStopper(c, StopperAct(s.stoppers[c]))) && Enabled(s, ByStopper(c, StopperAct(s.stoppers[c])));
    } else {
      var a :| Ready(s, a);
      ReadyCanMove(s, a);
      assert Serves(ByCaller(a, CallerAct(s.callers[a]))) && Enabled(s, ByCaller(a, CallerAct(s.callers[a])));
    }
  }

  /** It is the task's turn: it runs on the CPU whose stopper has work for it, or is pinned and has to reach its
      migrate_enable(). */
  predicate TasksTurn(s: State) {
    && s.installed.Some? && s.installed.value in s.pend
    && var p := s.pend[s.installed.value];
       if p.stopPending then p.duty.Linked? && s.running && s.cpu == p.duty.c else s.ptr.Pinned?
  }

  lemma WhoIsLeft(s: State, a: Id)
    requires Inv(s) && NoneLeft(s) && Blocked(s, a)
    ensures TasksTurn(s)
  {
    if !Settled(s) { UnsettledCanMove(s); }
    WaitsForInstalled(s, a);
    var id := s.installed.value;
    if s.pend[id].stopPending {
      var c := s.pend[id].duty.c;
      assert !StopperBusy(s, c) && !Enabled(s, ByStopper(c, Pop(id)));
      if !(s.running && s.cpu == c) { PopEnabled(s, c, id); }
    }
  }

  /** From any reachable state: however the steps of stoppers and callers are interleaved, only so many of them
      are possible, no call fails, and when none is possible any more, every call has returned or it is the
      task's turn. */
  lemma CallsComplete(
    s: State, acts: seq<Action>, ss: seq<State>, i: nat, more: seq<Action>, ts: seq<State>)
    requires Init(s) && IsRun(s, acts, ss) && i < |ss|
    requires IsRun(ss[i], more, ts) && AllServe(more)
    ensures |more| <= Total(ss[i]) && Served(ss[i], ts[|more|])
    ensures NoneLeft(ts[|more|]) ==> (forall a :: !Blocked(ts[|more|], a)) || TasksTurn(ts[|more|])
  {
    RunInv(s, acts, ss, i);
    ServesDown(ss[i], more, ts, |more|);
    var z := ts[|more|];
    if NoneLeft(z) && exists a :: Blocked(z, a) {
      var a :| Blocked(z, a);
      WhoIsLeft(z, a);
    }
  }
}
