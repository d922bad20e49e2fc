/** What migrate_disable() promises to the task, and what an affinity change asked for by the task itself, or
    while the task may not migrate, has to respect. */
module AffinityRegions {
  import opened Sequences
  import opened Affinity

  /** How deep the task is inside migrate-disabled regions; the last migrate_enable() leaves when it begins. */
  function Nesting(s: State): int { if s.me.Outside? then s.dis else s.dis - 1 }

  function Entered(act: Action): int {
    if act == ByTask(MigrateDisable) then 1 else if act == ByTask(MigrateEnable) then -1 else 0
  }

  /** The task is on the wake list of c, whose stopper has flushed it. */
  predicate Missed(s: State, c: Cpu) { s.waking && s.cpu == c && c in s.stoppers && s.stoppers[c].Flushed? }

  predicate WakesOn(act: Action, c: Cpu) { act == ByTask(WakeRemote(c)) || act == ByTask(WakeOnCpu) }

  /** What every step keeps. */
  ghost predicate Respects(s: State, act: Action, t: State) {
    && (s.dis > 0 ==> t.cpu == s.cpu)
    && Nesting(t) == Nesting(s) + Entered(act)
    && (forall c :: Missed(t, c) ==> Missed(s, c) || (WakesOn(act, c) && c in s.stoppers && s.stoppers[c].Flushed?))
  }

  /** A call that finds the task on a CPU outside the new mask. */
  lemma AwayRespects(s: State, a: Id, k: CallAct)
    requires Grounded(s) && TaskInv(s) && CallEnabled(s, a, k) && k.Call? && !EarlyOut(s, k) && s.cpu !in k.mask
    ensures Respects(s, ByCaller(a, k), CallApply(s, a, k))
  {
    if s.installed.None? { CallInstalls(s, a, k); } else { CallShares(s, a, k); }
  }

  lemma CallRespects(s: State, a: Id, k: CallAct)
    requires Grounded(s) && TaskInv(s) && CallEnabled(s, a, k) && k.Call?
    ensures Respects(s, ByCaller(a, k), CallApply(s, a, k))
  {
    if EarlyOut(s, k) {
      var ret := CallOutIs(s, a, k);
    } else if s.cpu !in k.mask {
      AwayRespects(s, a, k);
    } else if s.installed.None? || s.pend[s.installed.value].stopPending {
      CallThereIs(s, a, k);
    } else {
      CallCompletesIs(s, a, k);
    }
  }

  lemma CallerRespects(s: State, a: Id, k: CallAct)
    requires Grounded(s) && CallEnabled(s, a, k) && !k.Call?
    ensures Respects(s, ByCaller(a, k), CallApply(s, a, k))
  {
    match k
    case QueueWork => QueueWorkIs(s, a);
    case Complete => CompleteIs(s, a);
    case PutRef => PutRefIs(s, a);
    case _ =>
  }

  lemma StopperRespects(s: State, c: Cpu, w: StopAct)
    requires Grounded(s) && TaskInv(s) && StopEnabled(s, c, w)
    ensures Respects(s, ByStopper(c, w), StopApply(s, c, w))
  {
    match w
    case Pop(id) =>
      var flushed := PopIs(s, c, id);
    case Decide => DecideIs(s, c);
    case _ => AfterStopIs(s, c, w);
  }

  lemma TaskRespects(s: State, k: TaskAct)
    requires Grounded(s) && TaskInv(s) && TaskEnabled(s, k) && !k.MigrateEnable?
    ensures Respects(s, ByTask(k), TaskApply(s, k))
  {
    match k
    case MeQueue => MeQueueIs(s);
    case MeComplete => MeCompleteIs(s);
    case _ =>
  }

  lemma EnableRespects(s: State)
    requires Grounded(s) && TaskInv(s) && TaskEnabled(s, MigrateEnable)
    ensures Respects(s, ByTask(MigrateEnable), TaskApply(s, MigrateEnable))
  {
    if !EnablesQuietly(s) { BusyEnableIs(s); }
  }

  lemma StepRespects(s: State, act: Action)
    requires Inv(s) && Enabled(s, act)
    ensures Respects(s, act, Apply(s, act))
  {
    match act
    case ByCaller(a, k) => if k.Call? { CallRespects(s, a, k); } else { CallerRespects(s, a, k); }
    case ByStopper(c, w) => StopperRespects(s, c, w);
    case ByTask(k) => if k.MigrateEnable? { EnableRespects(s); } else { TaskRespects(s, k); }
  }

  lemma RunRespects(s: State, acts: seq<Action>, ss: seq<State>, i: nat)
    requires Init(s) && IsRun(s, acts, ss) && i < |acts|
    ensures Respects(ss[i], acts[i], ss[i + 1])
  {
    RunInv(s, acts, ss, i);
    StepRespects(ss[i], acts[i]);
  }

  // ---------------------------------------------------------------- migrate-disabled regions

  ghost predicate StaysNext(s: State, t: State) { s.dis > 0 ==> t.cpu == s.cpu }

  lemma StepStays(s: State, acts: seq<Action>, ss: seq<State>, i: nat)
    requires Init(s) && IsRun(s, acts, ss) && i < |acts|
    ensures StaysNext(ss[i], ss[i + 1])
  {
    RunRespects(s, acts, ss, i);
  }

  lemma {:induction false} StaysThroughout(ss: seq<State>, i: nat, j: nat)
    requires i <= j < |ss| && (forall k :: i <= k < j ==> StaysNext(ss[k], ss[k + 1]) && ss[k].dis > 0)
    ensures ss[j].cpu == ss[i].cpu
  {
    if i < j {
      StaysThroughout(ss, i, j - 1);
      assert StaysNext(ss[j - 1], ss[j]);
    }
  }

  /** While migration is disabled the task stays on its CPU, whatever callers and stoppers do. */
  lemma StaysOnItsCpu(s: State, acts: seq<Action>, ss: seq<State>, i: nat, j: nat)
    requires Init(s) && IsRun(s, acts, ss) && i <= j < |ss| && forall k :: i <= k < j ==> ss[k].dis > 0
    ensures ss[j].cpu == ss[i].cpu
  {
    forall k | i <= k < j ensures StaysNext(ss[k], ss[k + 1]) { StepStays(s, acts, ss, k); }
    StaysThroughout(ss, i, j);
  }

  function Balance(acts: seq<Action>): int {
    if acts == [] then 0 else Balance(acts[..|acts| - 1]) + Entered(acts[|acts| - 1])
  }

  /** Regions nest: migration is disabled as long as there were fewer migrate_enable() calls than
      migrate_disable() calls, and there are never more. */
  lemma {:induction false} RegionsNest(s: State, acts: seq<Action>, ss: seq<State>, i: nat)
    requires Init(s) && IsRun(s, acts, ss) && i < |ss|
    ensures Nesting(ss[i]) == Balance(acts[..i]) >= 0
    ensures Balance(acts[..i]) > 0 ==> ss[i].dis > 0
  {
    RunInv(s, acts, ss, i);
    if i > 0 {
      RegionsNest(s, acts, ss, i - 1);
      RunRespects(s, acts, ss, i - 1);
      assert acts[..i][..i - 1] == acts[..i - 1];
    }
  }

  // ---------------------------------------------------------------- the answer of a call

  /** A call that fails changes nothing; it fails with EBUSY only for the task's own call from inside a region,
      and with EINVAL only for an empty mask. */
  lemma FailureChangesNothing(s: State, acts: seq<Action>, ss: seq<State>, i: nat, ret: int)
    requires Init(s) && IsRun(s, acts, ss) && i < |acts| && acts[i].ByCaller? && acts[i].k.Call?
    requires acts[i].a in ss[i + 1].callers && ss[i + 1].callers[acts[i].a] == Returned(ret) && ret != 0
    ensures ss[i + 1] == ss[i].(callers := ss[i].callers[acts[i].a := Returned(ret)])
    ensures if ret == EBUSY then acts[i].k.isCurrent && ss[i].dis > 0 && ss[i].cpu !in acts[i].k.mask
      else ret == EINVAL && acts[i].k.mask == {}
  {
    var a, k := acts[i].a, acts[i].k;
    var z := ss[i];
    if EarlyOut(z, k) {
      var r := CallOutIs(z, a, k);
    } else if z.cpu in k.mask {
      if z.installed.None? || z.pend[z.installed.value].stopPending { CallThereIs(z, a, k); }
      else { CallCompletesIs(z, a, k); }
    } else {
      if z.installed.None? { CallInstalls(z, a, k); } else { CallShares(z, a, k); }
    }
  }

  /** The task never waits for itself: when its own call begins to wait, it is inside no region whose end it
      would have to reach first. */
  lemma NeverWaitsForItself(s: State, acts: seq<Action>, ss: seq<State>, i: nat, id: Id)
    requires Init(s) && IsRun(s, acts, ss) && i < |acts|
    requires acts[i].ByCaller? && acts[i].k.Call? && acts[i].k.isCurrent
    requires acts[i].a in ss[i + 1].callers && Joins(ss[i + 1].callers[acts[i].a], id)
    ensures ss[i + 1].dis == 0
  {
    var a, k := acts[i].a, acts[i].k;
    var z := ss[i];
    if EarlyOut(z, k) {
      var r := CallOutIs(z, a, k);
    } else if z.cpu in k.mask {
      if z.installed.None? || z.pend[z.installed.value].stopPending { CallThereIs(z, a, k); }
      else { CallCompletesIs(z, a, k); }
    } else {
      if z.installed.None? { CallInstalls(z, a, k); } else { CallShares(z, a, k); }
    }
  }

  /** A call that allows the task's CPU again frees those who wait for it to leave: afterwards a request is
      installed only if a stop work is on its way for it. */
  lemma AllowingFreesWaiters(s: State, acts: seq<Action>, ss: seq<State>, i: nat)
    requires Init(s) && IsRun(s, acts, ss) && i < |acts|
    requires acts[i].ByCaller? && acts[i].k.Call? && ss[i].cpu in acts[i].k.mask && acts[i].k.mask != ss[i].mask
    ensures ss[i + 1].mask == acts[i].k.mask && ss[i + 1].cpu == ss[i].cpu
    ensures ss[i + 1].installed.Some? ==> ss[i + 1].pend[ss[i + 1].installed.value].stopPending
    ensures ss[i + 1].installed != ss[i].installed ==> CompletesNext(ss[i + 1], ss[i].installed.value)
  {
    var a, k := acts[i].a, acts[i].k;
    var z := ss[i];
    if z.installed.None? || z.pend[z.installed.value].stopPending {
      CallThereIs(z, a, k);
    } else {
      CallCompletesIs(z, a, k);
      assert a in ss[i + 1].callers && ss[i + 1].callers[a] == Completing(z.installed.value, false);
    }
  }

  // ---------------------------------------------------------------- the flush

  /** From step k, which wakes the task onto c, to step j the stopper of c is past its flush. */
  ghost predicate WokenTooLate(acts: seq<Action>, ss: seq<State>, k: nat, j: nat, c: Cpu) {
    && k < j < |ss| == |acts| + 1 && WakesOn(acts[k], c)
    && forall m :: k <= m <= j ==> c in ss[m].stoppers && ss[m].stoppers[c].Flushed?
  }

  /** A stopper finds the task on its own CPU's wake list only if the wakeup came after it had flushed that
      list. */
  lemma {:induction false} FlushMissesOnlyLater(s: State, acts: seq<Action>, ss: seq<State>, j: nat, c: Cpu)
    requires Init(s) && IsRun(s, acts, ss) && j < |ss| && Missed(ss[j], c)
    ensures exists k :: WokenTooLate(acts, ss, k, j, c)
  {
    RunRespects(s, acts, ss, j - 1);
    if Missed(ss[j - 1], c) {
      FlushMissesOnlyLater(s, acts, ss, j - 1, c);
      var k :| WokenTooLate(acts, ss, k, j - 1, c);
      assert WokenTooLate(acts, ss, k, j, c);
    } else {
      assert WokenTooLate(acts, ss, j - 1, j, c);
    }
  }
}
