/** What a successful return of set_cpus_allowed_ptr() says about where the task is. */
module AffinitySuccess {
  import opened Sequences
  import opened Affinity

  /** The task is, or is bound to be, on a CPU outside its mask. */
  predicate Astray(s: State) {
    s.cpu !in s.mask && (s.running || s.queued || s.waking || s.ptr.Pinned?)
  }

  /** Nothing is left for the caller to wait for. */
  predicate NoWait(pc: CPc) { pc == Returned(0) || (pc.Completing? && !pc.waits) }

  predicate IsCallBy(act: Action, a: Id) { act.ByCaller? && act.a == a && act.k.Call? }

  // ---------------------------------------------------------------- what one step does

  /** What call k of a leaves behind, as far as the mask, the CPU, the callers and the installed object go. */
  ghost predicate CallEffect(s: State, t: State, a: Id, k: CallAct, pc: CPc)
    requires k.Call?
  {
    && t.callers == s.callers[a := pc]
    && (if EarlyOut(s, k) then
          && pc.Returned? && (pc == Returned(0) <==> s.mask == k.mask)
          && t.mask == s.mask && t.installed == s.installed && t.cpu == s.cpu
        else if s.cpu in k.mask then
          && NoWait(pc) && t.mask == k.mask && t.cpu == s.cpu
          && t.installed == if pc.Completing? then None else s.installed
        else
          && !NoWait(pc) && !pc.Returned? && t.mask == k.mask
          && (t.installed.Some? ==> Joins(pc, t.installed.value)))
  }

  lemma CallEarly(s: State, a: Id, k: CallAct)
    requires Grounded(s) && CallEnabled(s, a, k) && k.Call? && EarlyOut(s, k)
    ensures var t := CallApply(s, a, k); a in t.callers && CallEffect(s, t, a, k, t.callers[a])
  {
    var ret := CallOutIs(s, a, k);
  }

  lemma CallAtHome(s: State, a: Id, k: CallAct)
    requires Grounded(s) && CallEnabled(s, a, k) && k.Call? && !EarlyOut(s, k) && s.cpu in k.mask
    ensures var t := CallApply(s, a, k); a in t.callers && CallEffect(s, t, a, k, t.callers[a])
  {
    if s.installed.None? || s.pend[s.installed.value].stopPending { CallThereIs(s, a, k); }
    else { CallCompletesIs(s, a, k); }
  }

  lemma CallAway(s: State, a: Id, k: CallAct)
    requires Grounded(s) && CallEnabled(s, a, k) && k.Call? && !EarlyOut(s, k) && s.cpu !in k.mask
    ensures var t := CallApply(s, a, k); a in t.callers && CallEffect(s, t, a, k, t.callers[a])
  {
    if s.installed.None? { CallInstalls(s, a, k); } else { CallShares(s, a, k); }
  }

  lemma CallHas(s: State, a: Id, k: CallAct)
    requires Grounded(s) && CallEnabled(s, a, k) && k.Call?
    ensures var t := CallApply(s, a, k); a in t.callers && CallEffect(s, t, a, k, t.callers[a])
  {
    if EarlyOut(s, k) { CallEarly(s, a, k); }
    else if s.cpu in k.mask { CallAtHome(s, a, k); }
    else { CallAway(s, a, k); }
  }

  /** What any other step does: callers move by their own steps, and nobody installs an object. */
  ghost predicate StepEffect(s: State, t: State, act: Action) {
    && t.mask == s.mask && (t.installed == s.installed || t.installed.None?)
    && if act.ByCaller? then
         && act.a in s.callers && act.a in t.callers && t.callers == s.callers[act.a := t.callers[act.a]]
         && MovesOn(s, s.callers[act.a], t.callers[act.a])
       else t.callers == s.callers
  }

  /** A caller of the installed object waits for it further. */
  predicate MovesOn(s: State, pc: CPc, next: CPc) {
    s.installed.Some? && Joins(pc, s.installed.value) ==> Joins(next, s.installed.value)
  }

  lemma CallerHas(s: State, a: Id, k: CallAct)
    requires Inv(s) && CallEnabled(s, a, k) && !k.Call?
    ensures StepEffect(s, CallApply(s, a, k), ByCaller(a, k))
  {
    if s.installed.Some? { assert ObjectInv(s, s.installed.value, s.pend[s.installed.value]); }
    match k
    case QueueWork => QueueWorkIs(s, a);
    case Complete => CompleteIs(s, a);
    case PutRef => PutRefIs(s, a);
    case _ =>
  }

  lemma StopperHas(s: State, c: Cpu, w: StopAct)
    requires Grounded(s) && StopEnabled(s, c, w)
    ensures StepEffect(s, StopApply(s, c, w), ByStopper(c, w))
  {
    match w
    case Pop(id) =>
      var flushed := PopIs(s, c, id);
    case Decide => DecideIs(s, c);
    case _ => AfterStopIs(s, c, w);
  }

  lemma EnableHas(s: State)
    requires TaskInv(s) && TargetInv(s) && TaskEnabled(s, MigrateEnable)
    ensures StepEffect(s, TaskApply(s, MigrateEnable), ByTask(MigrateEnable))
  {
    if EnablesQuietly(s) { QuietEnableIs(s); } else { BusyEnableIs(s); }
  }

  lemma TaskHas(s: State, k: TaskAct)
    requires TaskInv(s) && TargetInv(s) && TaskEnabled(s, k)
    ensures StepEffect(s, TaskApply(s, k), ByTask(k))
  {
    if k.MigrateEnable? { EnableHas(s); }
    else if k.MeQueue? { MeQueueIs(s); }
    else if k.MeComplete? { MeCompleteIs(s); }
  }

  ghost predicate Effect(s: State, t: State, act: Action) {
    if act.ByCaller? && act.k.Call? then act.a in t.callers && CallEffect(s, t, act.a, act.k, t.callers[act.a])
    else StepEffect(s, t, act)
  }

  lemma StepHas(s: State, act: Action)
    requires Inv(s) && Enabled(s, act)
    ensures Effect(s, Apply(s, act), act)
  {
    match act
    case ByCaller(a, k) => if k.Call? { CallHas(s, a, k); } else { CallerHas(s, a, k); }
    case ByStopper(c, w) => StopperHas(s, c, w);
    case ByTask(k) => TaskHas(s, k);
  }

  ghost predicate EffectAt(acts: seq<Action>, ss: seq<State>, i: nat)
    requires i < |acts| < |ss|
  {
    Effect(ss[i], ss[i + 1], acts[i])
  }

  lemma RunEffect(s: State, acts: seq<Action>, ss: seq<State>, i: nat)
    requires i < |acts| < |ss| && Init(s) && IsRun(s, acts, ss)
    ensures EffectAt(acts, ss, i)
  {
    RunInv(s, acts, ss, i);
    StepHas(ss[i], acts[i]);
  }

  ghost predicate Effects(acts: seq<Action>, ss: seq<State>)
  {
    |ss| == |acts| + 1 && forall i :: 0 <= i < |acts| ==> EffectAt(acts, ss, i)
  }

  lemma RunEffects(s: State, acts: seq<Action>, ss: seq<State>)
    requires Init(s) && IsRun(s, acts, ss)
    ensures Effects(acts, ss)
  {
    forall i | 0 <= i < |acts| ensures EffectAt(acts, ss, i) { RunEffect(s, acts, ss, i); }
  }

  // ---------------------------------------------------------------- success without waiting

  /** A call that succeeds without waiting leaves the task on an allowed CPU if and only if it is not one for
      the mask that the task has already and whose CPUs it is outside of. */
  lemma SuccessAtOnce(s: State, acts: seq<Action>, ss: seq<State>, i: nat, a: Id)
    requires i < |acts| < |ss| && IsCallBy(acts[i], a) && a in ss[i + 1].callers && NoWait(ss[i + 1].callers[a])
    requires Init(s) && IsRun(s, acts, ss)
    ensures ss[i + 1].mask == acts[i].k.mask
    ensures ss[i + 1].cpu in ss[i + 1].mask <==> !(acts[i].k.mask == ss[i].mask && ss[i].cpu !in ss[i].mask)
  {
    RunEffect(s, acts, ss, i);
  }

  /** The run's last step is a call of a that returns success; nobody but callers has made a step, so no stopper
      has decided anything; and the task runs on a CPU outside the mask that was asked for. */
  ghost predicate EarlySuccess(acts: seq<Action>, ss: seq<State>, a: Id) {
    && |acts| > 0 && Init(START) && IsRun(START, acts, ss) && IsCallBy(acts[|acts| - 1], a)
    && (forall j :: 0 <= j < |acts| ==> acts[j].ByCaller?)
    && var z := ss[|acts|];
       && a in z.callers && z.callers[a] == Returned(0) && z.mask == acts[|acts| - 1].k.mask
       && z.running && z.queued && z.dis == 0 && Astray(z) && z.installed.Some?
  }

  const ASKED_TWICE := ASKED.(callers := map[10 := Queueing(10, 0), 11 := Returned(0)])

  lemma FirstAsks()
    ensures var act := ByCaller(10, Call({1}, 1, false)); Enabled(START, act) && Apply(START, act) == ASKED
  {}

  lemma SecondAsks()
    ensures var act := ByCaller(11, Call({1}, 1, false)); Enabled(ASKED, act) && Apply(ASKED, act) == ASKED_TWICE
  {
    var ret := CallOutIs(ASKED, 11, Call({1}, 1, false));
  }

  /** Two callers ask for CPU 1 alone. The first has its stop work to queue yet; the second returns success at
      once, with the task running and queued on CPU 0. */
  lemma SecondCallerReturnsEarly()
    ensures exists acts: seq<Action>, ss: seq<State>, a: Id :: EarlySuccess(acts, ss, a)
  {
    var first, second := ByCaller(10, Call({1}, 1, false)), ByCaller(11, Call({1}, 1, false));
    var acts, ss := [first, second], [START, ASKED, ASKED_TWICE];
    FirstAsks();
    SecondAsks();
    assert acts[0] == first && acts[1] == second && ss[0] == START && ss[1] == ASKED && ss[2] == ASKED_TWICE;
    assert EarlySuccess(acts, ss, 11);
  }

  // ---------------------------------------------------------------- every success

  /** The mask is the one a asked for, and no request is installed but the one a waits for. */
  predicate Mine(s: State, a: Id, mask: set<Cpu>) {
    && s.mask == mask && a in s.callers
    && (s.installed.Some? ==> Joins(s.callers[a], s.installed.value))
  }

  lemma StepLeavesMine(s: State, t: State, act: Action, a: Id, mask: set<Cpu>)
    requires Mine(s, a, mask) && Effect(s, t, act) && !IsCallBy(act, a) && t.mask == mask
    ensures Mine(t, a, mask)
  {}

  /** From the call at i on, up to j, a makes no other call, its call is not over, and the mask stays the one it
      asked for. */
  ghost predicate Undisturbed(acts: seq<Action>, ss: seq<State>, i: nat, j: nat, a: Id)
    requires i < j <= |acts| < |ss| && IsCallBy(acts[i], a)
  {
    && (forall k :: i < k < j ==> !IsCallBy(acts[k], a))
    && (forall k :: i < k <= j ==> ss[k].mask == acts[i].k.mask)
    && (forall k :: i < k < j ==> Blocked(ss[k], a))
  }

  predicate Blocked(s: State, a: Id) { a in s.callers && !s.callers[a].Returned? }

  lemma {:induction false} StaysMine(acts: seq<Action>, ss: seq<State>, i: nat, j: nat, a: Id)
    requires Effects(acts, ss) && i < j <= |acts| && IsCallBy(acts[i], a)
    requires Undisturbed(acts, ss, i, j, a) && !EarlyOut(ss[i], acts[i].k) && Blocked(ss[i + 1], a)
    ensures Mine(ss[j], a, acts[i].k.mask)
  {
    if j == i + 1 {
      assert EffectAt(acts, ss, i);
    } else {
      StaysMine(acts, ss, i, j - 1, a);
      assert EffectAt(acts, ss, j - 1) && !IsCallBy(acts[j - 1], a);
      StepLeavesMine(ss[j - 1], ss[j], acts[j - 1], a, acts[i].k.mask);
    }
  }

  lemma SuccessLeavesNone(acts: seq<Action>, ss: seq<State>, i: nat, j: nat, a: Id)
    requires Effects(acts, ss) && i < j <= |acts| && IsCallBy(acts[i], a)
    requires Undisturbed(acts, ss, i, j, a) && !EarlyOut(ss[i], acts[i].k)
    requires a in ss[j].callers && ss[j].callers[a].Returned?
    ensures ss[j].installed.None? || (j == i + 1 && ss[j].cpu in ss[j].mask)
  {
    if j == i + 1 {
      assert EffectAt(acts, ss, i);
    } else {
      assert Blocked(ss[i + 1], a);
      StaysMine(acts, ss, i, j, a);
    }
  }

  lemma EarlyOutIsNoSuccess(acts: seq<Action>, ss: seq<State>, i: nat, j: nat, a: Id)
    requires Effects(acts, ss) && i < j <= |acts| && IsCallBy(acts[i], a) && Undisturbed(acts, ss, i, j, a)
    requires a in ss[j].callers && ss[j].callers[a] == Returned(0) && acts[i].k.mask != ss[i].mask
    ensures !EarlyOut(ss[i], acts[i].k)
  {
    assert EffectAt(acts, ss, i);
    if j > i + 1 { assert Blocked(ss[i + 1], a); }
  }

  ghost predicate AnyBadDecision(acts: seq<Action>, ss: seq<State>, j: nat)
    requires j <= |acts| < |ss|
  {
    exists k :: 0 <= k < j && BadDecision(ss[k], acts[k])
  }

  /** The promise to callers. When a call for a new mask returns success, and the mask has not been changed again
      meanwhile, then no request is left that would move an astray task: it is astray exactly if it is misplaced,
      which takes one of the two bad decisions of a stopper. */
  lemma SuccessMeansPlaced(s: State, acts: seq<Action>, ss: seq<State>, i: nat, j: nat, a: Id)
    requires i < j <= |acts| < |ss| && IsCallBy(acts[i], a) && acts[i].k.mask != ss[i].mask
    requires Undisturbed(acts, ss, i, j, a) && a in ss[j].callers && ss[j].callers[a] == Returned(0)
    requires Init(s) && IsRun(s, acts, ss)
    ensures Astray(ss[j]) <==> Misplaced(ss[j])
    ensures Astray(ss[j]) ==> AnyBadDecision(acts, ss, j)
  {
    RunEffects(s, acts, ss);
    EarlyOutIsNoSuccess(acts, ss, i, j, a);
    SuccessLeavesNone(acts, ss, i, j, a);
    if !AnyBadDecision(acts, ss, j) { NeverMisplaced(s, acts, ss, j); }
  }
}
