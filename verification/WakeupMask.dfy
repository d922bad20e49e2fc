/** Whom a wakeup wakes: only a task whose state has a bit of the waker's mask, and that is what
    try_to_wake_up() answers. The three results speak of states, masks and answers alone. */
module WakeupMask {
  import opened Wakeup

  /** What a waker with this mask looks for in p->__state. */
  predicate HasBit(st: TaskState, mask: set<Bit>) { st.Sleeping? && st.bits * mask != {} }

  /** Waker w looks at p->__state, on the task's own CPU or under pi_lock. */
  predicate Tests(a: Action, w: WakerId) { a.Wake? && a.w == w && (a.a.SelfTest? || a.a.TestState?) }

  predicate Arms(a: Action, w: WakerId) { a.Wake? && a.w == w && a.a.Arm? }

  /** The call of w that begins at step h is its latest before step j. */
  ghost predicate Call(acts: seq<Action>, h: nat, j: nat, w: WakerId) {
    && h < j <= |acts| && Arms(acts[h], w)
    && forall k :: h < k < j ==> !Arms(acts[k], w)
  }

  /** Within the call that begins at step h, step i is the look at p->__state, and it finds a bit of
      the call's mask. */
  ghost predicate Found(acts: seq<Action>, ss: seq<State>, h: nat, i: nat, j: nat, w: WakerId) {
    && |ss| == |acts| + 1 && Call(acts, h, j, w)
    && h < i < j && Tests(acts[i], w) && HasBit(ss[i].st, acts[h].a.mask)
  }

  // ---------------------------------------------------------------- one call

  predicate Waits(pc: WPc, mask: set<Bit>) { pc == Armed(mask) || pc == HavePi(mask) }

  predicate PastTest(pc: WPc, found: bool) {
    match pc
    case Armed(_) => false
    case HavePi(_) => false
    case Release(success) => success == found
    case Done(success) => success == found
    case _ => found
  }

  lemma SchedMovesNoWaker(s: State, c: Cpu, k: SchedAct)
    requires SchedEnabled(s, c, k)
    ensures SchedApply(s, c, k).wakers == s.wakers && SchedApply(s, c, k).st == s.st
  {
  }

  lemma WakeMovesOne(s: State, w: WakerId, k: WakeAct)
    requires WakeEnabled(s, w, k)
    ensures w in WakeApply(s, w, k).wakers && WakeApply(s, w, k).wakers == s.wakers[w := WakeApply(s, w, k).wakers[w]]
  {
  }

  /** A step moves at most the waker whose step it is. */
  lemma OthersStep(s: State, a: Action, w: WakerId)
    requires Enabled(s, a) && !(a.Wake? && a.w == w)
    ensures w in Apply(s, a).wakers <==> w in s.wakers
    ensures w in s.wakers ==> Apply(s, a).wakers[w] == s.wakers[w]
  {
    match a
    case Task(c, t) => assert TaskApply(s, c, t).wakers == s.wakers;
    case Sched(c, k) => SchedMovesNoWaker(s, c, k);
    case Wake(v, k) => WakeMovesOne(s, v, k);
    case _ => assert Apply(s, a).wakers == s.wakers;
  }

  lemma OwnStep(s: State, w: WakerId, k: WakeAct, mask: set<Bit>)
    requires WakeEnabled(s, w, k) && !k.Arm?
    ensures w in WakeApply(s, w, k).wakers
    ensures Waits(s.wakers[w], mask) ==>
      if k.SelfTest? || k.TestState? then PastTest(WakeApply(s, w, k).wakers[w], HasBit(s.st, mask))
      else Waits(WakeApply(s, w, k).wakers[w], mask)
    ensures forall found :: PastTest(s.wakers[w], found) ==>
      !k.SelfTest? && !k.TestState? && PastTest(WakeApply(s, w, k).wakers[w], found)
  {
  }

  /** What one step does to the position of a waker whose call it does not begin. */
  lemma StepOfCall(s: State, a: Action, w: WakerId, mask: set<Bit>)
    requires Enabled(s, a) && w in s.wakers && !Arms(a, w)
    ensures w in Apply(s, a).wakers
    ensures Waits(s.wakers[w], mask) ==>
      if Tests(a, w) then PastTest(Apply(s, a).wakers[w], HasBit(s.st, mask))
      else Waits(Apply(s, a).wakers[w], mask)
    ensures forall found :: PastTest(s.wakers[w], found) ==>
      !Tests(a, w) && PastTest(Apply(s, a).wakers[w], found)
  {
    if a.Wake? && a.w == w { OwnStep(s, w, a.a, mask); } else { OthersStep(s, a, w); }
  }

  lemma {:induction false} BeforeTest(s: State, acts: seq<Action>, ss: seq<State>, h: nat, j: nat, w: WakerId)
    requires IsRun(s, acts, ss) && Call(acts, h, j, w)
    requires forall k :: h < k < j ==> !Tests(acts[k], w)
    ensures w in ss[j].wakers && Waits(ss[j].wakers[w], acts[h].a.mask)
  {
    if j > h + 1 {
      BeforeTest(s, acts, ss, h, j - 1, w);
      StepOfCall(ss[j - 1], acts[j - 1], w, acts[h].a.mask);
    }
  }

  /** After the first look there is no other, and the outcome of it is carried to the end. */
  lemma {:induction false} AfterTest(s: State, acts: seq<Action>, ss: seq<State>, h: nat, i: nat, j: nat, w: WakerId)
    requires IsRun(s, acts, ss) && Call(acts, h, j, w) && h < i < j && Tests(acts[i], w)
    requires forall k :: h < k < i ==> !Tests(acts[k], w)
    ensures w in ss[j].wakers && PastTest(ss[j].wakers[w], HasBit(ss[i].st, acts[h].a.mask))
    ensures forall k :: i < k < j ==> !Tests(acts[k], w)
  {
    if j == i + 1 {
      BeforeTest(s, acts, ss, h, i, w);
    } else {
      AfterTest(s, acts, ss, h, i, j - 1, w);
    }
    StepOfCall(ss[j - 1], acts[j - 1], w, acts[h].a.mask);
  }

  /** The first look of a call before step j, or j. */
  ghost function FirstTest(acts: seq<Action>, k: nat, j: nat, w: WakerId): (i: nat)
    requires k <= j <= |acts|
    ensures k <= i <= j && (i < j ==> Tests(acts[i], w))
    ensures forall m :: k <= m < i ==> !Tests(acts[m], w)
    decreases j - k
  {
    if k == j || Tests(acts[k], w) then k else FirstTest(acts, k + 1, j, w)
  }

  /** A call that has come past its test looked at the state exactly once. */
  lemma OneTest(s: State, acts: seq<Action>, ss: seq<State>, h: nat, j: nat, w: WakerId) returns (i: nat)
    requires IsRun(s, acts, ss) && Call(acts, h, j, w)
    requires w in ss[j].wakers && !ss[j].wakers[w].Armed? && !ss[j].wakers[w].HavePi?
    ensures h < i < j && Tests(acts[i], w) && (forall k :: h < k < j && Tests(acts[k], w) ==> k == i)
    ensures PastTest(ss[j].wakers[w], HasBit(ss[i].st, acts[h].a.mask))
  {
    i := FirstTest(acts, h + 1, j, w);
    if i == j {
      BeforeTest(s, acts, ss, h, j, w);
    } else {
      AfterTest(s, acts, ss, h, i, j, w);
    }
  }

  /** try_to_wake_up() looks at the state exactly once, and it returns 1 if and only if the state then
      had a bit of the caller's mask. */
  lemma AnswerIsTheTest(s: State, acts: seq<Action>, ss: seq<State>, h: nat, j: nat, w: WakerId)
    requires IsRun(s, acts, ss) && Call(acts, h, j, w)
    requires w in ss[j].wakers && ss[j].wakers[w].Done?
    ensures exists i :: h < i < j && Tests(acts[i], w)
    ensures forall i :: h < i < j && Tests(acts[i], w) ==>
      ss[j].wakers[w] == Done(HasBit(ss[i].st, acts[h].a.mask))
  {
    var i := OneTest(s, acts, ss, h, j, w);
  }

  // ---------------------------------------------------------------- who writes the state

  lemma {:induction false} CallOf(c0: Cpu, acts: seq<Action>, ss: seq<State>, j: nat, w: WakerId) returns (h: nat)
    requires IsRun(Init(c0), acts, ss) && j < |ss| && w in ss[j].wakers
    ensures Call(acts, h, j, w)
  {
    if Arms(acts[j - 1], w) {
      h := j - 1;
    } else {
      if !(acts[j - 1].Wake? && acts[j - 1].w == w) { OthersStep(ss[j - 1], acts[j - 1], w); }
      h := CallOf(c0, acts, ss, j - 1, w);
    }
  }

  /** A waker between its test and its answer has found a bit of its mask. */
  lemma FoundBefore(c0: Cpu, acts: seq<Action>, ss: seq<State>, j: nat, w: WakerId)
    requires IsRun(Init(c0), acts, ss) && j < |ss| && w in ss[j].wakers
    requires PastTest(ss[j].wakers[w], true) && !PastTest(ss[j].wakers[w], false)
    ensures exists h, i :: Found(acts, ss, h, i, j, w)
  {
    var h := CallOf(c0, acts, ss, j, w);
    var i := OneTest(Init(c0), acts, ss, h, j, w);
    assert Found(acts, ss, h, i, j, w);
  }

  /** From step k, which sets p->__state to TASK_WAKING, to step j it has that value; the waker that set it
      had found a bit of its mask. */
  ghost predicate SetsWaking(acts: seq<Action>, ss: seq<State>, k: nat, j: nat, w: WakerId) {
    && k < j < |ss| == |acts| + 1 && acts[k] == Wake(w, SetWaking) && (forall m :: k < m <= j ==> ss[m].st == WAKING)
    && exists h, i :: Found(acts, ss, h, i, k, w)
  }

  /** p->__state is TASK_WAKING only since a waker that had found a bit of its mask set it. */
  lemma {:induction false} WakingSince(c0: Cpu, acts: seq<Action>, ss: seq<State>, j: nat)
    requires IsRun(Init(c0), acts, ss) && j < |ss| && ss[j].st == WAKING
    ensures exists k, w :: SetsWaking(acts, ss, k, j, w)
  {
    assert Enabled(ss[j - 1], acts[j - 1]);
    if ss[j - 1].st == WAKING {
      WakingSince(c0, acts, ss, j - 1);
      var k, w :| SetsWaking(acts, ss, k, j - 1, w);
      assert SetsWaking(acts, ss, k, j, w);
    } else {
      var w := acts[j - 1].w;
      assert acts[j - 1] == Wake(w, SetWaking);
      FoundBefore(c0, acts, ss, j - 1, w);
      assert SetsWaking(acts, ss, j - 1, j, w);
    }
  }

  lemma WriterFound(s: State, w: WakerId, k: WakeAct)
    requires WakeEnabled(s, w, k) && WakeApply(s, w, k).st != s.st
    ensures w in s.wakers && PastTest(s.wakers[w], true) && !PastTest(s.wakers[w], false)
  {
  }

  /** Besides the task itself only a waker that found a bit of its mask writes p->__state, or the
      interrupt that ends a wakeup such a waker has begun. */
  lemma OnlyMatchingWakersWrite(c0: Cpu, acts: seq<Action>, ss: seq<State>, j: nat)
    requires IsRun(Init(c0), acts, ss) && j < |acts| && ss[j + 1].st != ss[j].st && !acts[j].Task?
    ensures acts[j].Wake? || (acts[j].Ipi? && ss[j].st == WAKING)
    ensures acts[j].Wake? ==> exists h, i :: Found(acts, ss, h, i, j, acts[j].w)
    ensures acts[j].Ipi? ==> exists k, w :: SetsWaking(acts, ss, k, j, w)
  {
    var a := acts[j];
    match a
    case Wake(w, k) =>
      WriterFound(ss[j], w, k);
      FoundBefore(c0, acts, ss, j, w);
    case Ipi(_) =>
      RunInv(Init(c0), acts, ss, j);
      WakingSince(c0, acts, ss, j);
    case Sched(c, k) =>
      SchedMovesNoWaker(ss[j], c, k);
      assert false;
    case _ => assert false;
  }

  // ---------------------------------------------------------------- whom nobody wakes

  /** No wakeup that meets b is under way. */
  ghost predicate NoneFor(s: State, b: set<Bit>) {
    forall w :: w in s.wakers ==>
      var pc := s.wakers[w];
      if pc.Armed? || pc.HavePi? then pc.mask * b == {} else pc.Release? || pc.Done?
  }

  lemma AsleepSwitches(s: State, c: Cpu, k: SchedAct)
    requires Inv(s) && SchedEnabled(s, c, k) && s.onRq == Off && s.st.Sleeping?
    ensures var t := SchedApply(s, c, k); t.st == s.st && t.onRq == Off && t.wakers == s.wakers
  {
  }

  lemma ArmsElsewhere(s: State, w: WakerId, k: WakeAct, b: set<Bit>)
    requires WakeEnabled(s, w, k) && k.Arm? && k.mask * b == {} && NoneFor(s, b)
    ensures var t := WakeApply(s, w, k); t.st == s.st && t.onRq == s.onRq && NoneFor(t, b)
  {
  }

  lemma WakerPasses(s: State, w: WakerId, k: WakeAct, b: set<Bit>)
    requires WakeEnabled(s, w, k) && !k.Arm? && NoneFor(s, b) && s.st == Sleeping(b)
    ensures var t := WakeApply(s, w, k); t.st == s.st && t.onRq == s.onRq && NoneFor(t, b)
  {
  }

  lemma SleepsOn(s: State, a: Action, b: set<Bit>)
    requires Inv(s) && Enabled(s, a) && s.st == Sleeping(b) && s.onRq == Off && NoneFor(s, b)
    requires a.Wake? && a.a.Arm? ==> a.a.mask * b == {}
    ensures Apply(s, a).st == Sleeping(b) && Apply(s, a).onRq == Off && NoneFor(Apply(s, a), b)
  {
    assert s.wakelist == [] && (s.onCpu ==> SleptPhase(s.cpus[s.cpu]));
    match a
    case Task(c, t) => assert false;
    case Sched(c, k) => AsleepSwitches(s, c, k);
    case Wake(w, k) =>
      if k.Arm? { ArmsElsewhere(s, w, k, b); } else { WakerPasses(s, w, k, b); }
    case _ => assert false;
  }

  /** A task asleep with the bits b stays asleep, off every runqueue, for as long as no waker looks for
      any of them, whatever other wakeups are tried. */
  lemma {:induction false} OnlyItsBitsWakeIt(c0: Cpu, acts: seq<Action>, ss: seq<State>, i: nat, j: nat, b: set<Bit>)
    requires IsRun(Init(c0), acts, ss) && i <= j < |ss|
    requires ss[i].st == Sleeping(b) && ss[i].onRq == Off && NoneFor(ss[i], b)
    requires forall k :: i <= k < j && acts[k].Wake? && acts[k].a.Arm? ==> acts[k].a.mask * b == {}
    ensures ss[j].st == Sleeping(b) && ss[j].onRq == Off && NoneFor(ss[j], b)
  {
    if i < j {
      OnlyItsBitsWakeIt(c0, acts, ss, i, j - 1, b);
      RunInv(Init(c0), acts, ss, j - 1);
      SleepsOn(ss[j - 1], acts[j - 1], b);
    }
  }
}
