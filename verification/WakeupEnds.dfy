/** However the wake side is scheduled, it comes to an end, and then the task is on a runqueue. */
module WakeupEnds {
  import opened Sequences
  import opened Wakeup

  /** Steps of the wake side. A CPU that looks for its next task holds on to the runqueue lock: how often
      it drops the lock is the balancer's affair. */
  predicate Drives(a: Action) { WakeSide(a) && !(a.Sched? && a.k.DropLock?) }

  ghost predicate AllDrive(acts: seq<Action>) { forall i :: 0 <= i < |acts| ==> Drives(acts[i]) }

  /** The steps a waker has before it. */
  function Rank(pc: WPc): nat {
    match pc
    case Armed(_) => 10
    case SelfMatched(_, _) => 9
    case HavePi(_) => 9
    case Matched(_) => 8
    case RqWait(_) => 7
    case MustEnqueue(_) => 6
    case WakingSet => 5
    case Offload(_) => 4
    case Spin => 4
    case Select => 3
    case Target(_) => 2
    case Release(_) => 1
    case Done(_) => 0
  }

  function AtLeast(wakers: map<WakerId, WPc>, r: nat): set<WakerId> {
    set w | w in wakers && Rank(wakers[w]) >= r
  }

  /** The ranks of all wakers, up to r each, added up. */
  function Work(wakers: map<WakerId, WPc>, r: nat): nat {
    if r == 0 then 0 else |AtLeast(wakers, r)| + Work(wakers, r - 1)
  }

  /** The steps the CPU has before it until it runs the task or has left it. */
  function PhaseSteps(p: Phase): nat {
    match p
    case Running => 0
    case Irq(_) => 0
    case Locked(_) => 7
    case Loaded(_, _) => 6
    case Zeroed => 5
    case Picking(_, locked) => if locked then 3 else 4
    case Switching(_) => 2
  }

  function CpuSteps(s: State): nat { if s.cpu in s.cpus then PhaseSteps(s.cpus[s.cpu]) else 0 }

  const ALL: nat := 10

  /** A bound on the steps of the wake side. */
  function Steps(s: State): nat {
    2 * Work(s.wakers, ALL) + CpuSteps(s) + |s.tail| + |s.wakelist| + if s.onRq == Migrating then 1 else 0
  }

  lemma SetAt(wakers: map<WakerId, WPc>, w: WakerId, pc: WPc, r: nat)
    requires w in wakers && Rank(pc) < Rank(wakers[w])
    ensures AtLeast(wakers[w := pc], r) ==
      if Rank(pc) < r <= Rank(wakers[w]) then AtLeast(wakers, r) - {w} else AtLeast(wakers, r)
  {}

  lemma {:induction false} LessWork(wakers: map<WakerId, WPc>, w: WakerId, pc: WPc, r: nat)
    requires w in wakers && Rank(pc) < Rank(wakers[w])
    ensures Work(wakers[w := pc], r) <= Work(wakers, r)
    ensures r >= Rank(wakers[w]) ==> Work(wakers[w := pc], r) < Work(wakers, r)
  {
    if r > 0 {
      SetAt(wakers, w, pc, r);
      LessWork(wakers, w, pc, r - 1);
      assert r == Rank(wakers[w]) ==> w in AtLeast(wakers, r);
    }
  }

  lemma {:induction false} UnlinkLess(xs: seq<Cpu>, c: Cpu)
    requires c in xs
    ensures |Unlink(xs, c)| < |xs|
  {
    if xs[0] != c { UnlinkLess(xs[1..], c); }
  }

  ghost predicate MovesDown(s: State, t: State, w: WakerId)
    requires w in s.wakers
  {
    w in t.wakers && t.wakers == s.wakers[w := t.wakers[w]] && Rank(t.wakers[w]) < Rank(s.wakers[w])
  }

  lemma WakerTests(s: State, w: WakerId, k: WakeAct)
    requires WakeEnabled(s, w, k)
    requires k.SelfTest? || k.SelfSet? || k.LockPi? || k.TestState? || k.LoadOnRq? || k.TtwuRunnable?
    ensures MovesDown(s, WakeApply(s, w, k), w)
  {}

  lemma WakerEnqueues(s: State, w: WakerId, k: WakeAct)
    requires WakeEnabled(s, w, k) && !k.Arm?
    requires !k.SelfTest? && !k.SelfSet? && !k.LockPi? && !k.TestState? && !k.LoadOnRq? && !k.TtwuRunnable?
    ensures MovesDown(s, WakeApply(s, w, k), w)
  {}

  lemma WakerMoves(s: State, w: WakerId, k: WakeAct)
    requires WakeEnabled(s, w, k) && !k.Arm?
    ensures MovesDown(s, WakeApply(s, w, k), w)
  {
    if k.SelfTest? || k.SelfSet? || k.LockPi? || k.TestState? || k.LoadOnRq? || k.TtwuRunnable? {
      WakerTests(s, w, k);
    } else {
      WakerEnqueues(s, w, k);
    }
  }

  lemma WakerElsewhere(s: State, w: WakerId, k: WakeAct)
    requires WakeEnabled(s, w, k) && !k.Arm?
    ensures var t := WakeApply(s, w, k);
      t.tail == s.tail && |t.wakelist| <= |s.wakelist| + 1 && (t.onRq == Migrating ==> s.onRq == Migrating)
  {}

  lemma WakerLeavesCpu(s: State, w: WakerId, k: WakeAct)
    requires Inv(s) && WakeEnabled(s, w, k) && !k.Arm?
    ensures CpuSteps(WakeApply(s, w, k)) <= CpuSteps(s)
  {
    assert WakerInv(s, w, s.wakers[w]);
  }

  lemma WakeDown(s: State, w: WakerId, k: WakeAct)
    requires Inv(s) && WakeEnabled(s, w, k) && !k.Arm?
    ensures Steps(WakeApply(s, w, k)) < Steps(s)
  {
    WakerMoves(s, w, k);
    WakerElsewhere(s, w, k);
    WakerLeavesCpu(s, w, k);
    LessWork(s.wakers, w, WakeApply(s, w, k).wakers[w], ALL);
  }

  lemma TailDown(s: State, c: Cpu, k: SchedAct)
    requires Inv(s) && SchedEnabled(s, c, k) && (k.FinishTask? || k.TailUnlock?)
    ensures Steps(SchedApply(s, c, k)) < Steps(s)
  {
    var t := SchedApply(s, c, k);
    assert c in s.cpus ==> c == s.cpu;
    if k.TailUnlock? {
      assert t.tail == s.tail - {c};
    } else {
      assert t.tail == s.tail + {c} && s.cpu !in t.cpus;
    }
  }

  lemma SchedDown(s: State, c: Cpu, k: SchedAct)
    requires Inv(s) && SchedEnabled(s, c, k) && Drives(Sched(c, k)) && !k.FinishTask? && !k.TailUnlock?
    ensures Steps(SchedApply(s, c, k)) < Steps(s)
  {
    assert c == s.cpu;
  }

  lemma StepDown(s: State, a: Action)
    requires Inv(s) && Enabled(s, a) && Drives(a)
    ensures Steps(Apply(s, a)) < Steps(s)
  {
    match a
    case Sched(c, k) => if k.FinishTask? || k.TailUnlock? { TailDown(s, c, k); } else { SchedDown(s, c, k); }
    case Wake(w, k) => WakeDown(s, w, k);
    case MoveIn =>
    case Ipi(c) =>
      assert c == s.cpu;
      UnlinkLess(s.wakelist, c);
  }

  /** The wake side never runs out of steps while the task is off the runqueues with its condition true. */
  lemma CanDrive(s: State) returns (a: Action)
    requires Inv(s) && s.onRq == Off && s.cond
    ensures Drives(a) && !Refusable(a) && Enabled(s, a)
  {
    a := WakeSideAdvances(s);
  }

  lemma CondStays(s: State, a: Action)
    requires Enabled(s, a) && Drives(a) && s.cond
    ensures Apply(s, a).cond
  {}

  lemma OneStep(s: State, a: Action)
    requires Inv(s) && Enabled(s, a) && Drives(a)
    ensures Inv(Apply(s, a)) && Steps(Apply(s, a)) + 1 <= Steps(s) && (s.cond ==> Apply(s, a).cond)
  {
    StepInv(s, a);
    StepDown(s, a);
    if s.cond { CondStays(s, a); }
  }

  lemma {:induction false} DrivesDown(s: State, acts: seq<Action>, ss: seq<State>, i: nat)
    requires Inv(s) && IsRun(s, acts, ss) && AllDrive(acts) && i < |ss|
    ensures Inv(ss[i]) && Steps(ss[i]) + i <= Steps(s) && (s.cond ==> ss[i].cond)
  {
    if i > 0 {
      DrivesDown(s, acts, ss, i - 1);
      assert Drives(acts[i - 1]);
      OneStep(ss[i - 1], acts[i - 1]);
    }
  }

  /** From any reachable state with the condition true: however the steps of the wake side are interleaved,
      only so many of them are possible, and when none is possible any more but some that can be refused, the
      task is on a runqueue. No spin on on_cpu, no lock and no order of the wakers can keep it off. */
  lemma WakeupCompletes(
    c0: Cpu, acts: seq<Action>, ss: seq<State>, i: nat, more: seq<Action>, ts: seq<State>)
    requires IsRun(Init(c0), acts, ss) && i < |ss| && ss[i].cond
    requires IsRun(ss[i], more, ts) && AllDrive(more)
    ensures |more| <= Steps(ss[i])
    ensures (forall a :: Drives(a) && !Refusable(a) ==> !Enabled(ts[|more|], a)) ==> ts[|more|].onRq == Queued
  {
    RunInv(Init(c0), acts, ss, i);
    DrivesDown(ss[i], more, ts, |more|);
    var z := ts[|more|];
    if z.onRq == Off {
      var a := CanDrive(z);
      assert Drives(a) && !Refusable(a) && Enabled(z, a);
    } else if z.onRq == Migrating {
      var a := MigrationGoesOn(z);
      assert Drives(a) && !Refusable(a) && Enabled(z, a);
    }
  }

  /** Between two runqueues, somebody can let go of the lock of the second, or the task is linked. */
  lemma MigrationGoesOn(s: State) returns (a: Action)
    requires Inv(s) && s.onRq == Migrating
    ensures Drives(a) && !Refusable(a) && Enabled(s, a)
  {
    a := if s.cpu in s.tail then Sched(s.cpu, TailUnlock) else MoveIn;
  }
}
