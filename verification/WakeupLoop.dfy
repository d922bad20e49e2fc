/** The sleeper's own wait loop: it runs on after __schedule() only when it has been woken, and it leaves the
    loop only with its condition true and its state TASK_RUNNING. */
module WakeupLoop {
  import opened Wakeup

  /** Between the call of __schedule() and its look at p->__state. */
  predicate Deciding(s: State) {
    s.cpu in s.cpus && var p := s.cpus[s.cpu]; (p.Locked? && !p.preempt) || (p.Loaded? && !p.preempt)
  }

  ghost predicate LoopInv(s: State) {
    && (s.prog.TestedTrue? || s.prog.Finished? ==> s.cond)
    && (s.prog.BeforeSet? || s.prog.Finished? ==> s.st == RUNNING)
    && (s.prog.InSchedule? && s.onRq != Off && !Deciding(s) ==> s.st == RUNNING)
  }

  lemma TaskKeepsLoop(s: State, c: Cpu, t: TaskAct)
    requires Inv(s) && LoopInv(s) && TaskEnabled(s, c, t)
    ensures LoopInv(TaskApply(s, c, t))
  {
  }

  lemma SchedKeepsLoop(s: State, c: Cpu, k: SchedAct)
    requires Inv(s) && LoopInv(s) && SchedEnabled(s, c, k)
    ensures LoopInv(SchedApply(s, c, k))
  {
  }

  predicate WritesState(k: WakeAct) { k.SelfSet? || k.TtwuRunnable? || k.SetWaking? || k.QueueLocal? }

  lemma WriterKeepsLoop(s: State, w: WakerId, k: WakeAct)
    requires Inv(s) && LoopInv(s) && WakeEnabled(s, w, k) && WritesState(k)
    ensures LoopInv(WakeApply(s, w, k))
  {
    assert WakerInv(s, w, s.wakers[w]);
  }

  lemma OtherKeepsLoop(s: State, w: WakerId, k: WakeAct)
    requires LoopInv(s) && WakeEnabled(s, w, k) && !WritesState(k)
    requires k.SelectCpu? ==> s.onRq == Off
    ensures LoopInv(WakeApply(s, w, k))
  {
  }

  lemma WakeKeepsLoop(s: State, w: WakerId, k: WakeAct)
    requires Inv(s) && LoopInv(s) && WakeEnabled(s, w, k)
    ensures LoopInv(WakeApply(s, w, k))
  {
    if WritesState(k) {
      WriterKeepsLoop(s, w, k);
    } else {
      if k.SelectCpu? { assert WakerInv(s, w, s.wakers[w]); }
      OtherKeepsLoop(s, w, k);
    }
  }

  lemma StepKeepsLoop(s: State, a: Action)
    requires Inv(s) && LoopInv(s) && Enabled(s, a)
    ensures LoopInv(Apply(s, a))
  {
    match a
    case Task(c, t) => TaskKeepsLoop(s, c, t);
    case Sched(c, k) => SchedKeepsLoop(s, c, k);
    case Wake(w, k) => WakeKeepsLoop(s, w, k);
    case _ =>
  }

  lemma {:induction false} RunKeepsLoop(c0: Cpu, acts: seq<Action>, ss: seq<State>, i: nat)
    requires IsRun(Init(c0), acts, ss) && i < |ss|
    ensures LoopInv(ss[i])
  {
    if i > 0 {
      RunInv(Init(c0), acts, ss, i - 1);
      RunKeepsLoop(c0, acts, ss, i - 1);
      StepKeepsLoop(ss[i - 1], acts[i - 1]);
    }
  }

  /** The task runs on after __schedule() only in TASK_RUNNING, so a sleeper only once it has been woken; and it
      leaves its loop only with the condition true and in TASK_RUNNING. */
  lemma LoopEndsAwake(c0: Cpu, acts: seq<Action>, ss: seq<State>, i: nat, c: Cpu)
    requires IsRun(Init(c0), acts, ss) && i < |ss| && At(ss[i], c, Running)
    ensures ss[i].prog.InSchedule? ==> ss[i].st == RUNNING
    ensures ss[i].prog.Finished? ==> ss[i].cond && ss[i].st == RUNNING
  {
    RunInv(Init(c0), acts, ss, i);
    RunKeepsLoop(c0, acts, ss, i);
  }
}
