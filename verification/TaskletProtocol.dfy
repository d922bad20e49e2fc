/** The tasklets of a whole machine: any number of CPUs arm, queue, detach, lock, run and requeue them,
    and take over the lists of dead CPUs. */
module TaskletProtocol {
  import opened Sequences

  type Id = nat
  /** A list: that of one CPU for one of the two softirq vectors. */
  type Q = nat

  /** How far tasklet_action_common() is with the tasklet it took off its detached list. */
  datatype Phase = Taken | Locked | Enabled | Running | Failed

  datatype Hand = Empty | Holding(t: Id, phase: Phase)

  /** Where the tasklet is that the SCHED bit stands for. Armed: its bit was just set by the one who will
      queue it. */
  datatype Place = Nowhere | Armed | Queued(q: Q) | Detached(q: Q) | Held(q: Q)

  /** A tasklet: the SCHED bit; the RUN bit, with the list whose processing set it; whether it is
      disabled; and its place, which is kept for the specification. */
  datatype Tasklet = Tasklet(sched: bool, run: Option<Q>, off: bool, place: Place)

  /** A list, what tasklet_action_common() has detached from it and holds; whether the list's softirq is
      pending, or was taken from the pending word and is about to detach the list. */
  datatype List = List(vec: seq<Id>, work: seq<Id>, hand: Hand, pending: bool, starting: bool)

  datatype State = State(lists: map<Q, List>, tasklets: map<Id, Tasklet>)

  datatype Action =
    | Arm(t: Id)               // test_and_set_bit(TASKLET_STATE_SCHED) found the bit clear
    | Queue(t: Id, q: Q)       // __tasklet_schedule_common()
    | Begin(q: Q)              // __do_softirq() takes the vector from the pending word
    | Detach(q: Q)             // tasklet_action_common() takes the list
    | Take(q: Q)
    | TryLock(q: Q)
    | Check(q: Q)              // atomic_read(&t->count)
    | Clear(q: Q)              // tasklet_clear_sched()
    | Finish(q: Q)             // the callback returns, tasklet_unlock()
    | Again(q: Q)
    | TakeOver(q: Q, dead: Q)  // takeover_tasklets()
    | Toggle(t: Id)            // tasklet_disable(), tasklet_enable()

  predicate Idle(l: List) { l.hand.Empty? && l.work == [] && !l.starting }

  predicate HandIs(s: State, q: Q, phase: Phase) {
    q in s.lists && s.lists[q].hand.Holding? && s.lists[q].hand.t in s.tasklets && s.lists[q].hand.phase == phase
  }

  predicate Possible(s: State, a: Action) {
    match a
    case Arm(t) => t in s.tasklets && !s.tasklets[t].sched
    case Queue(t, q) => t in s.tasklets && s.tasklets[t].place.Armed? && q in s.lists
    case Begin(q) => q in s.lists && s.lists[q].pending && Idle(s.lists[q])
    case Detach(q) => q in s.lists && s.lists[q].starting
    case Take(q) => q in s.lists && s.lists[q].hand.Empty? && s.lists[q].work != [] && s.lists[q].work[0] in s.tasklets
    case TryLock(q) => HandIs(s, q, Taken)
    case Check(q) => HandIs(s, q, Locked)
    case Clear(q) => HandIs(s, q, Enabled)
    case Finish(q) => HandIs(s, q, Running)
    case Again(q) => HandIs(s, q, Failed)
    case TakeOver(q, dead) => q in s.lists && dead in s.lists && q != dead && Idle(s.lists[dead])
    case Toggle(t) => t in s.tasklets
  }

  function With(s: State, q: Q, l: List, t: Id, k: Tasklet): State {
    State(s.lists[q := l], s.tasklets[t := k])
  }

  /** Everything at one place moves to another. */
  function Moved(ts: map<Id, Tasklet>, from: Place, to: Place): map<Id, Tasklet> {
    map t | t in ts :: if ts[t].place == from then ts[t].(place := to) else ts[t]
  }

  function Append(l: List, t: Id): List { l.(vec := l.vec + [t], pending := true) }

  function Queueing(s: State, t: Id, q: Q): State
    requires t in s.tasklets && q in s.lists
  {
    With(s, q, Append(s.lists[q], t), t, s.tasklets[t].(place := Queued(q)))
  }

  function Detaching(s: State, q: Q): State
    requires q in s.lists
  {
    var l := s.lists[q];
    State(s.lists[q := l.(vec := [], work := l.vec, starting := false)], Moved(s.tasklets, Queued(q), Detached(q)))
  }

  function Taking(s: State, q: Q): State
    requires Possible(s, Take(q))
  {
    var l := s.lists[q];
    var t := l.work[0];
    With(s, q, l.(work := l.work[1..], hand := Holding(t, Taken)), t, s.tasklets[t].(place := Held(q)))
  }

  function Locking(s: State, q: Q): State
    requires HandIs(s, q, Taken)
  {
    var l := s.lists[q];
    var k := s.tasklets[l.hand.t];
    if k.run.Some? then With(s, q, l.(hand := Holding(l.hand.t, Failed)), l.hand.t, k)
    else With(s, q, l.(hand := Holding(l.hand.t, Locked)), l.hand.t, k.(run := Some(q)))
  }

  function Checking(s: State, q: Q): State
    requires HandIs(s, q, Locked)
  {
    var l := s.lists[q];
    var k := s.tasklets[l.hand.t];
    if k.off then With(s, q, l.(hand := Holding(l.hand.t, Failed)), l.hand.t, k.(run := None))
    else With(s, q, l.(hand := Holding(l.hand.t, Enabled)), l.hand.t, k)
  }

  /** The callback starts only if the bit was set; otherwise there is a warning and the lock is let go. */
  function Clearing(s: State, q: Q): State
    requires HandIs(s, q, Enabled)
  {
    var l := s.lists[q];
    var k := s.tasklets[l.hand.t];
    if k.sched then With(s, q, l.(hand := Holding(l.hand.t, Running)), l.hand.t, k.(sched := false, place := Nowhere))
    else With(s, q, l.(hand := Empty), l.hand.t, k.(run := None))
  }

  function Finishing(s: State, q: Q): State
    requires HandIs(s, q, Running)
  {
    var l := s.lists[q];
    With(s, q, l.(hand := Empty), l.hand.t, s.tasklets[l.hand.t].(run := None))
  }

  function Requeueing(s: State, q: Q): State
    requires HandIs(s, q, Failed)
  {
    var l := s.lists[q];
    With(s, q, Append(l, l.hand.t).(hand := Empty), l.hand.t, s.tasklets[l.hand.t].(place := Queued(q)))
  }

  function TakingOver(s: State, q: Q, dead: Q): State
    requires q in s.lists && dead in s.lists
  {
    var l, d := s.lists[q], s.lists[dead];
    State(s.lists[q := l.(vec := l.vec + d.vec, pending := true)][dead := d.(vec := [])],
          Moved(s.tasklets, Queued(dead), Queued(q)))
  }

  function Next(s: State, a: Action): State
    requires Possible(s, a)
  {
    match a
    case Arm(t) => s.(tasklets := s.tasklets[t := s.tasklets[t].(sched := true, place := Armed)])
    case Queue(t, q) => Queueing(s, t, q)
    case Begin(q) => s.(lists := s.lists[q := s.lists[q].(pending := false, starting := true)])
    case Detach(q) => Detaching(s, q)
    case Take(q) => Taking(s, q)
    case TryLock(q) => Locking(s, q)
    case Check(q) => Checking(s, q)
    case Clear(q) => Clearing(s, q)
    case Finish(q) => Finishing(s, q)
    case Again(q) => Requeueing(s, q)
    case TakeOver(q, dead) => TakingOver(s, q, dead)
    case Toggle(t) => s.(tasklets := s.tasklets[t := s.tasklets[t].(off := !s.tasklets[t].off)])
  }

  // ---------------------------------------------------------------- the invariant

  /** Each tasklet of a sequence is there once and knows its place. */
  ghost predicate AllAt(ts: map<Id, Tasklet>, list: seq<Id>, here: Place) {
    Distinct(list) && forall i :: 0 <= i < |list| ==> list[i] in ts && ts[list[i]].place == here
  }

  /** The hand has t, whose SCHED bit is still set. */
  predicate Keeps(h: Hand, t: Id) { h.Holding? && h.t == t && h.phase != Running }

  predicate HasLock(h: Hand, t: Id) {
    h.Holding? && h.t == t && (h.phase.Locked? || h.phase.Enabled? || h.phase.Running?)
  }

  ghost predicate HandOk(ts: map<Id, Tasklet>, q: Q, h: Hand) {
    h.Holding? ==>
      && h.t in ts
      && (h.phase != Running ==> ts[h.t].place == Held(q))
      && (HasLock(h, h.t) ==> ts[h.t].run == Some(q))
  }

  /** A list with a tasklet on it is going to be processed, and is detached only between two rounds. */
  predicate FlagsOk(l: List) {
    && (l.vec != [] ==> l.pending || l.starting)
    && (l.starting ==> l.hand.Empty? && l.work == [])
  }

  ghost predicate ListOk(ts: map<Id, Tasklet>, q: Q, l: List) {
    AllAt(ts, l.vec, Queued(q)) && AllAt(ts, l.work, Detached(q)) && HandOk(ts, q, l.hand) && FlagsOk(l)
  }

  /** A tasklet with the SCHED bit is where its place says; one with the RUN bit is locked there. */
  predicate TaskletOk(ls: map<Q, List>, t: Id, k: Tasklet) {
    && (k.sched <==> k.place != Nowhere)
    && (k.place.Queued? ==> k.place.q in ls && t in ls[k.place.q].vec)
    && (k.place.Detached? ==> k.place.q in ls && t in ls[k.place.q].work)
    && (k.place.Held? ==> k.place.q in ls && Keeps(ls[k.place.q].hand, t))
    && (k.run.Some? ==> k.run.value in ls && HasLock(ls[k.run.value].hand, t))
  }

  ghost predicate ListsOk(s: State) { forall q :: q in s.lists ==> ListOk(s.tasklets, q, s.lists[q]) }

  ghost predicate TaskletsOk(s: State) { forall t :: t in s.tasklets ==> TaskletOk(s.lists, t, s.tasklets[t]) }

  ghost predicate Inv(s: State) { ListsOk(s) && TaskletsOk(s) }

  /** Nothing is scheduled. */
  ghost predicate Initial(s: State) {
    && (forall q :: q in s.lists ==> s.lists[q] == List([], [], Empty, false, false))
    && (forall t :: t in s.tasklets ==> s.tasklets[t] == Tasklet(false, None, s.tasklets[t].off, Nowhere))
  }

  ghost predicate StepTo(s: State, a: Action, n: State) { Possible(s, a) && n == Next(s, a) }

  /** The states ss[0], ss[1], ... are those a machine goes through that starts with nothing scheduled
      and takes the steps acts. */
  ghost predicate IsRun(acts: seq<Action>, ss: seq<State>) {
    && |ss| == |acts| + 1 && Initial(ss[0])
    && forall i :: 0 <= i < |acts| ==> StepTo(ss[i], acts[i], ss[i + 1])
  }

  // ---------------------------------------------------------------- every step keeps it

  /** The place is at list q or at none. */
  predicate PlaceAt(p: Place, q: Q) { p.Nowhere? || p.Armed? || p.q == q }

  /** A change of tasklet t that other lists than q need not care about. */
  predicate Local(k: Tasklet, k': Tasklet, q: Q) {
    && (PlaceAt(k.place, q) || k'.place == k.place)
    && (k'.run == k.run || k.run.None? || k.run == Some(q))
  }

  lemma OtherList(ts: map<Id, Tasklet>, t: Id, k: Tasklet, q: Q, p: Q, l: List)
    requires ListOk(ts, p, l) && p != q && t in ts && Local(ts[t], k, q)
    ensures ListOk(ts[t := k], p, l)
  {}

  /** List q still has of tasklet u what its state relies on. */
  predicate StillHas(l: List, l': List, u: Id) {
    && (u in l.vec ==> u in l'.vec)
    && (u in l.work ==> u in l'.work)
    && (Keeps(l.hand, u) ==> Keeps(l'.hand, u))
    && (HasLock(l.hand, u) ==> HasLock(l'.hand, u))
  }

  /** A step that changes one list and one tasklet. */
  lemma LocalStep(s: State, q: Q, l: List, t: Id, k: Tasklet)
    requires Inv(s) && q in s.lists && t in s.tasklets && Local(s.tasklets[t], k, q)
    requires ListOk(s.tasklets[t := k], q, l)
    requires TaskletOk(s.lists[q := l], t, k)
    requires forall u :: u in s.tasklets && u != t ==> StillHas(s.lists[q], l, u)
    ensures Inv(With(s, q, l, t, k))
  {
    var n := With(s, q, l, t, k);
    forall p | p in n.lists ensures ListOk(n.tasklets, p, n.lists[p]) {
      if p != q { OtherList(s.tasklets, t, k, q, p, s.lists[p]); }
    }
    forall u | u in n.tasklets ensures TaskletOk(n.lists, u, n.tasklets[u]) {
      if u != t {
        assert TaskletOk(s.lists, u, s.tasklets[u]) && StillHas(s.lists[q], l, u);
      }
    }
  }

  lemma ArmKeeps(s: State, t: Id)
    requires Inv(s) && Possible(s, Arm(t))
    ensures Inv(Next(s, Arm(t)))
  {
    var n, k := Next(s, Arm(t)), s.tasklets[t];
    assert TaskletOk(s.lists, t, k);
    forall p | p in n.lists ensures ListOk(n.tasklets, p, n.lists[p]) {
      assert ListOk(s.tasklets, p, s.lists[p]);
    }
    forall u | u in n.tasklets ensures TaskletOk(n.lists, u, n.tasklets[u]) {
      assert TaskletOk(s.lists, u, s.tasklets[u]);
    }
  }

  lemma ToggleKeeps(s: State, t: Id)
    requires Inv(s) && Possible(s, Toggle(t))
    ensures Inv(Next(s, Toggle(t)))
  {
    var n := Next(s, Toggle(t));
    forall p | p in n.lists ensures ListOk(n.tasklets, p, n.lists[p]) {
      assert ListOk(s.tasklets, p, s.lists[p]);
    }
    forall u | u in n.tasklets ensures TaskletOk(n.lists, u, n.tasklets[u]) {
      assert TaskletOk(s.lists, u, s.tasklets[u]);
    }
  }

  /** A tasklet that is on no list comes to the end of one. */
  lemma AppendAt(ts: map<Id, Tasklet>, list: seq<Id>, t: Id, k: Tasklet, here: Place)
    requires AllAt(ts, list, here) && t in ts && ts[t].place != here && k.place == here
    ensures AllAt(ts[t := k], list + [t], here)
  {}

  lemma UntouchedAt(ts: map<Id, Tasklet>, list: seq<Id>, t: Id, k: Tasklet, here: Place)
    requires AllAt(ts, list, here) && t in ts && ts[t].place != here
    ensures AllAt(ts[t := k], list, here)
  {}

  lemma QueueKeeps(s: State, t: Id, q: Q)
    requires Inv(s) && Possible(s, Queue(t, q))
    ensures Inv(Queueing(s, t, q))
  {
    var l, k := s.lists[q], s.tasklets[t].(place := Queued(q));
    assert ListOk(s.tasklets, q, l) && TaskletOk(s.lists, t, s.tasklets[t]);
    AppendAt(s.tasklets, l.vec, t, k, Queued(q));
    UntouchedAt(s.tasklets, l.work, t, k, Detached(q));
    LocalStep(s, q, Append(l, t), t, k);
  }

  lemma BeginKeeps(s: State, q: Q)
    requires Inv(s) && Possible(s, Begin(q))
    ensures Inv(Next(s, Begin(q)))
  {
    var n := Next(s, Begin(q));
    forall p | p in n.lists ensures ListOk(n.tasklets, p, n.lists[p]) {
      assert ListOk(s.tasklets, p, s.lists[p]);
    }
    forall u | u in n.tasklets ensures TaskletOk(n.lists, u, n.tasklets[u]) {
      assert TaskletOk(s.lists, u, s.tasklets[u]);
    }
  }

  /** The first tasklet of a list leaves it. */
  lemma HeadLeaves(ts: map<Id, Tasklet>, list: seq<Id>, t: Id, k: Tasklet, here: Place)
    requires AllAt(ts, list, here) && list != [] && t == list[0]
    ensures AllAt(ts[t := k], list[1..], here)
    ensures forall u :: u in list && u != t ==> u in list[1..]
  {
    var rest := list[1..];
    assert list == [t] + rest;
    forall i | 0 <= i < |rest| ensures rest[i] in ts && rest[i] != t && ts[rest[i]].place == here {
      assert rest[i] == list[i + 1];
    }
    forall i, j | 0 <= i < j < |rest| ensures rest[i] != rest[j] {
      assert rest[i] == list[i + 1] && rest[j] == list[j + 1];
    }
  }

  lemma TakeKeeps(s: State, q: Q)
    requires Inv(s) && Possible(s, Take(q))
    ensures Inv(Taking(s, q))
  {
    var l := s.lists[q];
    var t := l.work[0];
    var k := s.tasklets[t].(place := Held(q));
    assert ListOk(s.tasklets, q, l) && TaskletOk(s.lists, t, s.tasklets[t]);
    UntouchedAt(s.tasklets, l.vec, t, k, Queued(q));
    HeadLeaves(s.tasklets, l.work, t, k, Detached(q));
    LocalStep(s, q, l.(work := l.work[1..], hand := Holding(t, Taken)), t, k);
  }

  /** A step of tasklet_action_common() with the tasklet in hand that leaves the lists as they are. */
  lemma HandStep(s: State, q: Q, h: Hand, k: Tasklet)
    requires Inv(s) && q in s.lists && s.lists[q].hand.Holding? && s.lists[q].hand.t in s.tasklets
    requires h.Holding? ==> h.t == s.lists[q].hand.t
    requires Local(s.tasklets[s.lists[q].hand.t], k, q)
    requires s.tasklets[s.lists[q].hand.t].place == k.place || s.tasklets[s.lists[q].hand.t].place.Held?
    requires HandOk(s.tasklets[s.lists[q].hand.t := k], q, h)
    requires TaskletOk(s.lists[q := s.lists[q].(hand := h)], s.lists[q].hand.t, k)
    ensures Inv(With(s, q, s.lists[q].(hand := h), s.lists[q].hand.t, k))
  {
    var l := s.lists[q];
    assert ListOk(s.tasklets, q, l);
    LocalStep(s, q, l.(hand := h), l.hand.t, k);
  }

  lemma LockingKeeps(s: State, q: Q)
    requires Inv(s) && Possible(s, TryLock(q))
    ensures Inv(Locking(s, q))
  {
    var l := s.lists[q];
    var k := s.tasklets[l.hand.t];
    assert ListOk(s.tasklets, q, l) && TaskletOk(s.lists, l.hand.t, k);
    if k.run.Some? { HandStep(s, q, Holding(l.hand.t, Failed), k); }
    else { HandStep(s, q, Holding(l.hand.t, Locked), k.(run := Some(q))); }
  }

  lemma CheckingKeeps(s: State, q: Q)
    requires Inv(s) && Possible(s, Check(q))
    ensures Inv(Checking(s, q))
  {
    var l := s.lists[q];
    var k := s.tasklets[l.hand.t];
    assert ListOk(s.tasklets, q, l) && TaskletOk(s.lists, l.hand.t, k);
    if k.off { HandStep(s, q, Holding(l.hand.t, Failed), k.(run := None)); }
    else { HandStep(s, q, Holding(l.hand.t, Enabled), k); }
  }

  lemma ClearingKeeps(s: State, q: Q)
    requires Inv(s) && Possible(s, Clear(q))
    ensures s.tasklets[s.lists[q].hand.t].sched && Inv(Clearing(s, q))
  {
    var l := s.lists[q];
    var k := s.tasklets[l.hand.t];
    assert ListOk(s.tasklets, q, l) && TaskletOk(s.lists, l.hand.t, k);
    HandStep(s, q, Holding(l.hand.t, Running), k.(sched := false, place := Nowhere));
  }

  lemma FinishKeeps(s: State, q: Q)
    requires Inv(s) && Possible(s, Finish(q))
    ensures Inv(Finishing(s, q))
  {
    var l := s.lists[q];
    var k := s.tasklets[l.hand.t];
    assert ListOk(s.tasklets, q, l) && TaskletOk(s.lists, l.hand.t, k);
    assert k.run == Some(q);
    var m := k.(run := None);
    LocalStep(s, q, l.(hand := Empty), l.hand.t, m);
  }

  lemma AgainKeeps(s: State, q: Q)
    requires Inv(s) && Possible(s, Again(q))
    ensures Inv(Requeueing(s, q))
  {
    var l := s.lists[q];
    var t, k := l.hand.t, s.tasklets[l.hand.t].(place := Queued(q));
    assert ListOk(s.tasklets, q, l) && TaskletOk(s.lists, t, s.tasklets[t]);
    AppendAt(s.tasklets, l.vec, t, k, Queued(q));
    UntouchedAt(s.tasklets, l.work, t, k, Detached(q));
    LocalStep(s, q, Append(l, t).(hand := Empty), t, k);
  }

  /** Moving everything at one place, where a list's tasklets are, to another where nothing is. */
  lemma MovedAt(ts: map<Id, Tasklet>, list: seq<Id>, from: Place, to: Place)
    requires AllAt(ts, list, from)
    ensures AllAt(Moved(ts, from, to), list, to)
  {}

  lemma MovedElsewhere(ts: map<Id, Tasklet>, list: seq<Id>, from: Place, to: Place, here: Place)
    requires AllAt(ts, list, here) && here != from
    ensures AllAt(Moved(ts, from, to), list, here)
  {}

  lemma MovedHand(ts: map<Id, Tasklet>, q: Q, h: Hand, from: Place, to: Place)
    requires HandOk(ts, q, h) && !from.Held?
    ensures HandOk(Moved(ts, from, to), q, h)
  {}

  lemma DetachKeeps(s: State, q: Q)
    requires Inv(s) && Possible(s, Detach(q))
    ensures Inv(Detaching(s, q))
  {
    var n, from, to := Detaching(s, q), Queued(q), Detached(q);
    forall p | p in n.lists ensures ListOk(n.tasklets, p, n.lists[p]) {
      var l := s.lists[p];
      assert ListOk(s.tasklets, p, l);
      MovedHand(s.tasklets, p, l.hand, from, to);
      MovedElsewhere(s.tasklets, l.work, from, to, Detached(p));
      if p == q { MovedAt(s.tasklets, l.vec, from, to); }
      else { MovedElsewhere(s.tasklets, l.vec, from, to, Queued(p)); }
    }
    forall u | u in n.tasklets ensures TaskletOk(n.lists, u, n.tasklets[u]) {
      assert TaskletOk(s.lists, u, s.tasklets[u]) && FlagsOk(s.lists[q]);
    }
  }

  lemma JoinedAt(ts: map<Id, Tasklet>, mine: seq<Id>, theirs: seq<Id>, from: Place, to: Place)
    requires AllAt(ts, mine, to) && AllAt(ts, theirs, from) && from != to
    ensures AllAt(Moved(ts, from, to), mine + theirs, to)
  {
    var all := mine + theirs;
    forall i | 0 <= i < |all| ensures all[i] in ts && (ts[all[i]].place == to || ts[all[i]].place == from) {}
    forall i, j | 0 <= i < j < |all| ensures all[i] != all[j] {
      if i < |mine| <= j { assert ts[all[i]].place == to && ts[all[j]].place == from; }
    }
  }

  lemma TakenList(s: State, q: Q, dead: Q, p: Q)
    requires ListsOk(s) && q in s.lists && dead in s.lists && q != dead && p in s.lists
    ensures var n := TakingOver(s, q, dead); ListOk(n.tasklets, p, n.lists[p])
  {
    var l, from, to := s.lists[p], Queued(dead), Queued(q);
    assert ListOk(s.tasklets, p, l) && ListOk(s.tasklets, dead, s.lists[dead]);
    MovedHand(s.tasklets, p, l.hand, from, to);
    MovedElsewhere(s.tasklets, l.work, from, to, Detached(p));
    if p == q { JoinedAt(s.tasklets, l.vec, s.lists[dead].vec, from, to); }
    else if p != dead { MovedElsewhere(s.tasklets, l.vec, from, to, Queued(p)); }
  }

  lemma TakenTasklet(s: State, q: Q, dead: Q, u: Id)
    requires q in s.lists && dead in s.lists && q != dead && u in s.tasklets
    requires TaskletOk(s.lists, u, s.tasklets[u])
    ensures var n := TakingOver(s, q, dead); u in n.tasklets && TaskletOk(n.lists, u, n.tasklets[u])
  {}

  lemma TakingOverKeeps(s: State, q: Q, dead: Q)
    requires Inv(s) && Possible(s, TakeOver(q, dead))
    ensures Inv(TakingOver(s, q, dead))
  {
    var n := TakingOver(s, q, dead);
    forall p | p in n.lists ensures ListOk(n.tasklets, p, n.lists[p]) { TakenList(s, q, dead, p); }
    forall u | u in n.tasklets ensures TaskletOk(n.lists, u, n.tasklets[u]) {
      assert TaskletOk(s.lists, u, s.tasklets[u]);
      TakenTasklet(s, q, dead, u);
    }
  }

  lemma StepInv(s: State, a: Action)
    requires Inv(s) && Possible(s, a)
    ensures Inv(Next(s, a))
  {
    match a
    case Arm(t) => ArmKeeps(s, t);
    case Queue(t, q) => QueueKeeps(s, t, q);
    case Begin(q) => BeginKeeps(s, q);
    case Detach(q) => DetachKeeps(s, q);
    case Take(q) => TakeKeeps(s, q);
    case TryLock(q) => LockingKeeps(s, q);
    case Check(q) => CheckingKeeps(s, q);
    case Clear(q) => ClearingKeeps(s, q);
    case Finish(q) => FinishKeeps(s, q);
    case Again(q) => AgainKeeps(s, q);
    case TakeOver(q, dead) => TakingOverKeeps(s, q, dead);
    case Toggle(t) => ToggleKeeps(s, t);
  }

  lemma {:induction false} RunInv(acts: seq<Action>, ss: seq<State>, i: nat)
    requires IsRun(acts, ss) && i < |ss|
    ensures Inv(ss[i])
  {
    if i > 0 {
      RunInv(acts, ss, i - 1);
      assert StepTo(ss[i - 1], acts[i - 1], ss[i]);
      StepInv(ss[i - 1], acts[i - 1]);
    }
  }

  // ---------------------------------------------------------------- what it means

  /** Somewhere a scheduled tasklet can be. */
  datatype Spot = InArms | OnList(q: Q, i: nat) | OnDetached(q: Q, i: nat) | InHand(q: Q)

  predicate At(s: State, t: Id, p: Spot) {
    match p
    case InArms => t in s.tasklets && s.tasklets[t].place.Armed?
    case OnList(q, i) => q in s.lists && i < |s.lists[q].vec| && s.lists[q].vec[i] == t
    case OnDetached(q, i) => q in s.lists && i < |s.lists[q].work| && s.lists[q].work[i] == t
    case InHand(q) => q in s.lists && Keeps(s.lists[q].hand, t)
  }

  function PlaceOf(p: Spot): Place {
    match p
    case InArms => Armed
    case OnList(q, _) => Queued(q)
    case OnDetached(q, _) => Detached(q)
    case InHand(q) => Held(q)
  }

  lemma SpotFixesPlace(s: State, t: Id, p: Spot)
    requires Inv(s) && At(s, t, p)
    ensures t in s.tasklets && s.tasklets[t].place == PlaceOf(p)
  {
    if !p.InArms? { assert ListOk(s.tasklets, p.q, s.lists[p.q]); }
  }

  lemma OneSpot(s: State, t: Id, p: Spot, r: Spot)
    requires Inv(s) && At(s, t, p) && At(s, t, r)
    ensures p == r
  {
    SpotFixesPlace(s, t, p);
    SpotFixesPlace(s, t, r);
    if !p.InArms? { assert ListOk(s.tasklets, p.q, s.lists[p.q]); }
  }

  lemma TheSpot(s: State, t: Id) returns (p: Spot)
    requires Inv(s) && t in s.tasklets && s.tasklets[t].sched
    ensures At(s, t, p)
  {
    assert TaskletOk(s.lists, t, s.tasklets[t]);
    match s.tasklets[t].place
    case Armed => p := InArms;
    case Queued(q) =>
      var i: nat :| i < |s.lists[q].vec| && s.lists[q].vec[i] == t;
      p := OnList(q, i);
    case Detached(q) =>
      var i: nat :| i < |s.lists[q].work| && s.lists[q].work[i] == t;
      p := OnDetached(q, i);
    case Held(q) => p := InHand(q);
  }

  /** In every reachable state a tasklet whose SCHED bit is set is in exactly one spot, and one whose bit
      is clear is in none. */
  lemma ExactlyOneSpot(acts: seq<Action>, ss: seq<State>, i: nat, t: Id)
    requires IsRun(acts, ss) && i < |ss| && t in ss[i].tasklets
    ensures ss[i].tasklets[t].sched <==> exists p :: At(ss[i], t, p)
    ensures forall p, r :: At(ss[i], t, p) && At(ss[i], t, r) ==> p == r
  {
    RunInv(acts, ss, i);
    var s := ss[i];
    assert TaskletOk(s.lists, t, s.tasklets[t]);
    if s.tasklets[t].sched {
      var p := TheSpot(s, t);
    }
    forall p | At(s, t, p) ensures s.tasklets[t].sched {
      SpotFixesPlace(s, t, p);
    }
    forall p, r | At(s, t, p) && At(s, t, r) ensures p == r {
      OneSpot(s, t, p, r);
    }
  }

  /** No tasklet runs on two CPUs at once. */
  lemma RunsOnOneCpu(acts: seq<Action>, ss: seq<State>, i: nat, p: Q, q: Q)
    requires IsRun(acts, ss) && i < |ss| && HandIs(ss[i], p, Running) && HandIs(ss[i], q, Running)
    requires ss[i].lists[p].hand.t == ss[i].lists[q].hand.t
    ensures p == q
  {
    RunInv(acts, ss, i);
    var s := ss[i];
    assert ListOk(s.tasklets, p, s.lists[p]) && ListOk(s.tasklets, q, s.lists[q]);
  }

  /** A scheduled tasklet stays so until its callback starts, and the warning of tasklet_clear_sched()
      never fires. */
  lemma LeavesOnlyByRunning(acts: seq<Action>, ss: seq<State>, i: nat, t: Id)
    requires IsRun(acts, ss) && i < |acts| && t in ss[i].tasklets
    ensures t in ss[i + 1].tasklets
    ensures acts[i].Clear? ==>
      ss[i].tasklets[ss[i].lists[acts[i].q].hand.t].sched && HandIs(ss[i + 1], acts[i].q, Running)
    ensures ss[i].tasklets[t].sched && !ss[i + 1].tasklets[t].sched ==>
      acts[i].Clear? && ss[i].lists[acts[i].q].hand.t == t
  {
    RunInv(acts, ss, i);
    assert StepTo(ss[i], acts[i], ss[i + 1]);
    if acts[i].Clear? { ClearingKeeps(ss[i], acts[i].q); }
  }

  /** At step k the processing of list q, which has the RUN bit of t, finds t enabled; from then on until step i
      it has t in hand, about to start the callback. */
  ghost predicate FoundEnabled(acts: seq<Action>, ss: seq<State>, k: nat, i: nat, q: Q, t: Id) {
    && k < i < |ss| == |acts| + 1 && acts[k] == Check(q)
    && t in ss[k].tasklets && !ss[k].tasklets[t].off && ss[k].tasklets[t].run == Some(q)
    && forall m :: k < m <= i ==> q in ss[m].lists && ss[m].lists[q].hand == Holding(t, Enabled)
  }

  /** Whether a tasklet in hand is enabled is found out by the check alone. */
  lemma HandKept(s: State, a: Action, q: Q)
    requires Possible(s, a) && a != Check(q) && q in Next(s, a).lists
    ensures q in s.lists
    ensures var h := Next(s, a).lists[q].hand; h == s.lists[q].hand || h.Empty? || h.phase != Enabled
  {
  }

  lemma BecomesEnabled(s: State, a: Action, q: Q, t: Id)
    requires Inv(s) && Possible(s, a) && q in Next(s, a).lists && Next(s, a).lists[q].hand == Holding(t, Enabled)
    ensures q in s.lists
    ensures s.lists[q].hand != Holding(t, Enabled) ==>
      a == Check(q) && t in s.tasklets && !s.tasklets[t].off && s.tasklets[t].run == Some(q)
  {
    if a == Check(q) {
      assert ListOk(s.tasklets, q, s.lists[q]);
    } else {
      HandKept(s, a, q);
    }
  }

  lemma {:induction false} EnabledSince(acts: seq<Action>, ss: seq<State>, i: nat, q: Q, t: Id) returns (k: nat)
    requires IsRun(acts, ss) && i < |ss| && q in ss[i].lists && ss[i].lists[q].hand == Holding(t, Enabled)
    ensures FoundEnabled(acts, ss, k, i, q, t)
  {
    assert StepTo(ss[i - 1], acts[i - 1], ss[i]);
    RunInv(acts, ss, i - 1);
    BecomesEnabled(ss[i - 1], acts[i - 1], q, t);
    if ss[i - 1].lists[q].hand == Holding(t, Enabled) {
      k := EnabledSince(acts, ss, i - 1, q, t);
    } else {
      k := i - 1;
    }
  }

  /** A callback starts only if its tasklet was enabled when it was checked under the RUN bit. */
  lemma StartsOnlyIfEnabled(acts: seq<Action>, ss: seq<State>, i: nat, q: Q, t: Id)
    requires IsRun(acts, ss) && i < |acts| && q in ss[i].lists && q in ss[i + 1].lists
    requires ss[i].lists[q].hand != Holding(t, Running) && ss[i + 1].lists[q].hand == Holding(t, Running)
    ensures exists k :: FoundEnabled(acts, ss, k, i, q, t)
  {
    assert StepTo(ss[i], acts[i], ss[i + 1]);
    assert ss[i].lists[q].hand == Holding(t, Enabled);
    var k := EnabledSince(acts, ss, i, q, t);
  }

  /** At step k the processing of list q finds t locked by another list's processing, or disabled; from then on
      until step i it has t in hand, about to queue it again. */
  ghost predicate FoundBusy(acts: seq<Action>, ss: seq<State>, k: nat, i: nat, q: Q, t: Id) {
    && k < i < |ss| == |acts| + 1 && t in ss[k].tasklets
    && (|| (acts[k] == TryLock(q) && ss[k].tasklets[t].run.Some? && ss[k].tasklets[t].run != Some(q))
        || (acts[k] == Check(q) && ss[k].tasklets[t].off))
    && forall m :: k < m <= i ==> q in ss[m].lists && ss[m].lists[q].hand == Holding(t, Failed)
  }

  lemma BecomesFailed(s: State, a: Action, q: Q, t: Id)
    requires Inv(s) && Possible(s, a) && q in Next(s, a).lists && Next(s, a).lists[q].hand == Holding(t, Failed)
    ensures q in s.lists
    ensures s.lists[q].hand == Holding(t, Failed) || t in s.tasklets
    ensures s.lists[q].hand == Holding(t, Failed)
      || (a == TryLock(q) && s.tasklets[t].run.Some? && s.tasklets[t].run != Some(q))
      || (a == Check(q) && s.tasklets[t].off)
  {
    if a == TryLock(q) {
      assert TaskletOk(s.lists, s.lists[q].hand.t, s.tasklets[s.lists[q].hand.t]);
    } else if a != Check(q) {
      FailureKept(s, a, q);
    }
  }

  lemma FailureKept(s: State, a: Action, q: Q)
    requires Possible(s, a) && a != Check(q) && a != TryLock(q) && q in Next(s, a).lists
    ensures q in s.lists
    ensures var h := Next(s, a).lists[q].hand; h == s.lists[q].hand || h.Empty? || h.phase != Failed
  {
  }

  lemma {:induction false} FailedSince(acts: seq<Action>, ss: seq<State>, i: nat, q: Q, t: Id) returns (k: nat)
    requires IsRun(acts, ss) && i < |ss| && q in ss[i].lists && ss[i].lists[q].hand == Holding(t, Failed)
    ensures FoundBusy(acts, ss, k, i, q, t)
  {
    assert StepTo(ss[i - 1], acts[i - 1], ss[i]);
    RunInv(acts, ss, i - 1);
    BecomesFailed(ss[i - 1], acts[i - 1], q, t);
    if ss[i - 1].lists[q].hand == Holding(t, Failed) {
      k := FailedSince(acts, ss, i - 1, q, t);
    } else {
      k := i - 1;
    }
  }

  /** A tasklet that is taken from a list goes back to it without running only if it ran on another CPU when it
      was to be locked, or was disabled when it was checked. */
  lemma RequeuedOnlyIfBusy(acts: seq<Action>, ss: seq<State>, i: nat, q: Q, t: Id)
    requires IsRun(acts, ss) && i < |acts| && acts[i] == Again(q) && q in ss[i].lists && ss[i].lists[q].hand.Holding?
    requires ss[i].lists[q].hand.t == t
    ensures exists k :: FoundBusy(acts, ss, k, i, q, t)
  {
    assert StepTo(ss[i], acts[i], ss[i + 1]);
    var k := FailedSince(acts, ss, i, q, t);
  }

  /** A queued tasklet is never stranded: the softirq that processes its list is pending or about to. */
  lemma NeverStranded(acts: seq<Action>, ss: seq<State>, i: nat, t: Id, q: Q)
    requires IsRun(acts, ss) && i < |ss| && q in ss[i].lists && t in ss[i].lists[q].vec
    ensures ss[i].lists[q].pending || ss[i].lists[q].starting
  {
    RunInv(acts, ss, i);
    assert ListOk(ss[i].tasklets, q, ss[i].lists[q]);
  }
}
