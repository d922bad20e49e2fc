/** Core scheduling: pick_next_task() chooses one task for every SMT sibling of a core so that
    only tasks with one cookie share the core, and lets the siblings run the chosen tasks later
    from a cache guarded by sequence counters. */
module CoreSched {
  import opened Sequences

  /** Scheduling classes in descending order; the last one is the idle class. */
  const IDLE_CLASS: nat := 4

  /** The deadline class, below only the class of the stopper tasks. */
  const DL_CLASS: nat := 1

  /** `rank` orders tasks, those of the deadline class by their deadlines. Cookie 0 means untagged. */
  datatype Task = Task(id: int, cookie: nat, cls: nat, rank: int)

  /** The idle task of a CPU; rank -1 is below every runnable task. */
  function Idle(cpu: nat): Task { Task(-1 - cpu, 0, IDLE_CLASS, -1) }

  predicate IsIdle(t: Task) { t.cls == IDLE_CLASS }

  /** prio_less(): of two tasks with equal deadlines each counts as less than the other. */
  predicate PrioLess(a: Task, b: Task) {
    a.rank < b.rank || (a.rank == b.rank && a.cls == DL_CLASS == b.cls)
  }

  /** Every runnable task is of a class above idle, and ranks follow the class order. */
  ghost predicate Ranked(ts: seq<seq<Task>>) {
    && (forall r, t :: 0 <= r < |ts| && t in ts[r] ==> t.cls < IDLE_CLASS && t.rank >= 0)
    && forall q, r :: 0 <= q < |ts| && 0 <= r < |ts| ==> ClassesRank(ts, q, r)
  }

  /** A task of q in a higher class than one of r outranks it. */
  ghost predicate ClassesRank(ts: seq<seq<Task>>, q: nat, r: nat)
    requires q < |ts| && r < |ts|
  {
    forall t, u :: t in ts[q] && u in ts[r] && t.cls < u.cls ==> t.rank > u.rank
  }

  /** The first of the highest-ranked tasks with property p. */
  function BestWhere(ts: seq<Task>, p: Task -> bool): (r: Option<Task>)
    ensures r.Some? ==> r.value in ts && p(r.value) && forall t :: t in ts && p(t) ==> t.rank <= r.value.rank
    ensures r.None? ==> forall t :: t in ts ==> !p(t)
  {
    if ts == [] then None
    else
      var b := BestWhere(ts[1..], p);
      assert forall t :: t in ts ==> t == ts[0] || t in ts[1..];
      if p(ts[0]) && (b.None? || ts[0].rank >= b.value.rank) then Some(ts[0]) else b
  }

  /** class->pick_task(rq) */
  function ClassPick(ts: seq<Task>, cpu: nat, cls: nat): Option<Task> {
    if cls == IDLE_CLASS then Some(Idle(cpu)) else BestWhere(ts, (t: Task) => t.cls == cls)
  }

  /** The first class from cls on that has a task picks it. */
  function FirstPick(ts: seq<Task>, cpu: nat, cls: nat): Task
    requires cls <= IDLE_CLASS
    decreases IDLE_CLASS - cls
  {
    if ClassPick(ts, cpu, cls).Some? then ClassPick(ts, cpu, cls).value else FirstPick(ts, cpu, cls + 1)
  }

  /** sched_core_find(rq, cookie) for a nonzero cookie */
  function CookiePick(ts: seq<Task>, cpu: nat, cookie: nat): Task {
    match BestWhere(ts, (t: Task) => t.cookie == cookie)
    case None => Idle(cpu)
    case Some(t) => t
  }

  predicate CookieMatch(a: Task, b: Task) { IsIdle(a) || IsIdle(b) || a.cookie == b.cookie }

  /** pick_task(): the task class `cls` of this runqueue offers, given the core's cookie and the
      highest-priority task chosen so far. */
  function PickTask(ts: seq<Task>, cpu: nat, cls: nat, cookie: nat, max: Option<Task>): Option<Task> {
    match ClassPick(ts, cpu, cls)
    case None => None
    case Some(classPick) =>
      if cookie == 0 then
        if max.Some? && classPick.cookie != 0 && PrioLess(classPick, max.value) then Some(Idle(cpu))
        else Some(classPick)
      else if IsIdle(classPick) || classPick.cookie == cookie then Some(classPick)
      else
        var cookiePick := CookiePick(ts, cpu, cookie);
        if PrioLess(cookiePick, classPick) && (max.None? || PrioLess(max.value, classPick)) then Some(classPick)
        else Some(cookiePick)
  }

  /** The task p, offered as the best of its class, would take the place of max. */
  predicate Displaces(p: Task, max: Task) {
    !CookieMatch(max, p) && if max.cookie == 0 then !PrioLess(p, max) else PrioLess(max, p)
  }

  // ---------------------------------------------------------------- when max can go round

  /** The sibling that is i places after cpu. */
  function Sibling(cpu: nat, i: nat, n: nat): (r: nat)
    requires cpu < n && i < n
    ensures r < n
  {
    if cpu + i < n then cpu + i else cpu + i - n
  }

  /** What the i-th sibling in turn offers of the deadline class. */
  function Deadline(ts: seq<seq<Task>>, cpu: nat, i: nat): Option<Task>
    requires cpu < |ts| && i < |ts|
  {
    ClassPick(ts[Sibling(cpu, i, |ts|)], Sibling(cpu, i, |ts|), DL_CLASS)
  }

  /** The i-th sibling in turn offers a deadline task of at least this rank. */
  predicate Candidate(ts: seq<seq<Task>>, cpu: nat, i: nat, rank: int)
    requires cpu < |ts| && i < |ts|
  {
    Deadline(ts, cpu, i).Some? && Deadline(ts, cpu, i).value.rank >= rank
  }

  /** The i-th sibling in turn offers the deadline task t. */
  predicate Offers(ts: seq<seq<Task>>, cpu: nat, i: nat, t: Task) {
    cpu < |ts| && i < |ts| && Deadline(ts, cpu, i) == Some(t)
  }

  /** Two siblings, k before l in turn, offer tasks with equal deadlines and different nonzero cookies; k is
      the first with a deadline that early, and l the first of those whose cookie is another. */
  ghost predicate Rivals(ts: seq<seq<Task>>, cpu: nat, k: nat, l: nat, t: Task, u: Task) {
    && k < l && Offers(ts, cpu, k, t) && Offers(ts, cpu, l, u)
    && t.rank == u.rank && t.cookie != 0 && u.cookie != 0 && t.cookie != u.cookie
    && forall j :: 0 <= j < l && j != k && Candidate(ts, cpu, j, t.rank) ==>
         j > k && Deadline(ts, cpu, j).value.cookie == t.cookie
  }

  /** No sibling has a task of a class above the deadline class. */
  ghost predicate NothingAboveDeadline(ts: seq<seq<Task>>) {
    forall r, t :: 0 <= r < |ts| && t in ts[r] ==> t.cls >= DL_CLASS
  }

  /** The rivals take each other's place for ever. */
  ghost predicate Livelock(ts: seq<seq<Task>>, cpu: nat) {
    NothingAboveDeadline(ts) && exists k, l, t, u :: Rivals(ts, cpu, k, l, t, u)
  }

  /** The i-th sibling is the first in turn whose deadline task, p, takes the place of max. */
  ghost predicate FirstDisplacer(ts: seq<seq<Task>>, cpu: nat, max: Task, i: nat, p: Task) {
    && Offers(ts, cpu, i, p) && Displaces(p, max)
    && forall j, t :: 0 <= j < i && Offers(ts, cpu, j, t) ==> !Displaces(t, max)
  }

  /** The next to take max's place has the same deadline and a cookie. */
  ghost predicate Swaps(ts: seq<seq<Task>>, cpu: nat, max: Task) {
    exists i, p :: FirstDisplacer(ts, cpu, max, i, p) && p.rank == max.rank && p.cookie != 0
  }

  /** What every wipe of the slate increases: the priority; then, for deadline tasks, whether max can still
      be swapped for another of its deadline and finally whether it is untagged, for others whether it is
      tagged. */
  ghost function Key(ts: seq<seq<Task>>, cpu: nat, max: Task): int {
    3 * max.rank +
    if max.cls != DL_CLASS then (if max.cookie != 0 then 1 else 0)
    else if max.cookie == 0 then 2 else if Swaps(ts, cpu, max) then 0 else 1
  }

  /** The first sibling in turn with a deadline at least that early. */
  lemma {:induction false} FirstCandidate(ts: seq<seq<Task>>, cpu: nat, i: nat, rank: int) returns (k: nat)
    requires cpu < |ts| && i < |ts| && Candidate(ts, cpu, i, rank)
    ensures k <= i && Candidate(ts, cpu, k, rank) && forall j :: 0 <= j < k ==> !Candidate(ts, cpu, j, rank)
  {
    k := 0;
    while !Candidate(ts, cpu, k, rank)
      invariant k <= i && forall j :: 0 <= j < k ==> !Candidate(ts, cpu, j, rank)
      decreases i - k
    {
      k := k + 1;
    }
  }

  predicate Tagged(t: Task, rank: int) { t.cls == DL_CLASS && t.rank == rank && t.cookie != 0 }

  /** Among deadline tasks of equal rank: p takes max's place first and q takes p's place first; that is
      possible only with rivals. */
  lemma TwoSwapsMakeRivals(ts: seq<seq<Task>>, cpu: nat, max: Task, i: nat, p: Task, h: nat, q: Task)
    requires FirstDisplacer(ts, cpu, max, i, p) && FirstDisplacer(ts, cpu, p, h, q)
    requires Tagged(max, max.rank) && Tagged(p, max.rank) && Tagged(q, max.rank)
    requires forall j, t :: Offers(ts, cpu, j, t) ==> t.cls == DL_CLASS
    ensures exists k, l, t, u :: Rivals(ts, cpu, k, l, t, u)
  {
    var k := FirstCandidate(ts, cpu, i, max.rank);
    var t := Deadline(ts, cpu, k).value;
    assert Offers(ts, cpu, k, t);
    assert t.cls == DL_CLASS && Candidate(ts, cpu, h, max.rank);
    if k == i {
      RivalsAre(ts, cpu, k, h, p, q);
    } else {
      assert !Displaces(t, max);
      assert Displaces(t, p);
      assert h == k;
      RivalsAre(ts, cpu, k, i, t, p);
    }
  }

  lemma RivalsAre(ts: seq<seq<Task>>, cpu: nat, k: nat, l: nat, t: Task, u: Task)
    requires k < l && Offers(ts, cpu, k, t) && Tagged(t, t.rank) && Tagged(u, t.rank)
    requires FirstDisplacer(ts, cpu, t, l, u)
    requires forall j :: 0 <= j < k ==> !Candidate(ts, cpu, j, t.rank)
    requires forall j, v :: Offers(ts, cpu, j, v) ==> v.cls == DL_CLASS
    ensures Rivals(ts, cpu, k, l, t, u)
  {
    forall j | 0 <= j < l && j != k && Candidate(ts, cpu, j, t.rank)
      ensures j > k && Deadline(ts, cpu, j).value.cookie == t.cookie
    {
      assert Offers(ts, cpu, j, Deadline(ts, cpu, j).value);
    }
  }

  ghost predicate Bounds(ts: seq<seq<Task>>, m: int) {
    m >= -1 && forall r, t :: 0 <= r < |ts| && t in ts[r] ==> t.rank <= m
  }

  function TopRank(ts: seq<Task>): (m: int)
    ensures m >= -1 && forall t :: t in ts ==> t.rank <= m
  {
    if ts == [] then -1
    else
      assert forall t :: t in ts ==> t == ts[0] || t in ts[1..];
      var m := TopRank(ts[1..]); if ts[0].rank > m then ts[0].rank else m
  }

  function TopRankAll(ts: seq<seq<Task>>): (m: int)
    ensures Bounds(ts, m)
  {
    if ts == [] then -1
    else
      var m, n := TopRankAll(ts[1..]), TopRank(ts[0]);
      assert forall r :: 1 <= r < |ts| ==> ts[r] == ts[1..][r - 1];
      if n > m then n else m
  }

  function Busy(picks: seq<Option<Task>>): (n: nat)
    ensures n <= |picks|
  {
    if picks == [] then 0
    else (if picks[0].Some? && !IsIdle(picks[0].value) then 1 else 0) + Busy(picks[1..])
  }

  lemma {:induction false} BusyUpdate(picks: seq<Option<Task>>, r: nat, t: Task)
    requires r < |picks| && picks[r].None?
    ensures Busy(picks[r := Some(t)]) == Busy(picks) + if IsIdle(t) then 0 else 1
  {
    if r > 0 {
      BusyUpdate(picks[1..], r - 1, t);
      assert picks[r := Some(t)][1..] == picks[1..][r - 1 := Some(t)];
    } else {
      assert picks[0 := Some(t)][1..] == picks[1..];
    }
  }

  lemma {:induction false} BusyNone(n: nat)
    ensures Busy(seq(n, _ => None)) == 0
  {
    if n > 0 {
      BusyNone(n - 1);
      assert seq(n, _ => None)[1..] == seq<Option<Task>>(n - 1, _ => None);
    }
  }

  // ---------------------------------------------------------------- what a selection promises

  /** Sibling r was given a task of its own, or its idle task. */
  predicate OwnPick(ts: seq<seq<Task>>, picks: seq<Option<Task>>, r: nat)
    requires r < |ts| == |picks|
  {
    picks[r].Some? ==> picks[r].value == Idle(r) || picks[r].value in ts[r]
  }

  /** What a core-wide selection chose and from what: the runqueues, everyone's pick, the core's
      cookie, whether someone is forced idle, how many picks are not idle, and the sibling with the
      highest-ranked one. */
  datatype Selection = Selection(
    ts: seq<seq<Task>>, picks: seq<Option<Task>>, cookie: nat, fi: bool, occ: nat, best: nat)

  /** Everyone got a task of its own or idle. */
  ghost predicate AllOwn(ts: seq<seq<Task>>, picks: seq<Option<Task>>) {
    |picks| == |ts| && forall r :: 0 <= r < |ts| ==> picks[r].Some? && OwnPick(ts, picks, r)
  }

  /** The non-idle picks share one cookie. */
  ghost predicate OneCookie(picks: seq<Option<Task>>, cookie: nat) {
    forall r :: 0 <= r < |picks| && picks[r].Some? && !IsIdle(picks[r].value) ==> picks[r].value.cookie == cookie
  }

  predicate ForcedIdle(ts: seq<seq<Task>>, picks: seq<Option<Task>>, r: nat)
    requires |picks| == |ts|
  {
    r < |ts| && picks[r].Some? && IsIdle(picks[r].value) && ts[r] != []
  }

  /** Some sibling with runnable tasks was given idle. */
  ghost predicate SomeForcedIdle(ts: seq<seq<Task>>, picks: seq<Option<Task>>)
    requires |picks| == |ts|
  {
    exists r: nat :: ForcedIdle(ts, picks, r)
  }

  /** No runnable task of any sibling outranks the pick of sibling `best`. */
  ghost predicate NobodyOutranks(ts: seq<seq<Task>>, picks: seq<Option<Task>>, best: nat) {
    best < |picks| && picks[best].Some? && Bounds(ts, picks[best].value.rank)
  }

  ghost predicate BestOf(ts: seq<Task>, best: Task) { forall t :: t in ts ==> t.rank <= best.rank }

  /** With a cookie on the core, a sibling runs nothing lower than the tasks it has with that cookie. On an
      untagged core it runs a task that none it has outranks, or idles because such a task is tagged. */
  ghost predicate Served(ts: seq<Task>, pick: Task, cookie: nat) {
    if cookie != 0 then forall t :: t in ts && t.cookie == cookie ==> t.rank <= pick.rank
    else if IsIdle(pick) then ts == [] || exists t :: t in ts && t.cookie != 0 && BestOf(ts, t)
    else BestOf(ts, pick)
  }

  ghost predicate AllServed(ts: seq<seq<Task>>, picks: seq<Option<Task>>, cookie: nat)
    requires |ts| == |picks|
  {
    forall r :: 0 <= r < |ts| && picks[r].Some? ==> Served(ts[r], picks[r].value, cookie)
  }

  /** What pick_next_task() promises of a core-wide selection. */
  ghost predicate Good(s: Selection) {
    && AllOwn(s.ts, s.picks)
    && OneCookie(s.picks, s.cookie)
    && s.occ == Busy(s.picks)
    && s.fi == SomeForcedIdle(s.ts, s.picks)
    && NobodyOutranks(s.ts, s.picks, s.best)
    && AllServed(s.ts, s.picks, s.cookie)
  }

  // ---------------------------------------------------------------- the loop of pick_next_task()

  /** Classes before `cls`, and `cls` itself for siblings already visited, offer nothing to a
      sibling that has no pick yet. */
  ghost predicate Covered(ts: seq<seq<Task>>, picks: seq<Option<Task>>, cls: nat, cpu: nat, i: nat) {
    forall r, k :: 0 <= r < |ts| == |picks| && picks[r].None? && 0 <= k <= cls && (k < cls || Visited(r, cpu, i, |ts|))
      ==> ClassPick(ts[r], r, k).None?
  }

  predicate Visited(r: nat, cpu: nat, i: nat, n: nat) {
    r < n && cpu < n && (if r >= cpu then r - cpu < i else r + n - cpu < i)
  }

  /** The variables of the loop; max was chosen at sibling m. */
  datatype LoopState = LoopState(
    picks: seq<Option<Task>>, cookie: nat, occ: nat, fi: bool, max: Option<Task>, m: nat)

  /** The body of the sibling loop once pick_task() has returned p. */
  function Accept(ts: seq<seq<Task>>, s: LoopState, r: nat, p: Task): LoopState
    requires r < |ts| == |s.picks|
  {
    var occ := s.occ + if IsIdle(p) then 0 else 1;
    var fi := s.fi || (IsIdle(p) && ts[r] != []);
    if s.max.None? then LoopState(s.picks[r := Some(p)], p.cookie, occ, fi, Some(p), r)
    else if !Wipes(s, p) then s.(picks := s.picks[r := Some(p)], occ := occ, fi := fi)
    else LoopState(seq(|ts|, _ => None)[r := Some(p)], p.cookie, 1, false, Some(p), r)
  }

  predicate Wipes(s: LoopState, p: Task) { s.max.Some? && !CookieMatch(s.max.value, p) }

  /** The task offered to sibling r at class cls, if it has none yet. */
  function Offer(ts: seq<seq<Task>>, s: LoopState, cls: nat, r: nat): Option<Task>
    requires r < |ts| == |s.picks|
  {
    if s.picks[r].Some? then None else PickTask(ts[r], r, cls, s.cookie, s.max)
  }

  function Turn(ts: seq<seq<Task>>, s: LoopState, cls: nat, r: nat): LoopState
    requires r < |ts| == |s.picks|
  {
    match Offer(ts, s, cls, r)
    case None => s
    case Some(p) => Accept(ts, s, r, p)
  }

  /** The picks belong to their siblings and carry the core's cookie; occ and fi describe them. */
  ghost predicate SlateInv(ts: seq<seq<Task>>, s: LoopState) {
    && |s.picks| == |ts|
    && (forall r :: 0 <= r < |ts| ==> OwnPick(ts, s.picks, r))
    && s.cookie == (if s.max.Some? then s.max.value.cookie else 0)
    && OneCookie(s.picks, s.cookie)
    && s.occ == Busy(s.picks)
    && s.fi == SomeForcedIdle(ts, s.picks)
  }

  /** max is picked, its class is the highest anyone offers, and no sibling that has been given a
      task holds one that outranks both that task and max. */
  ghost predicate MaxInv(ts: seq<seq<Task>>, s: LoopState) {
    && |s.picks| == |ts|
    && (s.max.Some? ==> s.m < |ts| && s.picks[s.m] == s.max && (s.max.value == Idle(s.m) || s.max.value in ts[s.m]))
    && (s.max.None? ==> forall r :: 0 <= r < |ts| ==> s.picks[r].None?)
    && (s.max.Some? ==> forall r, t :: 0 <= r < |ts| && t in ts[r] ==> t.cls >= s.max.value.cls)
    && (s.max.Some? ==> forall r, t :: 0 <= r < |ts| && s.picks[r].Some? && t in ts[r] ==>
          t.rank <= s.picks[r].value.rank || t.rank <= s.max.value.rank)
  }

  /** While max is a deadline task, no sibling that has been given a task offers one to displace it. */
  ghost predicate Settled(ts: seq<seq<Task>>, s: LoopState) {
    && |s.picks| == |ts|
    && forall q, d :: (0 <= q < |ts| && s.picks[q].Some? && s.max.Some? && s.max.value.cls == DL_CLASS
         && ClassPick(ts[q], q, DL_CLASS) == Some(d)) ==> !Displaces(d, s.max.value)
  }

  ghost predicate Inv(ts: seq<seq<Task>>, s: LoopState) {
    SlateInv(ts, s) && MaxInv(ts, s) && Settled(ts, s) && AllServed(ts, s.picks, s.cookie)
  }

  /** Tasks a sibling without a pick still has are of class `cls` or below. */
  lemma NothingAbove(ts: seq<seq<Task>>, picks: seq<Option<Task>>, cls: nat, cpu: nat, i: nat, r: nat)
    requires Ranked(ts) && |picks| == |ts| && cls <= IDLE_CLASS
    requires Covered(ts, picks, cls, cpu, i) && r < |ts| && picks[r].None?
    ensures forall t :: t in ts[r] ==> t.cls >= cls
  {
    forall t | t in ts[r] ensures t.cls >= cls {
      assert ClassPick(ts[r], r, t.cls).Some?;
    }
  }

  /** What a task p returned by pick_task() means for its sibling r, given max: nothing runnable
      there outranks both, and if p does not match max's cookie it takes max's place. */
  ghost predicate Means(ts: seq<Task>, r: nat, cls: nat, max: Option<Task>, p: Task) {
    && (p == Idle(r) || p in ts)
    && (forall t :: t in ts ==> t.rank <= p.rank || (max.Some? && t.rank <= max.value.rank))
    && (max.None? ==> p.cls == cls && ClassPick(ts, r, cls) == Some(p) && forall t :: t in ts ==> t.rank <= p.rank)
    && (max.Some? && !CookieMatch(max.value, p) ==>
          p in ts && p.cls == cls && ClassPick(ts, r, cls) == Some(p) && p.rank >= max.value.rank
          && Displaces(p, max.value) && forall t :: t in ts ==> t.rank <= p.rank)
    && Served(ts, p, if max.Some? && CookieMatch(max.value, p) then max.value.cookie else p.cookie)
  }

  /** What a class offers first when the classes above it are empty is the best task there is, or the idle
      task of a sibling without any. */
  lemma ClassPickIsBest(ts: seq<Task>, r: nat, cls: nat)
    requires cls <= IDLE_CLASS && (forall t :: t in ts ==> cls <= t.cls < IDLE_CLASS) && ClassPick(ts, r, cls).Some?
    requires forall t, u :: t in ts && u in ts && t.cls < u.cls ==> t.rank > u.rank
    ensures var c := ClassPick(ts, r, cls).value; BestOf(ts, c) && (if IsIdle(c) then ts == [] else c in ts)
  {
    var c := ClassPick(ts, r, cls).value;
    assert ts == [] || ts[0] in ts;
    forall t | t in ts ensures t.rank <= c.rank {
      if t.cls > cls { assert c in ts; }
    }
  }

  /** A task returned by pick_task() serves its sibling, for the core's cookie or as the new max. */
  lemma PickTaskServes(ts: seq<Task>, r: nat, cls: nat, cookie: nat, max: Option<Task>)
    requires cls <= IDLE_CLASS && (forall t :: t in ts ==> cls <= t.cls < IDLE_CLASS)
    requires forall t, u :: t in ts && u in ts && t.cls < u.cls ==> t.rank > u.rank
    requires cookie == if max.Some? then max.value.cookie else 0
    requires PickTask(ts, r, cls, cookie, max).Some?
    ensures var p := PickTask(ts, r, cls, cookie, max).value;
      Served(ts, p, if max.Some? && CookieMatch(max.value, p) then max.value.cookie else p.cookie)
  {
    ClassPickIsBest(ts, r, cls);
  }

  lemma PickTaskMeans(ts: seq<Task>, all: seq<seq<Task>>, r: nat, cls: nat, cookie: nat, max: Option<Task>)
    requires Ranked(all) && r < |all| && ts == all[r] && cls <= IDLE_CLASS
    requires forall t :: t in ts ==> t.cls >= cls
    requires cookie == if max.Some? then max.value.cookie else 0
    requires PickTask(ts, r, cls, cookie, max).Some?
    ensures Means(ts, r, cls, max, PickTask(ts, r, cls, cookie, max).value)
  {
    assert ClassesRank(all, r, r);
    ClassPickIsBest(ts, r, cls);
    PickTaskServes(ts, r, cls, cookie, max);
  }

  /** A pick that does not wipe keeps the slate in order. */
  lemma AddKeepsSlate(ts: seq<seq<Task>>, s: LoopState, r: nat, p: Task)
    requires SlateInv(ts, s) && r < |ts| && s.picks[r].None? && (p == Idle(r) || p in ts[r])
    requires if s.max.Some? then CookieMatch(s.max.value, p) && (IsIdle(p) || p.cookie == s.cookie)
      else forall q :: 0 <= q < |ts| ==> s.picks[q].None?
    ensures SlateInv(ts, Accept(ts, s, r, p))
  {
    BusyUpdate(s.picks, r, p);
    var t := Accept(ts, s, r, p);
    forall q | 0 <= q < |ts| ensures OwnPick(ts, t.picks, q) {
      assert OwnPick(ts, s.picks, q);
    }
    assert ForcedIdle(ts, t.picks, r) <==> IsIdle(p) && ts[r] != [];
    assert forall q: nat :: q != r ==> (ForcedIdle(ts, t.picks, q) <==> ForcedIdle(ts, s.picks, q));
    assert !ForcedIdle(ts, s.picks, r);
  }

  lemma WipeKeepsSlate(ts: seq<seq<Task>>, s: LoopState, r: nat, p: Task)
    requires |s.picks| == |ts| && r < |ts| && p in ts[r] && !IsIdle(p)
    requires s.max.Some? && !CookieMatch(s.max.value, p)
    ensures SlateInv(ts, Accept(ts, s, r, p))
  {
    BusyNone(|ts|);
    BusyUpdate(seq(|ts|, _ => None), r, p);
    assert forall q: nat :: !ForcedIdle(ts, Accept(ts, s, r, p).picks, q);
  }

  /** A pick leaves every sibling served that has one. */
  lemma AcceptServes(ts: seq<seq<Task>>, s: LoopState, r: nat, cls: nat, p: Task)
    requires |s.picks| == |ts| && r < |ts| && Means(ts[r], r, cls, s.max, p) && AllServed(ts, s.picks, s.cookie)
    requires if s.max.Some? then s.cookie == s.max.value.cookie else forall q :: 0 <= q < |ts| ==> s.picks[q].None?
    ensures AllServed(ts, Accept(ts, s, r, p).picks, Accept(ts, s, r, p).cookie)
  {
  }

  /** max stays picked and on top; a wipe raises its key and stays in its class. */
  lemma AcceptKeepsMax(ts: seq<seq<Task>>, s: LoopState, r: nat, cls: nat, p: Task)
    requires MaxInv(ts, s) && r < |ts| && s.picks[r].None? && Means(ts[r], r, cls, s.max, p)
    requires s.max.None? ==> forall q, u :: 0 <= q < |ts| && u in ts[q] ==> u.cls >= cls
    requires s.max.Some? && p.rank >= s.max.value.rank ==> p.cls <= s.max.value.cls
    ensures MaxInv(ts, Accept(ts, s, r, p))
  {
    var t := Accept(ts, s, r, p);
    if Wipes(s, p) {
      assert forall q :: 0 <= q < |ts| && t.picks[q].Some? ==> q == r;
    }
  }

  /** A new max is the only pick there is, and does not displace itself. */
  lemma NewMaxSettled(ts: seq<seq<Task>>, s: LoopState, r: nat, cls: nat, p: Task)
    requires Ranked(ts) && MaxInv(ts, s) && r < |ts| && s.picks[r].None? && (s.max.None? || Wipes(s, p))
    requires p.cls == cls && ClassPick(ts[r], r, cls) == Some(p)
    ensures Settled(ts, Accept(ts, s, r, p))
  {
    var t := Accept(ts, s, r, p);
    forall q | 0 <= q < |ts| && q != r ensures t.picks[q].None? {}
  }

  /** Deadline tasks are refused only when they do not displace max. */
  lemma RefusedIsNoDisplacer(ts: seq<Task>, r: nat, cls: nat, max: Task, p: Task, d: Task)
    requires max.cls == DL_CLASS && forall t :: t in ts ==> t.cls >= cls && t.cls >= DL_CLASS && t.cls < IDLE_CLASS
    requires forall t, u :: t in ts && u in ts && t.cls < u.cls ==> t.rank > u.rank
    requires cls <= IDLE_CLASS && PickTask(ts, r, cls, max.cookie, Some(max)) == Some(p) && CookieMatch(max, p)
    requires ClassPick(ts, r, DL_CLASS) == Some(d) && forall t :: t in ts ==> t.rank >= 0
    ensures !Displaces(d, max)
  {
    assert d in ts && d.cls == DL_CLASS;
    if cls == DL_CLASS {
      var c := CookiePick(ts, r, max.cookie);
      assert c == Idle(r) || c in ts;
      assert c.rank <= d.rank;
    }
  }

  lemma SettledPlus(ts: seq<seq<Task>>, s: LoopState, t: LoopState, r: nat)
    requires Settled(ts, s) && r < |ts| == |t.picks| && t.max == s.max && s.max.Some?
    requires forall q :: 0 <= q < |ts| && q != r ==> t.picks[q] == s.picks[q]
    requires forall d :: s.max.value.cls == DL_CLASS && ClassPick(ts[r], r, DL_CLASS) == Some(d) ==>
      !Displaces(d, s.max.value)
    ensures Settled(ts, t)
  {}

  lemma AddedSettled(ts: seq<seq<Task>>, s: LoopState, r: nat, cls: nat, p: Task)
    requires Ranked(ts) && Settled(ts, s) && MaxInv(ts, s) && cls <= IDLE_CLASS && r < |ts| && s.picks[r].None?
    requires s.max.Some? && s.cookie == s.max.value.cookie && !Wipes(s, p)
    requires forall t :: t in ts[r] ==> t.cls >= cls
    requires PickTask(ts[r], r, cls, s.cookie, s.max) == Some(p)
    ensures Settled(ts, Accept(ts, s, r, p))
  {
    if s.max.value.cls == DL_CLASS && ClassPick(ts[r], r, DL_CLASS).Some? {
      assert ClassesRank(ts, r, r);
      RefusedIsNoDisplacer(ts[r], r, cls, s.max.value, p, ClassPick(ts[r], r, DL_CLASS).value);
    }
    SettledPlus(ts, s, Accept(ts, s, r, p), r);
  }

  lemma AcceptKeepsInv(ts: seq<seq<Task>>, s: LoopState, r: nat, cls: nat, p: Task)
    requires Ranked(ts) && cls <= IDLE_CLASS && Inv(ts, s) && r < |ts| && s.picks[r].None?
    requires forall t :: t in ts[r] ==> t.cls >= cls
    requires s.max.None? ==> forall q, u :: 0 <= q < |ts| && u in ts[q] ==> u.cls >= cls
    requires PickTask(ts[r], r, cls, s.cookie, s.max) == Some(p)
    ensures var t := Accept(ts, s, r, p);
      && Inv(ts, t)
      && (Wipes(s, p) ==>
            t.max == Some(p) && p.cls == cls && p.rank >= s.max.value.rank
            && ClassPick(ts[r], r, cls) == Some(p) && Displaces(p, s.max.value))
      && (s.max.Some? && !Wipes(s, p) ==> t.max == s.max)
  {
    PickTaskMeans(ts[r], ts, r, cls, s.cookie, s.max);
    if s.max.Some? { assert ClassesRank(ts, s.m, r); }
    AcceptKeepsMax(ts, s, r, cls, p);
    AcceptServes(ts, s, r, cls, p);
    if Wipes(s, p) {
      WipeKeepsSlate(ts, s, r, p);
      NewMaxSettled(ts, s, r, cls, p);
    } else {
      AddKeepsSlate(ts, s, r, p);
      if s.max.None? { NewMaxSettled(ts, s, r, cls, p); } else { AddedSettled(ts, s, r, cls, p); }
    }
  }

  ghost predicate AllPicked(picks: seq<Option<Task>>) { forall r :: 0 <= r < |picks| ==> picks[r].Some? }

  lemma EveryonePicked(ts: seq<seq<Task>>, picks: seq<Option<Task>>, cpu: nat)
    requires |picks| == |ts| && Covered(ts, picks, IDLE_CLASS, cpu, |ts|) && cpu < |ts|
    ensures AllPicked(picks)
  {
    forall r | 0 <= r < |ts| ensures picks[r].Some? {
      assert Visited(r, cpu, |ts|, |ts|) && ClassPick(ts[r], r, IDLE_CLASS).Some?;
    }
  }

  lemma {:induction false} TopPick(picks: seq<Option<Task>>) returns (best: nat)
    requires AllPicked(picks) && picks != []
    ensures best < |picks| && forall r :: 0 <= r < |picks| ==> picks[r].value.rank <= picks[best].value.rank
  {
    best := 0;
    if |picks| > 1 {
      var b := TopPick(picks[1..]);
      assert forall r :: 1 <= r < |picks| ==> picks[r] == picks[1..][r - 1];
      best := if picks[0].value.rank >= picks[b + 1].value.rank then 0 else b + 1;
    }
  }

  lemma TheBestRuns(ts: seq<seq<Task>>, s: LoopState, best: nat)
    requires Ranked(ts) && MaxInv(ts, s) && AllPicked(s.picks) && best < |ts|
    requires forall r :: 0 <= r < |ts| ==> s.picks[r].value.rank <= s.picks[best].value.rank
    requires OwnPick(ts, s.picks, best)
    ensures NobodyOutranks(ts, s.picks, best)
  {
    var top := s.picks[best].value.rank;
    assert s.picks[0].Some?;
    forall r, t | 0 <= r < |ts| && t in ts[r] ensures t.rank <= top {
      assert s.picks[r].value.rank <= top && s.picks[s.m].value.rank <= top;
    }
  }

  /** When the loop is done every sibling has a task and the selection keeps its promise. */
  lemma DoneIsGood(ts: seq<seq<Task>>, s: LoopState) returns (sel: Selection)
    requires Ranked(ts) && Inv(ts, s) && AllPicked(s.picks) && ts != []
    ensures Good(sel) && sel == Selection(ts, s.picks, s.cookie, s.fi, s.occ, sel.best)
  {
    var best := TopPick(s.picks);
    sel := Selection(ts, s.picks, s.cookie, s.fi, s.occ, best);
    TheBestRuns(ts, s, best);
  }

  lemma EmptySlate(ts: seq<seq<Task>>, picks: seq<Option<Task>>, cpu: nat)
    requires |picks| == |ts| && forall r :: 0 <= r < |ts| ==> picks[r].None?
    ensures Inv(ts, LoopState(picks, 0, 0, false, None, 0)) && Covered(ts, picks, 0, cpu, 0)
  {
    BusyNone(|ts|);
    assert picks == seq(|ts|, _ => None);
    assert forall r: nat :: !ForcedIdle(ts, picks, r);
  }

  /** At sibling r's turn nothing it holds, or while there is no max nothing at all, is of a class
      above cls. */
  lemma TurnOf(ts: seq<seq<Task>>, s: LoopState, r: nat, cls: nat, cpu: nat, i: nat)
    requires Ranked(ts) && MaxInv(ts, s) && cls <= IDLE_CLASS && Covered(ts, s.picks, cls, cpu, i)
    requires r < |ts| && s.picks[r].None?
    ensures forall t :: t in ts[r] ==> t.cls >= cls
    ensures s.max.None? ==> forall q, u :: 0 <= q < |ts| && u in ts[q] ==> u.cls >= cls
  {
    NothingAbove(ts, s.picks, cls, cpu, i, r);
    if s.max.None? {
      forall q, u | 0 <= q < |ts| && u in ts[q] ensures u.cls >= cls {
        NothingAbove(ts, s.picks, cls, cpu, i, q);
      }
    }
  }

  lemma CoverStep(
    ts: seq<seq<Task>>, picks: seq<Option<Task>>, next: seq<Option<Task>>, r: nat, cls: nat, cpu: nat, i: nat)
    requires |picks| == |next| == |ts| && cpu < |ts| && i < |ts|
    requires r == if cpu + i < |ts| then cpu + i else cpu + i - |ts|
    requires Covered(ts, picks, cls, cpu, i)
    requires forall q :: 0 <= q < |ts| && q != r ==> next[q] == picks[q]
    requires next[r].None? ==> picks[r].None? && ClassPick(ts[r], r, cls).None?
    ensures Covered(ts, next, cls, cpu, i + 1)
  {
    forall q, k | 0 <= q < |ts| && next[q].None? && 0 <= k <= cls && (k < cls || Visited(q, cpu, i + 1, |ts|))
      ensures ClassPick(ts[q], q, k).None?
    {
      assert Visited(q, cpu, i + 1, |ts|) ==> Visited(q, cpu, i, |ts|) || q == r;
    }
  }

  /** How many wipes are left at most. */
  ghost function Fuel(ts: seq<seq<Task>>, cpu: nat, max: Option<Task>, top: int): int {
    if max.None? then 3 * top + 5 else 3 * top + 2 - Key(ts, cpu, max.value)
  }

  lemma FuelLeft(ts: seq<seq<Task>>, cpu: nat, s: LoopState, top: int)
    requires Ranked(ts) && MaxInv(ts, s) && Bounds(ts, top)
    ensures 0 <= Fuel(ts, cpu, s.max, top) <= Fuel(ts, cpu, None, top)
  {}

  lemma OffersAreDeadline(ts: seq<seq<Task>>, cpu: nat, i: nat, t: Task)
    requires Offers(ts, cpu, i, t)
    ensures t.cls == DL_CLASS && t in ts[Sibling(cpu, i, |ts|)]
  {}

  /** The sibling whose turn it is takes a deadline task's place only if nobody before it in turn could. */
  lemma WiperIsFirst(ts: seq<seq<Task>>, s: LoopState, cpu: nat, i: nat, p: Task)
    requires Settled(ts, s) && s.max.Some? && s.max.value.cls == DL_CLASS && cpu < |ts| && i < |ts|
    requires Covered(ts, s.picks, DL_CLASS, cpu, i) && Offers(ts, cpu, i, p) && Displaces(p, s.max.value)
    ensures FirstDisplacer(ts, cpu, s.max.value, i, p)
  {
    forall j, t | 0 <= j < i && Offers(ts, cpu, j, t) ensures !Displaces(t, s.max.value) {
      var q := Sibling(cpu, j, |ts|);
      assert Visited(q, cpu, i, |ts|);
      assert s.picks[q].Some?;
    }
  }

  /** Unless rivals can take each other's place for ever, every wipe raises the key of max. */
  lemma WipeRaisesKey(ts: seq<seq<Task>>, cpu: nat, max: Task, i: nat, p: Task)
    requires !Livelock(ts, cpu) && max.cls == p.cls && Displaces(p, max) && p.rank >= max.rank
    requires max.cls == DL_CLASS ==> FirstDisplacer(ts, cpu, max, i, p) && NothingAboveDeadline(ts)
    ensures Key(ts, cpu, p) > Key(ts, cpu, max)
  {
    if max.cls == DL_CLASS && p.rank == max.rank && p.cookie != 0 {
      assert Swaps(ts, cpu, max);
      if Swaps(ts, cpu, p) {
        var h, q :| FirstDisplacer(ts, cpu, p, h, q) && q.rank == p.rank && q.cookie != 0;
        forall j, t | Offers(ts, cpu, j, t) ensures t.cls == DL_CLASS {
          OffersAreDeadline(ts, cpu, j, t);
        }
        TwoSwapsMakeRivals(ts, cpu, max, i, p, h, q);
      }
    }
  }

  /** After a wipe nothing on the core is of a class above cls. */
  lemma CoverAgain(ts: seq<seq<Task>>, s: LoopState, cls: nat, cpu: nat)
    requires MaxInv(ts, s) && s.max.Some? && s.max.value.cls == cls && cls <= IDLE_CLASS
    ensures Covered(ts, s.picks, cls, cpu, 0)
  {
    forall q, k | 0 <= q < |ts| && 0 <= k < cls ensures ClassPick(ts[q], q, k).None? {}
  }

  lemma CoverNext(ts: seq<seq<Task>>, picks: seq<Option<Task>>, cls: nat, cpu: nat)
    requires |picks| == |ts| && cpu < |ts| && Covered(ts, picks, cls, cpu, |ts|)
    ensures Covered(ts, picks, cls + 1, cpu, 0)
  {
    forall q, k | 0 <= q < |ts| && picks[q].None? && 0 <= k <= cls ensures ClassPick(ts[q], q, k).None? {
      assert Visited(q, cpu, |ts|, |ts|);
    }
  }

  /** A wipe puts a task of max's class and at least max's rank in its place; among deadline tasks it is the
      first in turn that can. */
  ghost predicate Supersedes(ts: seq<seq<Task>>, cpu: nat, i: nat, max: Task, p: Task) {
    && max.cls == p.cls && Displaces(p, max) && p.rank >= max.rank
    && (max.cls == DL_CLASS ==> FirstDisplacer(ts, cpu, max, i, p) && NothingAboveDeadline(ts))
  }

  /** One turn keeps the invariant and the coverage; it wipes only for a task that supersedes max. */
  lemma TurnKeeps(ts: seq<seq<Task>>, s: LoopState, cls: nat, cpu: nat, i: nat)
    requires Ranked(ts) && Inv(ts, s) && cls <= IDLE_CLASS && cpu < |ts| && i < |ts|
    requires Covered(ts, s.picks, cls, cpu, i)
    ensures var r := Sibling(cpu, i, |ts|); var t := Turn(ts, s, cls, r); var p := Offer(ts, s, cls, r);
      && Inv(ts, t)
      && (if p.Some? && Wipes(s, p.value) then
            Covered(ts, t.picks, cls, cpu, 0) && t.max == p && Supersedes(ts, cpu, i, s.max.value, p.value)
          else Covered(ts, t.picks, cls, cpu, i + 1) && (s.max.Some? ==> t.max == s.max))
  {
    var r := Sibling(cpu, i, |ts|);
    var p := Offer(ts, s, cls, r);
    if p.Some? {
      TurnOf(ts, s, r, cls, cpu, i);
      AcceptKeepsInv(ts, s, r, cls, p.value);
      if Wipes(s, p.value) {
        CoverAgain(ts, Turn(ts, s, cls, r), cls, cpu);
        if cls == DL_CLASS { WiperIsFirst(ts, s, cpu, i, p.value); }
      } else {
        CoverStep(ts, s.picks, Turn(ts, s, cls, r).picks, r, cls, cpu, i);
      }
    } else {
      CoverStep(ts, s.picks, s.picks, r, cls, cpu, i);
    }
  }

  /** Any two chosen tasks may share the core, so the warning about the L1TF mitigation after the
      selection never fires. */
  lemma ChosenTasksMatch(s: Selection, q: nat, r: nat)
    requires Good(s) && q < |s.ts| && r < |s.ts|
    ensures CookieMatch(s.picks[q].value, s.picks[r].value)
  {
    assert s.picks[q].Some? && s.picks[r].Some?;
  }

  /** With a cookie on the core a sibling is forced idle exactly if it has tasks and none with the cookie, and a
      sibling that has one runs the best of them. */
  lemma MatchingTasksRun(s: Selection, r: nat)
    requires Ranked(s.ts) && Good(s) && r < |s.ts| && s.cookie != 0
    ensures ForcedIdle(s.ts, s.picks, r) <==> s.ts[r] != [] && forall t :: t in s.ts[r] ==> t.cookie != s.cookie
    ensures forall t :: t in s.ts[r] && t.cookie == s.cookie ==>
      s.picks[r].value in s.ts[r] && s.picks[r].value.cookie == s.cookie && t.rank <= s.picks[r].value.rank
  {
    assert OwnPick(s.ts, s.picks, r) && Served(s.ts[r], s.picks[r].value, s.cookie);
  }

  /** On an untagged core a sibling whose best tasks are untagged runs one of them, and one whose best tasks are
      tagged is forced idle, even if it has untagged tasks below them. */
  lemma UntaggedTasksRun(s: Selection, r: nat)
    requires Ranked(s.ts) && Good(s) && r < |s.ts| && s.cookie == 0 && s.ts[r] != []
    ensures (forall t :: t in s.ts[r] && BestOf(s.ts[r], t) ==> t.cookie == 0) ==>
      s.picks[r].value in s.ts[r] && BestOf(s.ts[r], s.picks[r].value)
    ensures (forall t :: t in s.ts[r] && BestOf(s.ts[r], t) ==> t.cookie != 0) ==> ForcedIdle(s.ts, s.picks, r)
  {
    assert OwnPick(s.ts, s.picks, r) && Served(s.ts[r], s.picks[r].value, s.cookie);
  }

  /** The best runnable task of the whole core is among the chosen ones, or one of its rank is. */
  lemma BestTaskRuns(s: Selection, r: nat, t: Task)
    requires Ranked(s.ts) && Good(s) && r < |s.ts| && t in s.ts[r]
    requires forall q, u :: 0 <= q < |s.ts| && u in s.ts[q] ==> u.rank <= t.rank
    ensures exists q :: 0 <= q < |s.ts| && s.picks[q].value.rank == t.rank && s.picks[q].value in s.ts[q]
  {
    assert OwnPick(s.ts, s.picks, s.best);
    assert s.picks[s.best].value.rank == t.rank;
  }

  predicate AtMost(seqs: seq<int>, bound: int) { forall r :: 0 <= r < |seqs| ==> seqs[r] <= bound }

  /** Every cached pick is the one that was selected for its sibling, still belongs to it and has
      not run yet. */
  ghost predicate CacheOk(ts: seq<seq<Task>>, picks: seq<Option<Task>>, selected: seq<Option<Task>>, served: set<nat>)
    requires |ts| == |picks| == |selected|
  {
    forall r :: 0 <= r < |picks| && picks[r].Some? ==> picks[r] == selected[r] && r !in served && OwnPick(ts, picks, r)
  }

  lemma StillRanked(ts: seq<seq<Task>>, now: seq<seq<Task>>)
    requires Ranked(ts) && |now| == |ts| && forall r, t :: 0 <= r < |ts| && t in now[r] ==> t in ts[r]
    ensures Ranked(now)
  {
    forall q, r | 0 <= q < |ts| && 0 <= r < |ts| ensures ClassesRank(now, q, r) {
      assert ClassesRank(ts, q, r);
    }
  }

  lemma StillAtMost(seqs: seq<int>, bound: int, cpu: nat, now: int)
    requires AtMost(seqs, bound) && cpu < |seqs| && bound <= now
    ensures AtMost(seqs[cpu := now], now)
  {}

  /** What is left of a selection when cpu and the siblings that run their picks have taken theirs. */
  lemma LeftIsOk(ts: seq<seq<Task>>, picks: seq<Option<Task>>, left: seq<Option<Task>>, curr: seq<Task>, cpu: nat)
    requires |ts| == |picks| == |left| == |curr| && cpu < |ts| && AllOwn(ts, picks)
    requires forall r :: 0 <= r < |left| ==>
      left[r] == if r == cpu || picks[r] == Some(curr[r]) then None else picks[r]
    ensures CacheOk(ts, left, picks, {cpu})
  {
    forall r | 0 <= r < |left| && left[r].Some? ensures OwnPick(ts, left, r) {
      assert OwnPick(ts, picks, r);
    }
  }

  /** The selection ends: ranks are as they should be, at most top, and there is no livelock. */
  ghost predicate Selectable(ts: seq<seq<Task>>, cpu: nat, top: int) {
    Ranked(ts) && Bounds(ts, top) && !Livelock(ts, cpu)
  }

  /** The invariant of the sibling loop when i siblings have had their turn at class cls. */
  ghost predicate AtTurn(ts: seq<seq<Task>>, s: LoopState, cls: nat, cpu: nat, i: nat)
    requires cpu < |ts|
  {
    Inv(ts, s) && Covered(ts, s.picks, cls, cpu, i)
  }

  /** How pick_next_task() found its answer. */
  datatype How = Cached | Alone | CoreWide

  /** One core: its siblings' runqueues and the state they share. */
  class Core {
    const n: nat
    var runnable: seq<seq<Task>>
    var curr: seq<Task>
    var corePick: seq<Option<Task>>
    var coreSchedSeq: seq<int>
    var coreTaskSeq: nat
    var corePickSeq: nat
    var coreCookie: nat
    var coreForceIdle: bool
    var coreForceIdleSeq: nat
    /** core_occupation of the tasks picked last */
    var occupation: nat

    /** The last core-wide selection, the siblings whose part in it has been taken, and how many
        enqueues, dequeues and single-CPU picks the core has seen since. */
    ghost var selection: Selection
    ghost var served: set<nat>
    ghost var changes: nat

    ghost predicate Valid()
      reads this
    {
      && n > 0
      && |runnable| == |curr| == |corePick| == |coreSchedSeq| == |selection.picks| == n
      && Ranked(runnable)
      && coreTaskSeq == corePickSeq + changes
      && AtMost(coreSchedSeq, corePickSeq)
      && (changes == 0 ==> CacheOk(runnable, corePick, selection.picks, served))
    }

    constructor (n: nat)
      requires n > 0
      ensures Valid() && this.n == n && (forall r :: 0 <= r < n ==> runnable[r] == [] && curr[r] == Idle(r))
    {
      this.n := n;
      runnable := seq(n, _ => []);
      curr := seq(n, (r: nat) => Idle(r));
      corePick := seq(n, _ => None);
      coreSchedSeq := seq(n, _ => 0);
      coreTaskSeq, corePickSeq, coreCookie := 0, 0, 0;
      coreForceIdle, coreForceIdleSeq, occupation := false, 0, 0;
      selection := Selection([], seq(n, _ => None), 0, false, 0, 0);
      served := {};
      changes := 0;
    }

    /** sched_core_enqueue(), with the runqueue it is called for. */
    method Enqueue(cpu: nat, t: Task)
      requires Valid() && cpu < n && t !in runnable[cpu] && Ranked(runnable[cpu := runnable[cpu] + [t]])
      modifies this`runnable, this`coreTaskSeq, this`changes
      ensures Valid() && runnable == old(runnable)[cpu := old(runnable)[cpu] + [t]]
      ensures changes == old(changes) + 1
    {
      runnable := runnable[cpu := runnable[cpu] + [t]];
      coreTaskSeq := coreTaskSeq + 1;
      changes := changes + 1;
    }

    /** sched_core_dequeue(), with the runqueue it is called for. */
    method Dequeue(cpu: nat, i: nat)
      requires Valid() && cpu < n && i < |runnable[cpu]|
      modifies this`runnable, this`coreTaskSeq, this`changes
      ensures Valid() && runnable == old(runnable)[cpu := old(runnable)[cpu][..i] + old(runnable)[cpu][i + 1..]]
      ensures changes == old(changes) + 1
    {
      ghost var before := runnable;
      runnable := runnable[cpu := runnable[cpu][..i] + runnable[cpu][i + 1..]];
      assert forall r, t :: 0 <= r < n && t in runnable[r] ==> t in before[r];
      StillRanked(before, runnable);
      coreTaskSeq := coreTaskSeq + 1;
      changes := changes + 1;
    }

    /** The loop variables as one value. */
    ghost function Slate(occ: nat, max: Option<Task>, m: nat): LoopState
      reads this
    {
      LoopState(corePick, coreCookie, occ, coreForceIdle, max, m)
    }

    /** Sibling r has its turn at class cls; `again` is the source's `goto again`. */
    method Visit(cls: nat, r: nat, occ: nat, max: Option<Task>, ghost m: nat, fiBefore: bool)
      returns (occ': nat, max': Option<Task>, ghost m': nat, again: bool)
      requires |corePick| == |runnable| && r < |runnable|
      requires forall t :: t in runnable[r] ==> !IsIdle(t)
      modifies this`corePick, this`coreCookie, this`coreForceIdle, this`coreForceIdleSeq
      ensures Slate(occ', max', m') == Turn(runnable, old(Slate(occ, max, m)), cls, r)
      ensures var p := Offer(runnable, old(Slate(occ, max, m)), cls, r);
        again <==> p.Some? && Wipes(old(Slate(occ, max, m)), p.value)
      ensures var p := Offer(runnable, old(Slate(occ, max, m)), cls, r);
        coreForceIdleSeq == old(coreForceIdleSeq)
          + if !fiBefore && p.Some? && IsIdle(p.value) && runnable[r] != [] then 1 else 0
    {
      occ', max', m', again := occ, max, m, false;
      if corePick[r].Some? {
        return;
      }
      var p := PickTask(runnable[r], r, cls, coreCookie, max);
      if p.None? {
        return;
      }
      if !IsIdle(p.value) {
        occ' := occ + 1;
      }
      corePick := corePick[r := p];
      if p.value == Idle(r) && runnable[r] != [] {
        coreForceIdle := true;
        if !fiBefore {
          coreForceIdleSeq := coreForceIdleSeq + 1;
        }
      }
      if max.None? || !CookieMatch(max.value, p.value) {
        coreCookie := p.value.cookie;
        max' := p;
        m' := r;
        if max.Some? {
          coreForceIdle := false;
          WipeOthers(r);
          occ' := 1;
          again := true;
        }
      }
    }

    /** Take back every pick but sibling r's. */
    method WipeOthers(r: nat)
      requires r < |corePick|
      modifies this`corePick
      ensures corePick == seq(|old(corePick)|, _ => None)[r := old(corePick)[r]]
    {
      var j := 0;
      while j < |corePick|
        invariant 0 <= j <= |corePick| == |old(corePick)|
        invariant forall k :: 0 <= k < j ==> corePick[k] == if k == r then old(corePick)[r] else None
        invariant forall k :: j <= k < |corePick| ==> corePick[k] == old(corePick)[k]
      {
        if j != r {
          corePick := corePick[j := None];
        }
        j := j + 1;
      }
    }

    /** The turn of the sibling i places after cpu: it keeps the invariant, and it wipes the slate, to begin
        again, only for a max of larger key. */
    method TakeTurn(
      cpu: nat, i: nat, cls: nat, occ: nat, max: Option<Task>, ghost m: nat, fiBefore: bool, ghost top: int)
      returns (occ': nat, max': Option<Task>, ghost m': nat, next: nat)
      requires n == |runnable| && cpu < n && i < n && cls <= IDLE_CLASS && Selectable(runnable, cpu, top)
      requires AtTurn(runnable, Slate(occ, max, m), cls, cpu, i)
      modifies this`corePick, this`coreCookie, this`coreForceIdle, this`coreForceIdleSeq
      ensures next <= n && AtTurn(runnable, Slate(occ', max', m'), cls, cpu, next)
      ensures 0 <= Fuel(runnable, cpu, max', top)
      ensures if next == i + 1 then Fuel(runnable, cpu, max', top) <= Fuel(runnable, cpu, max, top)
        else Fuel(runnable, cpu, max', top) < Fuel(runnable, cpu, max, top)
      ensures fiBefore ==> coreForceIdleSeq == old(coreForceIdleSeq)
    {
      TurnKeeps(runnable, Slate(occ, max, m), cls, cpu, i);
      var again;
      occ', max', m', again := Visit(cls, Sibling(cpu, i, n), occ, max, m, fiBefore);
      if again { WipeRaisesKey(runnable, cpu, max.value, i, max'.value); }
      FuelLeft(runnable, cpu, Slate(occ', max', m'), top);
      next := if again then 0 else i + 1;
    }

    /** The sibling loop for one class, restarted whenever the slate is wiped. */
    method SelectClass(cpu: nat, cls: nat, occ: nat, max: Option<Task>, ghost m: nat, fiBefore: bool)
      returns (occ': nat, max': Option<Task>, ghost m': nat)
      requires n == |runnable| && cpu < n && cls <= IDLE_CLASS && Ranked(runnable) && !Livelock(runnable, cpu)
      requires AtTurn(runnable, Slate(occ, max, m), cls, cpu, 0)
      modifies this`corePick, this`coreCookie, this`coreForceIdle, this`coreForceIdleSeq
      ensures AtTurn(runnable, Slate(occ', max', m'), cls, cpu, n)
      ensures fiBefore ==> coreForceIdleSeq == old(coreForceIdleSeq)
    {
      ghost var top := TopRankAll(runnable);
      occ', max', m' := occ, max, m;
      var i := 0;
      FuelLeft(runnable, cpu, Slate(occ, max, m), top);
      ghost var fuel := Fuel(runnable, cpu, max, top);
      while i < n
        invariant 0 <= i <= n && AtTurn(runnable, Slate(occ', max', m'), cls, cpu, i)
        invariant fuel == Fuel(runnable, cpu, max', top) >= 0
        invariant fiBefore ==> coreForceIdleSeq == old(coreForceIdleSeq)
        decreases fuel, n - i
      {
        occ', max', m', i := TakeTurn(cpu, i, cls, occ', max', m', fiBefore, top);
        fuel := Fuel(runnable, cpu, max', top);
      }
    }

    /** The double loop of pick_next_task(): classes in descending order, siblings starting at
        `cpu`. */
    method Select(cpu: nat, fiBefore: bool) returns (occ: nat, ghost sel: Selection)
      requires cpu < n == |runnable| && Ranked(runnable) && coreCookie == 0 && !coreForceIdle
      requires !Livelock(runnable, cpu)
      modifies this`corePick, this`coreCookie, this`coreForceIdle, this`coreForceIdleSeq
      ensures Good(sel) && Describes(sel, occ) && sel.picks == corePick
      ensures AllOwn(runnable, corePick)
      ensures fiBefore ==> coreForceIdleSeq == old(coreForceIdleSeq)
    {
      corePick := seq(n, _ => None);
      var max: Option<Task> := None;
      ghost var m: nat := 0;
      occ := 0;
      EmptySlate(runnable, corePick, cpu);
      var cls := 0;
      while cls <= IDLE_CLASS
        invariant 0 <= cls <= IDLE_CLASS + 1
        invariant Inv(runnable, Slate(occ, max, m))
        invariant cls <= IDLE_CLASS ==> Covered(runnable, corePick, cls, cpu, 0)
        invariant cls > IDLE_CLASS ==> AllPicked(corePick)
        invariant fiBefore ==> coreForceIdleSeq == old(coreForceIdleSeq)
      {
        occ, max, m := SelectClass(cpu, cls, occ, max, m, fiBefore);
        if cls < IDLE_CLASS { CoverNext(runnable, corePick, cls, cpu); }
        else { EveryonePicked(runnable, corePick, cpu); }
        cls := cls + 1;
      }
      sel := DoneIsGood(runnable, Slate(occ, max, m));
    }

    /** The last selection's pick for this CPU is still good. */
    predicate Fast(cpu: nat)
      requires cpu < |corePick| && cpu < |coreSchedSeq|
      reads this
    {
      corePickSeq == coreTaskSeq && corePickSeq != coreSchedSeq[cpu] && corePick[cpu].Some?
    }

    /** Nothing on the core is tagged, so far as this CPU can tell. */
    predicate Untagged(cpu: nat)
      requires cpu < |runnable|
      reads this
    {
      coreCookie == 0 && !coreForceIdle && FirstPick(runnable[cpu], cpu, 0).cookie == 0
    }

    /** The highest class with a task on this CPU picks it. */
    method PickAlone(cpu: nat) returns (next: Task)
      requires cpu < |runnable| && Ranked(runnable)
      ensures next == Idle(cpu) || next in runnable[cpu]
      ensures BestOf(runnable[cpu], next) && next == FirstPick(runnable[cpu], cpu, 0)
    {
      assert ClassesRank(runnable, cpu, cpu);
      var cls := 0;
      var p := ClassPick(runnable[cpu], cpu, cls);
      while p.None?
        invariant 0 <= cls <= IDLE_CLASS && p == ClassPick(runnable[cpu], cpu, cls)
        invariant forall t :: t in runnable[cpu] ==> t.cls >= cls
        invariant FirstPick(runnable[cpu], cpu, cls) == FirstPick(runnable[cpu], cpu, 0)
        decreases IDLE_CLASS - cls
      {
        cls := cls + 1;
        p := ClassPick(runnable[cpu], cpu, cls);
      }
      next := p.value;
    }

    /** The tail of a core-wide selection: siblings that already run their pick forget it, the
        others keep it for their own call. */
    method Reschedule(cpu: nat)
      requires |corePick| == |curr| && cpu < |corePick|
      modifies this`corePick
      ensures |corePick| == |old(corePick)|
      ensures forall r :: 0 <= r < |corePick| ==>
        corePick[r] == if r == cpu || old(corePick)[r] == Some(curr[r]) then None else old(corePick)[r]
    {
      var i := 0;
      while i < |corePick|
        invariant 0 <= i <= |corePick| == |old(corePick)|
        invariant forall r :: 0 <= r < i ==>
          corePick[r] == if r == cpu || old(corePick)[r] == Some(curr[r]) then None else old(corePick)[r]
        invariant forall r :: i <= r < |corePick| ==> corePick[r] == old(corePick)[r]
      {
        if corePick[i].Some? && (i == cpu || curr[i] == corePick[i].value) {
          corePick := corePick[i := None];
        }
        i := i + 1;
      }
    }

    /** The selection was made on the runqueues as they are and is what the core's fields say. */
    ghost predicate Describes(sel: Selection, occ: nat)
      reads this`runnable, this`coreCookie, this`coreForceIdle
    {
      sel.ts == runnable && sel.cookie == coreCookie && sel.fi == coreForceIdle && sel.occ == occ
    }

    /** What follows a core-wide selection: it becomes the core's current one, this CPU takes its
        part, and the siblings keep or forget theirs. */
    method Publish(cpu: nat, occ: nat, ghost sel: Selection) returns (next: Task)
      requires cpu < n && |runnable| == |curr| == |corePick| == |coreSchedSeq| == n && Ranked(runnable)
      requires AtMost(coreSchedSeq, corePickSeq) && corePickSeq <= coreTaskSeq
      requires AllOwn(runnable, corePick) && sel.picks == corePick && Describes(sel, occ)
      modifies this`corePickSeq, this`coreSchedSeq, this`corePick, this`curr, this`occupation
      modifies this`changes, this`served, this`selection
      ensures Valid() && curr == old(curr)[cpu := next] && Some(next) == sel.picks[cpu]
      ensures occupation == occ && changes == 0 && served == {cpu} && selection == sel && Describes(sel, occupation)
      ensures Kept(cpu, old(curr))
    {
      ghost var picks := corePick;
      next := corePick[cpu].value;
      Vouch(cpu, occ, sel);
      Reschedule(cpu);
      LeftIsOk(runnable, picks, corePick, curr, cpu);
      curr := curr[cpu := next];
    }

    /** The sequence numbers vouch for the selection, and this CPU's part of it counts as taken. */
    method Vouch(cpu: nat, occ: nat, ghost sel: Selection)
      requires cpu < |coreSchedSeq| && AtMost(coreSchedSeq, corePickSeq) && corePickSeq <= coreTaskSeq
      modifies this`corePickSeq, this`coreSchedSeq, this`occupation, this`changes, this`served, this`selection
      ensures corePickSeq == coreTaskSeq && AtMost(coreSchedSeq, corePickSeq)
      ensures coreSchedSeq == old(coreSchedSeq)[cpu := coreTaskSeq] && occupation == occ
      ensures changes == 0 && served == {cpu} && selection == sel
    {
      StillAtMost(coreSchedSeq, corePickSeq, cpu, coreTaskSeq);
      corePickSeq := coreTaskSeq;
      coreSchedSeq := coreSchedSeq[cpu := corePickSeq];
      occupation := occ;
      changes, served, selection := 0, {cpu}, sel;
    }

    /** Every other sibling keeps its part of the selection for its own call, unless it runs that
        task already. */
    ghost predicate Kept(cpu: nat, running: seq<Task>)
      reads this`selection, this`corePick
    {
      && |running| == |selection.picks| == |corePick|
      && forall r :: 0 <= r < |corePick| && r != cpu ==>
           corePick[r] == if selection.picks[r] == Some(running[r]) then None else selection.picks[r]
    }

    /** A selection was just made on the runqueues as they are, it is good, and `next` is this CPU's
        part of it. */
    ghost predicate JustSelected(cpu: nat, next: Task)
      reads this
      requires cpu < |selection.picks|
    {
      && changes == 0 && served == {cpu} && Some(next) == selection.picks[cpu]
      && Good(selection) && Describes(selection, occupation)
    }

    /** The fast path: the pick the last selection left for this CPU. */
    method TakeCached(cpu: nat) returns (next: Task)
      requires Valid() && cpu < n && changes == 0 && corePick[cpu].Some?
      modifies this`coreSchedSeq, this`corePick, this`curr, this`served
      ensures Valid() && curr == old(curr)[cpu := next] && OwnPick(runnable, selection.picks[cpu := Some(next)], cpu)
      ensures cpu !in old(served) && served == old(served) + {cpu} && Some(next) == selection.picks[cpu]
    {
      coreSchedSeq := coreSchedSeq[cpu := corePickSeq];
      next := corePick[cpu].value;
      corePick := corePick[cpu := None];
      curr := curr[cpu := next];
      served := served + {cpu};
      assert AtMost(coreSchedSeq, corePickSeq);
      assert OwnPick(runnable, old(corePick), cpu);
      assert forall r :: 0 <= r < n && r != cpu ==>
        OwnPick(runnable, old(corePick), r) == OwnPick(runnable, corePick, r);
    }

    /** A pick by this CPU alone: an untagged task while the core's cookie is clear. */
    method TakeAlone(cpu: nat, next: Task)
      requires Valid() && cpu < n && changes > 0
      modifies this`corePick, this`curr
      ensures Valid() && curr == old(curr)[cpu := next]
    {
      corePick := corePick[cpu := None];
      curr := curr[cpu := next];
    }

    /** What a new pick does to the core's state first. */
    method Begin() returns (needSync: bool, fiBefore: bool)
      requires Valid()
      modifies this`coreTaskSeq, this`coreCookie, this`coreForceIdle, this`changes
      ensures Valid() && changes == old(changes) + 1 && coreCookie == 0 && !coreForceIdle
      ensures needSync == (old(coreCookie) != 0 || old(coreForceIdle)) && fiBefore == old(coreForceIdle)
    {
      needSync := coreCookie != 0;
      fiBefore := false;
      coreCookie := 0;
      if coreForceIdle {
        needSync := true;
        fiBefore := true;
        coreForceIdle := false;
      }
      coreTaskSeq := coreTaskSeq + 1;
      changes := changes + 1;
    }

    /** A new selection for the whole core. */
    method PickCoreWide(cpu: nat, fiBefore: bool) returns (next: Task, ghost sel: Selection)
      requires cpu < n && |runnable| == |curr| == |coreSchedSeq| == n && Ranked(runnable) && !Livelock(runnable, cpu)
      requires AtMost(coreSchedSeq, corePickSeq) && corePickSeq <= coreTaskSeq && coreCookie == 0 && !coreForceIdle
      modifies this`corePickSeq, this`coreSchedSeq, this`corePick, this`curr, this`occupation
      modifies this`coreCookie, this`coreForceIdle, this`coreForceIdleSeq, this`changes, this`served, this`selection
      ensures Valid() && curr == old(curr)[cpu := next] && Kept(cpu, old(curr))
      ensures Good(sel) && selection == sel
      ensures changes == 0 && served == {cpu} && Some(next) == sel.picks[cpu]
      ensures Describes(sel, occupation)
    {
      var occ;
      occ, sel := Select(cpu, fiBefore);
      next := Publish(cpu, occ, sel);
    }

    /** pick_next_task() without a cached pick: alone if nothing on the core is tagged, else for the
        whole core. */
    method PickAfresh(cpu: nat) returns (next: Task, how: How)
      requires Valid() && cpu < n && (Untagged(cpu) || !Livelock(runnable, cpu))
      modifies this`corePickSeq, this`coreTaskSeq, this`coreSchedSeq, this`corePick, this`curr, this`occupation
      modifies this`coreCookie, this`coreForceIdle, this`coreForceIdleSeq, this`changes, this`served, this`selection
      ensures Valid() && curr == old(curr)[cpu := next]
      ensures how == if old(Untagged(cpu)) then Alone else CoreWide
      ensures how.Alone? ==> next.cookie == 0 && changes == old(changes) + 1 && BestOf(runnable[cpu], next)
      ensures how.CoreWide? ==> JustSelected(cpu, next) && Kept(cpu, old(curr))
    {
      var needSync, fiBefore := Begin();
      if !needSync {
        next := PickAlone(cpu);
        if next.cookie == 0 {
          assert !fiBefore;
          TakeAlone(cpu, next);
          return next, Alone;
        }
      }
      ghost var sel;
      next, sel := PickCoreWide(cpu, fiBefore);
      how := CoreWide;
    }

    /** pick_next_task() on an online CPU with core scheduling enabled, in the states from which it
        returns. */
    method PickNextTask(cpu: nat) returns (next: Task, how: How)
      requires Valid() && cpu < n && (Fast(cpu) || Untagged(cpu) || !Livelock(runnable, cpu))
      modifies this`corePickSeq, this`coreTaskSeq, this`coreSchedSeq, this`corePick, this`curr, this`occupation
      modifies this`coreCookie, this`coreForceIdle, this`coreForceIdleSeq, this`changes, this`served, this`selection
      ensures Valid() && curr == old(curr)[cpu := next]
      ensures how == if old(Fast(cpu)) then Cached else if old(Untagged(cpu)) then Alone else CoreWide
      ensures how.Cached? ==>
        && old(changes) == 0 && cpu !in old(served) && Some(next) == old(selection).picks[cpu]
        && changes == 0 && selection == old(selection) && served == old(served) + {cpu}
      ensures how.Alone? ==> next.cookie == 0 && changes == old(changes) + 1 && BestOf(runnable[cpu], next)
      ensures how.CoreWide? ==> JustSelected(cpu, next) && Kept(cpu, old(curr))
    {
      if corePickSeq == coreTaskSeq && corePickSeq != coreSchedSeq[cpu] && corePick[cpu].Some? {
        next := TakeCached(cpu);
        how := Cached;
      } else {
        next, how := PickAfresh(cpu);
      }
    }
  }
}
