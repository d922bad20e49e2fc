/** Tasklets: the per-CPU lists with a pointer to the last link, and the protocol of the SCHED and RUN
    bits by which any number of CPUs share the tasklets. */
module Tasklets {
  import opened Sequences

  // ---------------------------------------------------------------- the lists

  class Tasklet {
    var next: Tasklet?
  }

  /** Where `tail` points: the head of the list or the next field of a tasklet. */
  datatype Slot = HeadSlot | NextOf(t: Tasklet)

  /** The list that starts at p has the tasklets s. */
  ghost predicate Chain(p: Tasklet?, s: seq<Tasklet>)
    reads s
  {
    && (s == [] ==> p == null)
    && (s != [] ==> p == s[0] && s[|s| - 1].next == null)
    && forall i :: 0 <= i < |s| - 1 ==> s[i].next == s[i + 1]
  }

  ghost function LastSlot(s: seq<Tasklet>): Slot { if s == [] then HeadSlot else NextOf(s[|s| - 1]) }

  function Filter<T>(s: seq<T>, keep: T -> bool): seq<T> {
    if s == [] then [] else Filter(s[..|s| - 1], keep) + if keep(s[|s| - 1]) then [s[|s| - 1]] else []
  }

  /** Filtering keeps exactly the elements asked for; those it drops are the ones of the opposite filter. */
  lemma {:induction false} FilterIn<T>(s: seq<T>, keep: T -> bool, x: T)
    ensures x in Filter(s, keep) <==> x in s && keep(x)
  {
    if s != [] {
      FilterIn(s[..|s| - 1], keep, x);
      assert s == s[..|s| - 1] + [s[|s| - 1]];
    }
  }

  lemma FilterNext<T>(s: seq<T>, keep: T -> bool, i: nat)
    requires i < |s|
    ensures Filter(s[..i + 1], keep) == Filter(s[..i], keep) + if keep(s[i]) then [s[i]] else []
  {
    assert s[..i + 1][..i] == s[..i];
  }

  /** Two chains, the second linked behind the first, are one. */
  lemma Linked(p: Tasklet?, s: seq<Tasklet>, r: seq<Tasklet>)
    requires Distinct(s) && Distinct(r) && r != [] && forall t :: t in s ==> t !in r
    requires p == if s == [] then r[0] else s[0]
    requires forall i :: 0 <= i < |s| - 1 ==> s[i].next == s[i + 1]
    requires s != [] ==> s[|s| - 1].next == r[0]
    requires Chain(r[0], r)
    ensures Chain(p, s + r) && Distinct(s + r) && LastSlot(s + r) == LastSlot(r)
  {
    var all := s + r;
    DistinctAppend(s, r);
    forall i | 0 <= i < |all| - 1 ensures all[i].next == all[i + 1] {
      if i >= |s| { assert all[i] == r[i - |s|] && all[i + 1] == r[i + 1 - |s|]; }
    }
  }

  lemma ChainEnds(p: Tasklet?, s: seq<Tasklet>, i: nat)
    requires i <= |s| && Chain(p, s[i..])
    ensures p == null <==> i == |s|
  {}

  lemma ChainTail(p: Tasklet, s: seq<Tasklet>)
    requires Chain(p, s)
    ensures s != [] && Chain(p.next, s[1..])
  {
    var r := s[1..];
    forall i | 0 <= i < |r| - 1 ensures r[i].next == r[i + 1] {
      assert r[i] == s[i + 1];
    }
  }

  class TaskletHead {
    var head: Tasklet?
    var tail: Slot
    ghost var items: seq<Tasklet>

    ghost predicate Valid()
      reads this, items
    {
      Chain(head, items) && Distinct(items) && tail == LastSlot(items)
    }

    constructor ()
      ensures Valid() && items == []
    {
      head, tail, items := null, HeadSlot, [];
    }

    /** *tail = t */
    method Store(t: Tasklet?)
      requires tail == LastSlot(items)
      modifies this`head, set u | u in items && NextOf(u) == tail
      ensures tail.HeadSlot? ==> head == t
      ensures tail.NextOf? ==> head == old(head) && tail.t.next == t
    {
      match tail
      case HeadSlot => head := t;
      case NextOf(u) => u.next := t;
    }

    /** __tasklet_schedule_common(), and the requeueing in tasklet_action_common(). */
    method Append(t: Tasklet)
      requires Valid() && t !in items
      modifies this, t, set u | u in items && NextOf(u) == tail
      ensures Valid() && items == old(items) + [t]
    {
      t.next := null;
      Store(t);
      tail := NextOf(t);
      items := items + [t];
    }

    /** The start of tasklet_action_common(): the whole list is taken. */
    method Detach() returns (list: Tasklet?, ghost taken: seq<Tasklet>)
      requires Valid()
      modifies this
      ensures Valid() && items == [] && taken == old(items) && Chain(list, taken)
    {
      list, taken := head, items;
      head := null;
      tail := HeadSlot;
      items := [];
    }

    /** One vector of takeover_tasklets(): the list of a dead CPU is linked behind this one. */
    method TakeOver(dead: TaskletHead)
      requires Valid() && dead.Valid() && dead != this
      requires forall t :: t in items ==> t !in dead.items
      modifies this, dead, set u | u in items && NextOf(u) == tail
      ensures Valid() && dead.Valid()
      ensures items == old(items) + old(dead.items) && dead.items == []
    {
      ghost var mine, theirs := items, dead.items;
      if dead.tail != HeadSlot {
        Store(dead.head);
        tail := dead.tail;
        items := mine + theirs;
        dead.head := null;
        dead.tail := HeadSlot;
        dead.items := [];
        Linked(head, mine, theirs);
      } else {
        assert mine + theirs == mine;
      }
    }

    /** Append while a detached list with the tasklets `rest` starts at p. */
    method Requeue(t: Tasklet, p: Tasklet?, ghost rest: seq<Tasklet>)
      requires Valid() && t !in items && Chain(p, rest) && Apart(t, rest)
      modifies this, t, items
      ensures Valid() && items == old(items) + [t] && Chain(p, rest)
    {
      Append(t);
    }

    /** No tasklet of `rest` is t or queued here. */
    ghost predicate Apart(t: Tasklet, rest: seq<Tasklet>)
      reads this
    {
      forall k :: 0 <= k < |rest| ==> rest[k] != t && rest[k] !in items
    }

    /** Interrupts or callbacks schedule tasklets while a detached list with the tasklets `rest` starts at p. */
    method Arrive(ts: seq<Tasklet>, p: Tasklet?, ghost rest: seq<Tasklet>)
      requires Valid() && Chain(p, rest) && Distinct(items + ts) && Disjoint(rest, items + ts)
      modifies this, items, ts
      ensures Valid() && items == old(items) + ts && Chain(p, rest)
    {
      ghost var was := items;
      var i := 0;
      while i < |ts|
        invariant 0 <= i <= |ts| && Valid() && Chain(p, rest) && items == was + ts[..i]
      {
        OneMore(was, ts, i, rest);
        Requeue(ts[i], p, rest);
        i := i + 1;
      }
      assert ts[..i] == ts;
    }

    /** One turn of the loop in tasklet_action_common(): the first of the detached tasklets runs, or it
        is queued again. */
    method HandleOne(t: Tasklet, ghost rest: seq<Tasklet>, ready: Tasklet -> bool)
      returns (list: Tasklet?, ran: bool)
      requires Valid() && Distinct(rest) && rest != [] && Chain(t, rest) && Disjoint(rest, items)
      modifies this, items, t
      ensures Valid() && Chain(list, rest[1..]) && ran == ready(t)
      ensures items == old(items) + if ran then [] else [t]
    {
      ChainTail(t, rest);
      list := t.next;
      ran := ready(t);
      if !ran {
        assert forall k :: 0 <= k < |rest[1..]| ==> rest[1..][k] == rest[k + 1];
        assert t == rest[0];
        Requeue(t, list, rest[1..]);
      }
    }

    /** The list is taken, and the first tasklets arrive. */
    method Begin(ready: Tasklet -> bool, arrivals: seq<seq<Tasklet>>) returns (list: Tasklet?)
      requires Valid() && Admissible(items, ready, arrivals)
      modifies this, Coming(arrivals)
      ensures Valid() && Chain(list, old(items)[0..]) && items == Queued(old(items), ready, arrivals, 0)
    {
      ghost var all := items;
      QueuedFits(all, ready, arrivals, 0);
      assert all[0..] == all;
      ghost var rest;
      list, rest := Detach();
      Arrive(arrivals[0], list, all);
    }

    /** A turn, and what arrives after it. */
    method Turn(t: Tasklet, ready: Tasklet -> bool, arrivals: seq<seq<Tasklet>>, ghost all: seq<Tasklet>, done: nat)
      returns (list: Tasklet?, ran: bool)
      requires Valid() && Distinct(all) && Admissible(all, ready, arrivals) && done < |all|
      requires Chain(t, all[done..]) && items == Queued(all, ready, arrivals, done)
      modifies this, all, Coming(arrivals)
      ensures Valid() && Chain(list, all[done + 1..]) && ran == ready(t) && t == all[done]
      ensures items == Queued(all, ready, arrivals, done + 1)
    {
      TurnFits(all, ready, arrivals, done);
      list, ran := HandleOne(t, all[done..], ready);
      Arrive(arrivals[done + 1], list, all[done + 1..]);
    }

    /** tasklet_action_common(). ready(t) says that t can be locked and is not disabled; arrivals[k] are
        the tasklets that callbacks and interrupts schedule on this list between turn k and the one before.
        The ready ones run, in order; the others are queued again, in order, among the arriving ones. */
    method Action(ready: Tasklet -> bool, arrivals: seq<seq<Tasklet>>) returns (ran: seq<Tasklet>)
      requires Valid() && Admissible(items, ready, arrivals)
      modifies this, items, Coming(arrivals)
      ensures Valid()
      ensures ran == Filter(old(items), ready)
      ensures items == Queued(old(items), ready, arrivals, |old(items)|)
      ensures NoArrivals(arrivals) ==> items == Filter(old(items), t => !ready(t))
    {
      ghost var all := items;
      var list := Begin(ready, arrivals);
      ChainEnds(list, all, 0);
      ran := [];
      var done := 0;
      while list != null
        invariant 0 <= done <= |all| && Valid() && Chain(list, all[done..]) && (list == null <==> done == |all|)
        invariant items == Queued(all, ready, arrivals, done)
        invariant ran == Filter(all[..done], ready)
        decreases |all| - done
      {
        var t := list;
        var r;
        list, r := Turn(t, ready, arrivals, all, done);
        FilterNext(all, ready, done);
        done := done + 1;
        ChainEnds(list, all, done);
        if r {
          ran := ran + [t];
        }
      }
      assert all[..done] == all;
      if NoArrivals(arrivals) { QuietList(all, ready, arrivals, done); }
    }
  }

  /** What the list holds when `done` of the detached tasklets have been dealt with. */
  function Queued(all: seq<Tasklet>, ready: Tasklet -> bool, arrivals: seq<seq<Tasklet>>, done: nat): seq<Tasklet>
    requires done <= |all| < |arrivals|
  {
    if done == 0 then arrivals[0]
    else
      Queued(all, ready, arrivals, done - 1) + (if ready(all[done - 1]) then [] else [all[done - 1]]) + arrivals[done]
  }

  ghost function Coming(arrivals: seq<seq<Tasklet>>): set<Tasklet> {
    set k, t | 0 <= k < |arrivals| && t in arrivals[k] :: t
  }

  /** Nobody schedules a tasklet that is scheduled: one that waits in the detached list or in this one. A
      tasklet that has run may come again. */
  ghost predicate Admissible(all: seq<Tasklet>, ready: Tasklet -> bool, arrivals: seq<seq<Tasklet>>) {
    && |arrivals| == |all| + 1
    && Distinct(Queued(all, ready, arrivals, |all|))
    && forall k :: 0 <= k <= |all| ==> Disjoint(all[k..], arrivals[k])
  }

  lemma QueuedFits(all: seq<Tasklet>, ready: Tasklet -> bool, arrivals: seq<seq<Tasklet>>, done: nat)
    requires Distinct(all) && Admissible(all, ready, arrivals) && done <= |all|
    ensures Distinct(Queued(all, ready, arrivals, done)) && Disjoint(all[done..], Queued(all, ready, arrivals, done))
    ensures forall t :: t in Queued(all, ready, arrivals, done) ==> t in all || t in Coming(arrivals)
  {
    QueuedGrows(all, ready, arrivals, done);
    QueuedApart(all, ready, arrivals, done);
  }

  lemma {:induction false} QueuedGrows(
    all: seq<Tasklet>, ready: Tasklet -> bool, arrivals: seq<seq<Tasklet>>, done: nat)
    requires done <= |all| < |arrivals|
    ensures Queued(all, ready, arrivals, done) <= Queued(all, ready, arrivals, |all|)
    decreases |all| - done
  {
    if done < |all| { QueuedGrows(all, ready, arrivals, done + 1); }
  }

  lemma {:induction false} QueuedApart(
    all: seq<Tasklet>, ready: Tasklet -> bool, arrivals: seq<seq<Tasklet>>, done: nat)
    requires Distinct(all) && Admissible(all, ready, arrivals) && done <= |all|
    ensures Disjoint(all[done..], Queued(all, ready, arrivals, done))
    ensures forall t :: t in Queued(all, ready, arrivals, done) ==> t in all || t in Coming(arrivals)
  {
    assert Disjoint(all[done..], arrivals[done]);
    if done > 0 {
      QueuedApart(all, ready, arrivals, done - 1);
      var before, rest := all[done - 1..], all[done..];
      forall i | 0 <= i < |rest| ensures rest[i] !in Queued(all, ready, arrivals, done) {
        assert rest[i] == before[i + 1] && before[0] == all[done - 1];
      }
    }
  }

  lemma TurnFits(all: seq<Tasklet>, ready: Tasklet -> bool, arrivals: seq<seq<Tasklet>>, done: nat)
    requires Distinct(all) && Admissible(all, ready, arrivals) && done < |all|
    ensures Distinct(all[done..]) && Disjoint(all[done..], Queued(all, ready, arrivals, done))
    ensures all[done..][0] == all[done] && all[done..][1..] == all[done + 1..]
    ensures var next := Queued(all, ready, arrivals, done + 1);
      && next ==
           Queued(all, ready, arrivals, done) + (if ready(all[done]) then [] else [all[done]]) + arrivals[done + 1]
      && Distinct(next) && Disjoint(all[done + 1..], next)
      && forall t :: t in next ==> t in all || t in Coming(arrivals)
  {
    QueuedFits(all, ready, arrivals, done);
    QueuedFits(all, ready, arrivals, done + 1);
  }

  lemma OneMore(was: seq<Tasklet>, ts: seq<Tasklet>, i: nat, rest: seq<Tasklet>)
    requires i < |ts| && Distinct(was + ts) && Disjoint(rest, was + ts)
    ensures ts[i] !in was + ts[..i] && was + ts[..i + 1] == was + ts[..i] + [ts[i]]
    ensures forall k :: 0 <= k < |rest| ==> rest[k] != ts[i] && rest[k] !in was + ts[..i]
  {
    var all := was + ts;
    assert all[|was| + i] == ts[i];
    assert was + ts[..i] == all[..|was| + i];
  }

  ghost predicate NoArrivals(arrivals: seq<seq<Tasklet>>) { forall k :: 0 <= k < |arrivals| ==> arrivals[k] == [] }

  /** When nothing arrives, the list is left with those that could not run. */
  lemma {:induction false} QuietList(all: seq<Tasklet>, ready: Tasklet -> bool, arrivals: seq<seq<Tasklet>>, done: nat)
    requires done <= |all| < |arrivals| && NoArrivals(arrivals)
    ensures Queued(all, ready, arrivals, done) == Filter(all[..done], t => !ready(t))
  {
    if done > 0 {
      QuietList(all, ready, arrivals, done - 1);
      assert all[..done][..done - 1] == all[..done - 1];
    }
  }

  /** Every tasklet of the old list has run or is queued again, and every arrival is queued. */
  lemma {:induction false} QueuedMembers(
    all: seq<Tasklet>, ready: Tasklet -> bool, arrivals: seq<seq<Tasklet>>, done: nat, t: Tasklet)
    requires done <= |all| < |arrivals|
    ensures t in Queued(all, ready, arrivals, done) <==>
      (t in all[..done] && !ready(t)) || exists k :: 0 <= k <= done && t in arrivals[k]
  {
    if done > 0 {
      QueuedMembers(all, ready, arrivals, done - 1, t);
      assert all[..done] == all[..done - 1] + [all[done - 1]];
    }
  }
}
