/** When the double loop of pick_next_task() ends: always, except while two siblings offer tasks with equal
    deadlines and different cookies that can take each other's place for ever. */
module CoreSchedLoop {
  import opened Sequences
  import opened CoreSched

  /** Where the loop is: the slate, the class, and how many siblings have had their turn at it. */
  datatype At = At(s: LoopState, cls: nat, i: nat)

  predicate Over(c: At) { c.cls > IDLE_CLASS }

  predicate Fits(ts: seq<seq<Task>>, cpu: nat, c: At) { cpu < |ts| == |c.s.picks| && c.i <= |ts| }

  /** One turn, or the step to the next class; a wipe goes back to the first sibling. */
  function Next(ts: seq<seq<Task>>, cpu: nat, c: At): (d: At)
    requires Fits(ts, cpu, c) && !Over(c)
    ensures Fits(ts, cpu, d)
  {
    if c.i == |ts| then At(c.s, c.cls + 1, 0)
    else
      var r := Sibling(cpu, c.i, |ts|);
      var p := Offer(ts, c.s, c.cls, r);
      At(Turn(ts, c.s, c.cls, r), c.cls, if p.Some? && Wipes(c.s, p.value) then 0 else c.i + 1)
  }

  function After(ts: seq<seq<Task>>, cpu: nat, c: At, k: nat): At
    requires Fits(ts, cpu, c)
    decreases k
  {
    if k == 0 || Over(c) then c else After(ts, cpu, Next(ts, cpu, c), k - 1)
  }

  function Start(ts: seq<seq<Task>>): At {
    At(LoopState(seq(|ts|, _ => None), 0, 0, false, None, 0), 0, 0)
  }

  /** The selection comes to an end. */
  ghost predicate Ends(ts: seq<seq<Task>>, cpu: nat)
    requires cpu < |ts|
  {
    exists k: nat :: Over(After(ts, cpu, Start(ts), k))
  }

  ghost predicate LoopInv(ts: seq<seq<Task>>, cpu: nat, c: At) {
    Fits(ts, cpu, c) && (Over(c) || (Inv(ts, c.s) && Covered(ts, c.s.picks, c.cls, cpu, c.i)))
  }

  lemma StartInv(ts: seq<seq<Task>>, cpu: nat)
    requires cpu < |ts|
    ensures LoopInv(ts, cpu, Start(ts))
  {
    EmptySlate(ts, Start(ts).s.picks, cpu);
  }

  lemma NextInv(ts: seq<seq<Task>>, cpu: nat, c: At)
    requires Ranked(ts) && LoopInv(ts, cpu, c) && !Over(c)
    ensures LoopInv(ts, cpu, Next(ts, cpu, c))
  {
    if c.i < |ts| {
      TurnKeeps(ts, c.s, c.cls, cpu, c.i);
    } else if c.cls < IDLE_CLASS {
      CoverNext(ts, c.s.picks, c.cls, cpu);
    }
  }

  // ---------------------------------------------------------------- without rivals it ends

  lemma {:induction false} EndsFrom(ts: seq<seq<Task>>, cpu: nat, c: At, top: int) returns (k: nat)
    requires Ranked(ts) && Bounds(ts, top) && LoopInv(ts, cpu, c) && !Livelock(ts, cpu)
    ensures Over(After(ts, cpu, c, k))
    decreases if Over(c) then 0 else IDLE_CLASS + 1 - c.cls,
      if Over(c) then 0 else Fuel(ts, cpu, c.s.max, top), |ts| - c.i
  {
    if Over(c) {
      k := 0;
    } else {
      var d := Next(ts, cpu, c);
      NextInv(ts, cpu, c);
      FuelLeft(ts, cpu, c.s, top);
      if c.i < |ts| {
        FuelLeft(ts, cpu, d.s, top);
        TurnFuel(ts, cpu, c, top);
      }
      var rest := EndsFrom(ts, cpu, d, top);
      k := rest + 1;
    }
  }

  lemma TurnFuel(ts: seq<seq<Task>>, cpu: nat, c: At, top: int)
    requires Ranked(ts) && Bounds(ts, top) && LoopInv(ts, cpu, c) && !Livelock(ts, cpu) && !Over(c) && c.i < |ts|
    ensures var d := Next(ts, cpu, c);
      d.cls == c.cls
      && (Fuel(ts, cpu, d.s.max, top) < Fuel(ts, cpu, c.s.max, top)
          || (Fuel(ts, cpu, d.s.max, top) == Fuel(ts, cpu, c.s.max, top) && d.i == c.i + 1))
  {
    var r := Sibling(cpu, c.i, |ts|);
    var p := Offer(ts, c.s, c.cls, r);
    TurnKeeps(ts, c.s, c.cls, cpu, c.i);
    FuelLeft(ts, cpu, Next(ts, cpu, c).s, top);
    if p.Some? && Wipes(c.s, p.value) {
      WipeRaisesKey(ts, cpu, c.s.max.value, c.i, p.value);
    }
  }

  // ---------------------------------------------------------------- with rivals it does not

  /** The loop is at the deadline class or before, and max is not beyond the rivals. */
  ghost predicate Trapped(ts: seq<seq<Task>>, cpu: nat, c: At, t: Task, u: Task) {
    && LoopInv(ts, cpu, c) && c.cls <= DL_CLASS
    && (c.cls < DL_CLASS ==> c.s.max.None?)
    && (c.s.max.Some? ==> Short(c.s.max.value, t, u))
  }

  /** A deadline task below the rivals or one of them. */
  predicate Short(max: Task, t: Task, u: Task) { max.cls == DL_CLASS && (max.rank < t.rank || max == t || max == u) }

  /** One of the rivals can take the place of such a max. */
  lemma SomeRivalDisplaces(ts: seq<seq<Task>>, cpu: nat, k: nat, l: nat, t: Task, u: Task, max: Task)
    requires Rivals(ts, cpu, k, l, t, u) && Short(max, t, u)
    ensures Displaces(t, max) || (max.cookie == t.cookie && Displaces(u, max))
  {
    OffersAreDeadline(ts, cpu, k, t);
    OffersAreDeadline(ts, cpu, l, u);
  }

  /** Whoever takes max's place first is not beyond the rivals either. */
  lemma DisplacerIsShort(ts: seq<seq<Task>>, cpu: nat, k: nat, l: nat, t: Task, u: Task, max: Task, i: nat, p: Task)
    requires Rivals(ts, cpu, k, l, t, u) && Short(max, t, u) && FirstDisplacer(ts, cpu, max, i, p)
    ensures Short(p, t, u)
  {
    OffersAreDeadline(ts, cpu, i, p);
    OffersAreDeadline(ts, cpu, k, t);
    OffersAreDeadline(ts, cpu, l, u);
    SomeRivalDisplaces(ts, cpu, k, l, t, u, max);
    if p.rank >= t.rank {
      assert Candidate(ts, cpu, i, t.rank);
      if Displaces(t, max) {
        assert i <= k;
      } else {
        assert i <= l;
      }
    }
  }

  /** While nobody has been picked, the first to have a turn with something to offer is not beyond them. */
  lemma FirstPickIsShort(ts: seq<seq<Task>>, cpu: nat, k: nat, l: nat, t: Task, u: Task, i: nat, p: Task)
    requires Rivals(ts, cpu, k, l, t, u) && Offers(ts, cpu, i, p)
    requires forall j, v :: 0 <= j < i ==> !Offers(ts, cpu, j, v)
    ensures Short(p, t, u)
  {
    OffersAreDeadline(ts, cpu, i, p);
    assert i <= k;
    if p.rank >= t.rank { assert Candidate(ts, cpu, i, t.rank); }
  }

  /** Siblings that have had their turn either were picked or had no deadline task. */
  lemma VisitedOffersNothing(ts: seq<seq<Task>>, cpu: nat, c: At, j: nat, v: Task)
    requires LoopInv(ts, cpu, c) && c.cls == DL_CLASS && j < c.i && Offers(ts, cpu, j, v)
    ensures c.s.max.Some? && (c.s.max.value.cls == DL_CLASS ==> !Displaces(v, c.s.max.value))
  {
    var q := Sibling(cpu, j, |ts|);
    assert Visited(q, cpu, c.i, |ts|);
    assert c.s.picks[q].Some?;
  }

  lemma NotThrough(ts: seq<seq<Task>>, cpu: nat, c: At, k: nat, l: nat, t: Task, u: Task)
    requires Trapped(ts, cpu, c, t, u) && Rivals(ts, cpu, k, l, t, u) && c.cls == DL_CLASS
    ensures c.i < |ts|
  {
    if c.i == |ts| {
      VisitedOffersNothing(ts, cpu, c, k, t);
      VisitedOffersNothing(ts, cpu, c, l, u);
      SomeRivalDisplaces(ts, cpu, k, l, t, u, c.s.max.value);
    }
  }

  lemma TrapHolds(ts: seq<seq<Task>>, cpu: nat, c: At, k: nat, l: nat, t: Task, u: Task)
    requires Ranked(ts) && NothingAboveDeadline(ts) && Rivals(ts, cpu, k, l, t, u) && Trapped(ts, cpu, c, t, u)
    ensures Trapped(ts, cpu, Next(ts, cpu, c), t, u)
  {
    NextInv(ts, cpu, c);
    if c.cls == DL_CLASS {
      NotThrough(ts, cpu, c, k, l, t, u);
      TurnKeeps(ts, c.s, c.cls, cpu, c.i);
      var r := Sibling(cpu, c.i, |ts|);
      var p := Offer(ts, c.s, c.cls, r);
      if p.Some? && c.s.max.None? {
        forall j, v | 0 <= j < c.i ensures !Offers(ts, cpu, j, v) {
          if Offers(ts, cpu, j, v) { VisitedOffersNothing(ts, cpu, c, j, v); }
        }
        assert Offers(ts, cpu, c.i, p.value);
        FirstPickIsShort(ts, cpu, k, l, t, u, c.i, p.value);
      } else if p.Some? && Wipes(c.s, p.value) {
        DisplacerIsShort(ts, cpu, k, l, t, u, c.s.max.value, c.i, p.value);
      }
    } else if c.i < |ts| {
      assert ClassPick(ts[Sibling(cpu, c.i, |ts|)], Sibling(cpu, c.i, |ts|), c.cls).None?;
    }
  }

  lemma {:induction false} NeverOver(ts: seq<seq<Task>>, cpu: nat, c: At, k: nat, l: nat, t: Task, u: Task, n: nat)
    requires Ranked(ts) && NothingAboveDeadline(ts) && Rivals(ts, cpu, k, l, t, u) && Trapped(ts, cpu, c, t, u)
    ensures !Over(After(ts, cpu, c, n))
    decreases n
  {
    if n > 0 {
      TrapHolds(ts, cpu, c, k, l, t, u);
      NeverOver(ts, cpu, Next(ts, cpu, c), k, l, t, u, n - 1);
    }
  }

  /** The selection ends if and only if there is no livelock: a condition on the deadline tasks at the head of
      the runqueues and the order in which the siblings have their turn. */
  lemma EndsExactlyWhen(ts: seq<seq<Task>>, cpu: nat)
    requires Ranked(ts) && cpu < |ts|
    ensures Ends(ts, cpu) <==> !Livelock(ts, cpu)
  {
    StartInv(ts, cpu);
    if Livelock(ts, cpu) {
      var k, l, t, u :| Rivals(ts, cpu, k, l, t, u);
      forall n: nat ensures !Over(After(ts, cpu, Start(ts), n)) {
        NeverOver(ts, cpu, Start(ts), k, l, t, u, n);
      }
    } else {
      var n := EndsFrom(ts, cpu, Start(ts), TopRankAll(ts));
    }
  }

  // ---------------------------------------------------------------- a core that never gets an answer

  const A: Task := Task(1, 1, DL_CLASS, 5)
  const B: Task := Task(2, 2, DL_CLASS, 5)

  /** Task B was just put in A's place. */
  const ROUND: At := At(LoopState([None, Some(B)], 2, 1, false, Some(B), 1), DL_CLASS, 0)

  lemma PickSingle(t: Task, cpu: nat, cls: nat)
    requires cls < IDLE_CLASS && t.cls < IDLE_CLASS
    ensures ClassPick([t], cpu, cls) == if t.cls == cls then Some(t) else None
  {
    assert forall x :: x in [t] <==> x == t;
  }

  lemma CookieSingle(t: Task, cpu: nat, cookie: nat)
    requires t.cookie != cookie
    ensures CookiePick([t], cpu, cookie) == Idle(cpu)
  {
    assert forall x :: x in [t] <==> x == t;
  }

  const PAIR: seq<seq<Task>> := [[A], [B]]

  lemma PairIsRanked()
    ensures Ranked(PAIR) && NothingAboveDeadline(PAIR)
  {
    assert forall x :: (x in PAIR[0] <==> x == A) && (x in PAIR[1] <==> x == B);
  }

  lemma PairIsRivals()
    ensures Rivals(PAIR, 0, 0, 1, A, B)
  {
    PickSingle(A, 0, DL_CLASS);
    PickSingle(B, 1, DL_CLASS);
  }

  /** A max of this deadline gives way to the other task. */
  lemma TheOtherIsPicked(t: Task, cpu: nat, max: Task)
    requires Tagged(t, 5) && Tagged(max, 5) && t.cookie != max.cookie
    ensures PickTask([t], cpu, DL_CLASS, max.cookie, Some(max)) == Some(t)
  {
    PickSingle(t, cpu, DL_CLASS);
    CookieSingle(t, cpu, max.cookie);
  }

  /** Task A was just put in B's place. */
  const BACK: At := At(LoopState([Some(A), None], 1, 1, false, Some(A), 0), DL_CLASS, 0)

  lemma BGivesWay()
    ensures Next(PAIR, 0, ROUND) == BACK
  {
    TheOtherIsPicked(A, 0, B);
    assert Next(PAIR, 0, ROUND).s.picks == [Some(A), None];
  }

  lemma AStays()
    ensures Next(PAIR, 0, BACK) == BACK.(i := 1)
  {}

  lemma AGivesWay()
    ensures Next(PAIR, 0, BACK.(i := 1)) == ROUND
  {
    TheOtherIsPicked(B, 1, A);
    assert Next(PAIR, 0, BACK.(i := 1)).s.picks == [None, Some(B)];
  }

  /** Two tasks with equal deadlines and different cookies, alone on two siblings: three turns after B took A's
      place the loop is where it was, and the selection never ends. */
  lemma TwoDeadlinesGoRound()
    ensures Ranked(PAIR) && Livelock(PAIR, 0) && !Ends(PAIR, 0)
    ensures After(PAIR, 0, ROUND, 3) == ROUND && !Over(ROUND)
  {
    PairIsRanked();
    PairIsRivals();
    EndsExactlyWhen(PAIR, 0);
    BGivesWay();
    AStays();
    AGivesWay();
    Thrice(PAIR, 0, ROUND);
  }

  lemma Thrice(ts: seq<seq<Task>>, cpu: nat, c: At)
    requires Fits(ts, cpu, c) && !Over(c) && !Over(Next(ts, cpu, c)) && !Over(Next(ts, cpu, Next(ts, cpu, c)))
    ensures After(ts, cpu, c, 3) == Next(ts, cpu, Next(ts, cpu, Next(ts, cpu, c)))
  {
    var d := Next(ts, cpu, c);
    var e := Next(ts, cpu, d);
    assert After(ts, cpu, e, 1) == After(ts, cpu, Next(ts, cpu, e), 0);
    assert After(ts, cpu, d, 2) == After(ts, cpu, e, 1);
  }
}
