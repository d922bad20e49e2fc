/** CFS bandwidth limits of task groups: a new quota or period is accepted only if the hierarchy stays
    feasible, which is decided by a walk over the whole tree. */
module CfsBandwidth {
  import opened TgWalk

  const EINVAL: int := -22
  const NSEC_PER_USEC: nat := 1000
  const MIN_PERIOD: nat := 1_000_000
  const MAX_PERIOD: nat := 1_000_000_000
  /** MAX_BW, and with it the longest quota: the ratio's 20 fraction bits have to fit. */
  const MAX_BW: nat := 0xFFF_FFFF_FFFF
  const MAX_RUNTIME: nat := MAX_BW * NSEC_PER_USEC
  const U64_MAX: nat := 0xFFFF_FFFF_FFFF_FFFF

  /** A quota or a ratio; Inf is RUNTIME_INF. */
  datatype Quota = Inf | Lim(n: nat)

  /** period, quota and burst in nanoseconds */
  datatype Limit = Limit(period: nat, quota: Quota, burst: nat)

  /** to_ratio() of a limited quota */
  function ToRatio(period: nat, runtime: nat): nat {
    if period == 0 then 0 else runtime * 0x10_0000 / period
  }

  /** normalize_cfs_quota(): the group's share of a CPU, in units of 2^-20. */
  function Share(l: Limit): Quota {
    if l.quota.Inf? then Inf else Lim(ToRatio(l.period / NSEC_PER_USEC, l.quota.n / NSEC_PER_USEC))
  }

  function Shares(ls: seq<Limit>): (shares: seq<Quota>)
    ensures |shares| == |ls| && forall g :: 0 <= g < |ls| ==> shares[g] == Share(ls[g])
  {
    seq(|ls|, g requires 0 <= g < |ls| => Share(ls[g]))
  }

  predicate InBounds(l: Limit) {
    l.quota.Lim? ==> MIN_PERIOD <= l.period <= MAX_PERIOD && l.quota.n <= MAX_RUNTIME
  }

  /** Within the bounds the shifted quota fits 64 bits and the ratio fits a signed 64-bit number. */
  lemma RatioFits(l: Limit)
    requires InBounds(l) && l.quota.Lim?
    ensures (l.quota.n / NSEC_PER_USEC) * 0x10_0000 <= U64_MAX
    ensures Share(l).n <= U64_MAX / 2
  {
    var q, p := l.quota.n / NSEC_PER_USEC, l.period / NSEC_PER_USEC;
    assert q <= MAX_BW && p >= 1000;
    DivShrinks(q * 0x10_0000, p);
  }

  lemma DivShrinks(x: nat, p: nat)
    requires p >= 2
    ensures x / p <= x / 2
  {
    assert x == (x / p) * p + x % p;
    Grow(x / p, p);
  }

  lemma Grow(b: nat, p: nat)
    requires p >= 2
    ensures b * 2 <= b * p
  {
    assert b * p == b * (p - 2) + b * 2;
  }

  // ---------------------------------------------------------------- what a share is

  /** The ratio is the quotient rounded down to a multiple of 2^-20. */
  lemma RatioRounds(period: nat, runtime: nat)
    requires period > 0
    ensures ToRatio(period, runtime) * period <= runtime * 0x10_0000 < (ToRatio(period, runtime) + 1) * period
  {
    var x := runtime * 0x10_0000;
    assert x == (x / period) * period + x % period;
  }

  /** The microseconds in a limited group's period and quota. */
  function PeriodUs(l: Limit): nat { l.period / NSEC_PER_USEC }

  function RuntimeUs(l: Limit): nat
    requires l.quota.Lim?
  {
    l.quota.n / NSEC_PER_USEC
  }

  /** The limit comes to at least n * 2^-20 of a CPU. */
  predicate Reaches(l: Limit, n: nat)
    requires l.quota.Lim?
  {
    n * PeriodUs(l) <= RuntimeUs(l) * 0x10_0000
  }

  /** Every multiple of 2^-20 of a CPU that l reaches, `above` reaches too. */
  ghost predicate ReachesNoMore(l: Limit, above: Limit)
    requires l.quota.Lim? && above.quota.Lim?
  {
    forall n: nat :: Reaches(l, n) ==> Reaches(above, n)
  }

  /** l is at most as large a part of a CPU as `above`. */
  predicate NoLarger(l: Limit, above: Limit)
    requires l.quota.Lim? && above.quota.Lim?
  {
    RuntimeUs(l) * PeriodUs(above) <= RuntimeUs(above) * PeriodUs(l)
  }

  /** l is larger than `above` by at least 2^-20 of a CPU. */
  predicate LargerByUnit(l: Limit, above: Limit)
    requires l.quota.Lim? && above.quota.Lim?
  {
    RuntimeUs(l) * PeriodUs(above) * 0x10_0000
      >= RuntimeUs(above) * PeriodUs(l) * 0x10_0000 + PeriodUs(l) * PeriodUs(above)
  }

  lemma Monotone(m: nat, n: nat, p: nat)
    requires m <= n
    ensures m * p <= n * p
  {
    assert n * p == m * p + (n - m) * p;
  }

  lemma ShareIsHighestReached(l: Limit, n: nat)
    requires InBounds(l) && l.quota.Lim?
    ensures Reaches(l, n) <==> n <= Share(l).n
  {
    var p, r := PeriodUs(l), Share(l).n;
    RatioRounds(p, RuntimeUs(l));
    if n <= r { Monotone(n, r, p); } else { Monotone(r + 1, n, p); }
  }

  /** Which of two limits has the larger share, exactly. */
  lemma SharesCompare(l: Limit, above: Limit)
    requires InBounds(l) && InBounds(above) && l.quota.Lim? && above.quota.Lim?
    ensures Share(l).n <= Share(above).n <==> ReachesNoMore(l, above)
  {
    forall n: nat ensures (Reaches(l, n) <==> n <= Share(l).n) && (Reaches(above, n) <==> n <= Share(above).n) {
      ShareIsHighestReached(l, n);
      ShareIsHighestReached(above, n);
    }
    assert Reaches(l, Share(l).n);
  }

  lemma Cancel(x: nat, y: nat, p: nat)
    requires p > 0 && x * p <= y * p
    ensures x <= y
  {
    if x > y { Monotone(y + 1, x, p); }
  }

  lemma Swap(a: nat, b: nat, c: nat)
    ensures a * b * c == a * c * b
  {}

  lemma OneMore(r: nat, p: nat, pa: nat)
    ensures (r + 1) * p * pa == r * p * pa + p * pa
  {}

  /** n * p <= q * u and q / p <= qa / pa make n * pa <= qa * u. */
  lemma Scale(n: nat, q: nat, p: nat, qa: nat, pa: nat, u: nat)
    requires p > 0 && n * p <= q * u && q * pa <= qa * p
    ensures n * pa <= qa * u
  {
    var x, y := n * pa, qa * u;
    assert x * p <= y * p by {
      Swap(n, pa, p);
      Monotone(n * p, q * u, pa);
      Swap(q, u, pa);
      Monotone(q * pa, qa * p, u);
      Swap(qa, p, u);
    }
    Cancel(x, y, p);
  }

  /** r * pa <= qa * u and q / p >= qa / pa + 1 / u make (r + 1) * p <= q * u. */
  lemma Exceeds(r: nat, q: nat, p: nat, qa: nat, pa: nat, u: nat)
    requires pa > 0 && r * pa <= qa * u && q * pa * u >= qa * p * u + p * pa
    ensures (r + 1) * p <= q * u
  {
    var x, y := (r + 1) * p, q * u;
    assert x * pa <= y * pa by {
      OneMore(r, p, pa);
      Swap(r, p, pa);
      Monotone(r * pa, qa * u, p);
      Swap(qa, u, p);
      Swap(q, u, pa);
    }
    Cancel(x, y, pa);
  }

  lemma NoLargerReachesNoMore(l: Limit, above: Limit)
    requires InBounds(l) && InBounds(above) && l.quota.Lim? && above.quota.Lim? && NoLarger(l, above)
    ensures ReachesNoMore(l, above)
  {
    forall n: nat | Reaches(l, n) ensures Reaches(above, n) {
      Scale(n, RuntimeUs(l), PeriodUs(l), RuntimeUs(above), PeriodUs(above), 0x10_0000);
    }
  }

  lemma LargerByUnitReachesMore(l: Limit, above: Limit)
    requires InBounds(l) && InBounds(above) && l.quota.Lim? && above.quota.Lim? && LargerByUnit(l, above)
    ensures !ReachesNoMore(l, above)
  {
    var r := Share(above).n;
    ShareIsHighestReached(above, r);
    ShareIsHighestReached(above, r + 1);
    Exceeds(r, RuntimeUs(l), PeriodUs(l), RuntimeUs(above), PeriodUs(above), 0x10_0000);
    assert Reaches(l, r + 1);
  }

  // ---------------------------------------------------------------- feasibility

  /** Group 0 is the root and every other group is below it. */
  predicate IsTree(t: Forest) {
    IsForest(t) && |t.par| > 0 && t.par[0].None? && forall g :: 1 <= g < |t.par| ==> t.par[g].Some?
  }

  lemma {:induction false} AllUnderRoot(t: Forest, g: nat)
    requires IsTree(t) && g < |t.par|
    ensures Under(t, 0, g)
    decreases g
  {
    assert Linked(t, g);
    if g > 0 { AllUnderRoot(t, t.par[g].value); }
  }

  /** The share a group has to stay within: its own, or that of the nearest limited group above it;
      the root is unlimited. */
  function Ceiling(t: Forest, shares: seq<Quota>, g: nat): Quota
    requires IsForest(t) && |shares| == |t.par| && g < |shares|
    decreases g
  {
    assert Linked(t, g);
    if t.par[g].None? then Inf
    else if shares[g].Inf? then Ceiling(t, shares, t.par[g].value)
    else shares[g]
  }

  /** Every group's hierarchical quota is its ceiling. */
  ghost predicate Ceilings(t: Forest, shares: seq<Quota>, hier: seq<Quota>)
    requires IsForest(t) && |shares| == |t.par| == |hier|
  {
    forall g :: 0 <= g < |hier| ==> hier[g] == Ceiling(t, shares, g)
  }

  predicate AtMost(a: Quota, b: Quota) { b.Inf? || (a.Lim? && a.n <= b.n) }

  /** Group g does not ask for more than the nearest limited group above it has. */
  predicate Fits(t: Forest, shares: seq<Quota>, g: nat)
    requires IsForest(t) && |shares| == |t.par| && g < |shares|
  {
    assert Linked(t, g);
    t.par[g].None? || shares[g].Inf? || AtMost(shares[g], Ceiling(t, shares, t.par[g].value))
  }

  predicate Feasible(t: Forest, shares: seq<Quota>)
    requires IsForest(t) && |shares| == |t.par|
  {
    forall g :: 0 <= g < |shares| ==> Fits(t, shares, g)
  }

  /** A limit below the root. */
  predicate Limited(t: Forest, shares: seq<Quota>, g: nat)
    requires |shares| == |t.par| && g < |shares|
  {
    t.par[g].Some? && shares[g].Lim?
  }

  /** Feasibility without walking: no limited group has a larger share than a limited group above it. */
  ghost predicate NoneExceedsAbove(t: Forest, shares: seq<Quota>)
    requires IsForest(t) && |shares| == |t.par|
  {
    forall a, g ::
      (0 <= a < |shares| && 0 <= g < |shares| && Limited(t, shares, a) && Limited(t, shares, g) && Under(t, a, g))
      ==> shares[g].n <= shares[a].n
  }

  /** In a feasible tree a group's ceiling is below the ceiling of every group above it. */
  lemma {:induction false} CeilingsFall(t: Forest, shares: seq<Quota>, a: nat, g: nat)
    requires IsForest(t) && |shares| == |t.par| && Feasible(t, shares) && a < |shares| && g < |shares| && Under(t, a, g)
    ensures AtMost(Ceiling(t, shares, g), Ceiling(t, shares, a))
    decreases g
  {
    assert Linked(t, g) && Fits(t, shares, g);
    if g != a { CeilingsFall(t, shares, a, t.par[g].value); }
  }

  /** A ceiling is the share of a limited group. */
  lemma {:induction false} CeilingIsAShare(t: Forest, shares: seq<Quota>, g: nat) returns (a: nat)
    requires IsForest(t) && |shares| == |t.par| && g < |shares| && Ceiling(t, shares, g).Lim?
    ensures a < |shares| && Limited(t, shares, a) && Under(t, a, g) && Ceiling(t, shares, g) == shares[a]
    decreases g
  {
    assert Linked(t, g);
    a := g;
    if shares[g].Inf? { a := CeilingIsAShare(t, shares, t.par[g].value); }
  }

  /** Comparing with the nearest limited group above is enough. */
  lemma FeasibleMeans(t: Forest, shares: seq<Quota>)
    requires IsForest(t) && |shares| == |t.par|
    ensures Feasible(t, shares) <==> NoneExceedsAbove(t, shares)
  {
    if Feasible(t, shares) {
      forall a, g | 0 <= a < |shares| && 0 <= g < |shares|
        && Limited(t, shares, a) && Limited(t, shares, g) && Under(t, a, g)
        ensures shares[g].n <= shares[a].n
      {
        CeilingsFall(t, shares, a, g);
      }
    }
    if NoneExceedsAbove(t, shares) {
      forall g | 0 <= g < |shares| ensures Fits(t, shares, g) {
        assert Linked(t, g);
        if Limited(t, shares, g) && Ceiling(t, shares, t.par[g].value).Lim? {
          var a := CeilingIsAShare(t, shares, t.par[g].value);
          assert Under(t, a, g);
        }
      }
    }
  }

  /** Group a is at or above g, and both are limited. */
  ghost predicate LimitedAbove(t: Forest, ls: seq<Limit>, a: nat, g: nat)
    requires IsForest(t) && |ls| == |t.par|
  {
    && a < |ls| && g < |ls| && Under(t, a, g) && t.par[a].Some? && t.par[g].Some?
    && ls[a].quota.Lim? && ls[g].quota.Lim?
  }

  /** No limited group reaches more than a limited group above it. */
  ghost predicate NoneReachesMore(t: Forest, ls: seq<Limit>)
    requires IsForest(t) && |ls| == |t.par|
  {
    forall a: nat, g: nat :: LimitedAbove(t, ls, a, g) ==> ReachesNoMore(ls[g], ls[a])
  }

  ghost predicate NoneLarger(t: Forest, ls: seq<Limit>)
    requires IsForest(t) && |ls| == |t.par|
  {
    forall a: nat, g: nat :: LimitedAbove(t, ls, a, g) ==> NoLarger(ls[g], ls[a])
  }

  ghost predicate SomeLargerByUnit(t: Forest, ls: seq<Limit>)
    requires IsForest(t) && |ls| == |t.par|
  {
    exists a: nat, g: nat :: LimitedAbove(t, ls, a, g) && LargerByUnit(ls[g], ls[a])
  }

  ghost predicate AllInBounds(ls: seq<Limit>) { forall g :: 0 <= g < |ls| ==> InBounds(ls[g]) }

  /** Feasibility in quotas and periods: no limited group may reach a multiple of 2^-20 of a CPU that a limited
      group above it does not reach. */
  lemma FeasibleLimits(t: Forest, ls: seq<Limit>)
    requires IsForest(t) && |ls| == |t.par| && AllInBounds(ls)
    ensures Feasible(t, Shares(ls)) <==> NoneReachesMore(t, ls)
  {
    FeasibleMeans(t, Shares(ls));
    if Feasible(t, Shares(ls)) {
      forall a: nat, g: nat | LimitedAbove(t, ls, a, g) ensures ReachesNoMore(ls[g], ls[a]) {
        assert Limited(t, Shares(ls), a) && Limited(t, Shares(ls), g);
        SharesCompare(ls[g], ls[a]);
      }
    }
    if NoneReachesMore(t, ls) {
      forall a, g | 0 <= a < |ls| && 0 <= g < |ls|
        && Limited(t, Shares(ls), a) && Limited(t, Shares(ls), g) && Under(t, a, g)
        ensures Shares(ls)[g].n <= Shares(ls)[a].n
      {
        assert LimitedAbove(t, ls, a, g);
        SharesCompare(ls[g], ls[a]);
      }
    }
  }

  /** Limits of which none is larger than one above it are feasible; limits of which one is larger than one above
      it, by 2^-20 of a CPU or more, are not. */
  lemma FeasibleUpToAUnit(t: Forest, ls: seq<Limit>)
    requires IsForest(t) && |ls| == |t.par| && AllInBounds(ls)
    ensures NoneLarger(t, ls) ==> NoneReachesMore(t, ls)
    ensures SomeLargerByUnit(t, ls) ==> !NoneReachesMore(t, ls)
  {
    if NoneLarger(t, ls) {
      forall a: nat, g: nat | LimitedAbove(t, ls, a, g) ensures ReachesNoMore(ls[g], ls[a]) {
        NoLargerReachesNoMore(ls[g], ls[a]);
      }
    }
    if SomeLargerByUnit(t, ls) {
      var a: nat, g: nat :| LimitedAbove(t, ls, a, g) && LargerByUnit(ls[g], ls[a]);
      LargerByUnitReachesMore(ls[g], ls[a]);
    }
  }

  // ---------------------------------------------------------------- the walk

  /** tg_cfs_schedulable_down() on the legacy hierarchy; h holds the hierarchical quotas. */
  function Down(t: Forest, shares: seq<Quota>, h: seq<Quota>, g: nat): (seq<Quota>, int) {
    if !IsForest(t) || !(g < |h| == |shares| == |t.par|) then (h, 0)
    else
      assert Linked(t, g);
      if t.par[g].None? then (h[g := Inf], 0)
      else
        var above := h[t.par[g].value];
        if shares[g].Inf? then (h[g := above], 0)
        else if above.Lim? && shares[g].n > above.n then (h, EINVAL)
        else (h[g := shares[g]], 0)
  }

  function DownWith(t: Forest, shares: seq<Quota>): Visitor<seq<Quota>> {
    (h: seq<Quota>, g: nat) => Down(t, shares, h, g)
  }

  /** tg_nop() */
  function Nop(): Visitor<seq<Quota>> { (h: seq<Quota>, g: nat) => (h, 0) }

  function WalkFrom(t: Forest, shares: seq<Quota>, es: seq<Event>, h: seq<Quota>): (seq<Quota>, int) {
    Run(es, h, DownWith(t, shares), Nop())
  }

  /** What a walk over the groups in `some` did to h. */
  ghost predicate Walked(t: Forest, shares: seq<Quota>, h: seq<Quota>, r: (seq<Quota>, int), some: iset<nat>)
    requires IsForest(t) && |shares| == |t.par|
  {
    && |r.0| == |h| == |shares|
    && (r.1 == 0 || r.1 == EINVAL)
    && (r.1 == 0 <==> forall x :: 0 <= x < |shares| && x in some ==> Fits(t, shares, x))
    && (r.1 == 0 ==> forall x :: 0 <= x < |shares| ==> r.0[x] == if x in some then Ceiling(t, shares, x) else h[x])
  }

  ghost function Below(t: Forest, g: nat): iset<nat>
    requires IsForest(t)
  {
    iset x: nat | x < |t.par| && Under(t, g, x)
  }

  ghost function BelowKids(t: Forest, g: nat, k: nat): iset<nat>
    requires IsForest(t) && g < |t.par|
  {
    iset x: nat | x < |t.par| && UnderKid(t, g, k, x)
  }

  lemma {:induction false} TourWalks(t: Forest, shares: seq<Quota>, g: nat, h: seq<Quota>)
    requires IsForest(t) && |h| == |shares| == |t.par| && g < |shares|
    requires t.par[g].Some? ==> Linked(t, g) && h[t.par[g].value] == Ceiling(t, shares, t.par[g].value)
    ensures Walked(t, shares, h, WalkFrom(t, shares, Tour(t, g), h), Below(t, g))
    decreases |t.par| - g, |t.kids[g]| + 1
  {
    assert Linked(t, g);
    var d, mid := DownWith(t, shares), KidTours(t, g, 0);
    var (h1, ret) := Down(t, shares, h, g);
    RunAppend([TgWalk.Down(g)], mid + [Up(g)], h, d, Nop());
    assert [TgWalk.Down(g)] + (mid + [Up(g)]) == Tour(t, g);
    assert [TgWalk.Down(g)][1..] == [];
    assert Run([TgWalk.Down(g)], h, d, Nop()) == (h1, ret);
    forall x: nat | x < |t.par| ensures x in Below(t, g) <==> x == g || x in BelowKids(t, g, 0) {
      UnderSomeKid(t, g, x);
    }
    assert g in Below(t, g);
    if ret == 0 {
      RunAppend(mid, [Up(g)], h1, d, Nop());
      KidToursWalk(t, shares, g, 0, h1);
      NotUnderOwnKid(t, g);
      var (h2, ret2) := WalkFrom(t, shares, mid, h1);
      assert Run([Up(g)], h2, d, Nop()) == (h2, 0);
    }
  }

  lemma NotUnderOwnKid(t: Forest, g: nat)
    requires IsForest(t) && g < |t.par|
    ensures g !in BelowKids(t, g, 0)
  {
    if UnderKid(t, g, 0, g) {
      var j :| 0 <= j < |t.kids[g]| && Under(t, t.kids[g][j], g);
      assert KidOf(t, g, j);
      UnderIsLater(t, t.kids[g][j], g);
    }
  }

  lemma {:induction false} KidToursWalk(t: Forest, shares: seq<Quota>, g: nat, k: nat, h: seq<Quota>)
    requires IsForest(t) && |h| == |shares| == |t.par| && g < |shares| && k <= |t.kids[g]|
    requires h[g] == Ceiling(t, shares, g)
    ensures Walked(t, shares, h, WalkFrom(t, shares, KidTours(t, g, k), h), BelowKids(t, g, k))
    decreases |t.par| - g, |t.kids[g]| - k
  {
    if k < |t.kids[g]| {
      assert KidOf(t, g, k);
      var c, d := t.kids[g][k], DownWith(t, shares);
      RunAppend(Tour(t, c), KidTours(t, g, k + 1), h, d, Nop());
      TourWalks(t, shares, c, h);
      var (h1, ret) := WalkFrom(t, shares, Tour(t, c), h);
      if ret == 0 {
        NotUnderOwnKid(t, g);
        assert g !in Below(t, c);
        KidToursWalk(t, shares, g, k + 1, h1);
      }
      assert forall x :: x in BelowKids(t, g, k) <==> x in Below(t, c) || x in BelowKids(t, g, k + 1);
    }
  }

  /** The walk from the root accepts exactly the feasible trees, and then leaves every group's ceiling
      as its hierarchical quota. */
  lemma WalkDecides(t: Forest, shares: seq<Quota>, h: seq<Quota>)
    requires IsTree(t) && |h| == |shares| == |t.par|
    ensures var (h', ret) := WalkFrom(t, shares, Tour(t, 0), h);
      && |h'| == |h|
      && (ret == 0 <==> Feasible(t, shares)) && (ret != 0 ==> ret == EINVAL)
      && (ret == 0 ==> Ceilings(t, shares, h'))
  {
    TourWalks(t, shares, 0, h);
    forall g: nat | g < |t.par| ensures g in Below(t, 0) {
      AllUnderRoot(t, g);
    }
  }

  // ---------------------------------------------------------------- setting a limit

  /** tg_set_cfs_bandwidth() up to the hierarchy. */
  predicate Acceptable(g: nat, l: Limit) {
    && g != 0
    && !(l.quota.Lim? && l.quota.n < MIN_PERIOD) && l.period >= MIN_PERIOD
    && l.period <= MAX_PERIOD
    && !(l.quota.Lim? && l.quota.n > MAX_RUNTIME)
    && !(l.quota.Lim? && (l.burst > l.quota.n || l.burst + l.quota.n > MAX_RUNTIME))
  }

  /** Group g may get limit l: it is acceptable by itself and keeps the tree feasible. */
  predicate Admissible(t: Forest, ls: seq<Limit>, g: nat, l: Limit)
    requires IsForest(t) && |ls| == |t.par| && g < |ls|
  {
    Acceptable(g, l) && Feasible(t, Shares(ls[g := l]))
  }

  class Bandwidth {
    const tree: Forest
    var limit: seq<Limit>
    /** hierarchical_quota */
    var hier: seq<Quota>

    ghost predicate Shape()
      reads this
    {
      IsTree(tree) && |limit| == |hier| == |tree.par|
    }

    /** The tree is feasible and every limit within its bounds. */
    ghost predicate Valid()
      reads this
    {
      Shape() && Feasible(tree, Shares(limit)) && AllInBounds(limit)
    }

    constructor (t: Forest, period: nat)
      requires IsTree(t)
      ensures Valid() && tree == t && forall g :: 0 <= g < |limit| ==> limit[g] == Limit(period, Inf, 0)
    {
      tree := t;
      limit := seq(|t.par|, _ => Limit(period, Inf, 0));
      hier := seq(|t.par|, _ => Inf);
    }

    /** __cfs_schedulable() */
    method Schedulable(g: nat, period: nat, quota: Quota) returns (ret: int)
      requires Shape() && g < |limit|
      modifies this`hier
      ensures Shape() && (ret == 0 || ret == EINVAL)
      ensures ret == 0 <==> Feasible(tree, Shares(limit[g := Limit(period, quota, 0)]))
      ensures ret == 0 ==> Ceilings(tree, Shares(limit[g := Limit(period, quota, 0)]), hier)
      ensures AllInBounds(limit[g := Limit(period, quota, 0)]) ==>
        (ret == 0 <==> NoneReachesMore(tree, limit[g := Limit(period, quota, 0)]))
    {
      var p, q := period, quota;
      if quota.Lim? {
        p, q := period / NSEC_PER_USEC, Lim(quota.n / NSEC_PER_USEC);
      }
      var shares := Shares(limit)[g := if q.Inf? then Inf else Lim(ToRatio(p, q.n))];
      assert shares == Shares(limit[g := Limit(period, quota, 0)]);
      WalkDecides(tree, shares, hier);
      hier, ret := Walk(tree, 0, DownWith(tree, shares), Nop(), hier);
      ghost var ls := limit[g := Limit(period, quota, 0)];
      if AllInBounds(ls) { FeasibleLimits(tree, ls); }
    }

    /** tg_set_cfs_bandwidth(): succeeds exactly for acceptable limits that keep the tree feasible, and
        otherwise leaves every limit as it is. It accepts whatever makes no group's part of a CPU larger than
        that of a group above it, and refuses whatever makes one larger by 2^-20 of a CPU or more. */
    method SetBandwidth(g: nat, l: Limit) returns (ret: int)
      requires Valid() && g < |limit|
      modifies this
      ensures Valid()
      ensures ret == 0 <==> Admissible(tree, old(limit), g, l)
      ensures ret == 0 <==> Acceptable(g, l) && NoneReachesMore(tree, old(limit)[g := l])
      ensures Acceptable(g, l) && NoneLarger(tree, old(limit)[g := l]) ==> ret == 0
      ensures SomeLargerByUnit(tree, old(limit)[g := l]) ==> ret == EINVAL
      ensures ret != 0 ==> ret == EINVAL && limit == old(limit)
      ensures ret == 0 ==> limit == old(limit)[g := l] && Ceilings(tree, Shares(limit), hier)
    {
      if g == 0 {
        return EINVAL;
      }
      if (l.quota.Lim? && l.quota.n < MIN_PERIOD) || l.period < MIN_PERIOD {
        return EINVAL;
      }
      if l.period > MAX_PERIOD {
        return EINVAL;
      }
      if l.quota.Lim? && l.quota.n > MAX_RUNTIME {
        return EINVAL;
      }
      if l.quota.Lim? && (l.burst > l.quota.n || l.burst + l.quota.n > MAX_RUNTIME) {
        return EINVAL;
      }
      FeasibleLimits(tree, limit[g := l]);
      FeasibleUpToAUnit(tree, limit[g := l]);
      ret := Schedulable(g, l.period, l.quota);
      assert Shares(limit[g := Limit(l.period, l.quota, 0)]) == Shares(limit[g := l]);
      if ret != 0 {
        return;
      }
      limit := limit[g := l];
    }

    /** tg_set_cfs_quota(); a negative value means unlimited. */
    method SetQuota(g: nat, us: int) returns (ret: int)
      requires Valid() && g < |limit|
      modifies this
      ensures Valid()
      ensures ret != 0 ==> ret == EINVAL && limit == old(limit)
      ensures ret == 0 ==> limit == old(limit)[g := old(limit)[g].(quota := limit[g].quota)]
      ensures ret == 0 ==> QuotaUs(limit[g]) == if us < 0 then -1 else us
      ensures us <= U64_MAX / NSEC_PER_USEC ==>
        (ret == 0 <==>
          Admissible(tree, old(limit), g,
            old(limit)[g].(quota := if us < 0 then Inf else Lim(us * NSEC_PER_USEC))))
    {
      var quota;
      if us < 0 {
        quota := Inf;
      } else if us <= U64_MAX / NSEC_PER_USEC {
        quota := Lim(us * NSEC_PER_USEC);
      } else {
        return EINVAL;
      }
      ret := SetBandwidth(g, limit[g].(quota := quota));
    }

    /** tg_set_cfs_period() */
    method SetPeriod(g: nat, us: nat) returns (ret: int)
      requires Valid() && g < |limit|
      modifies this
      ensures Valid()
      ensures ret != 0 ==> ret == EINVAL && limit == old(limit)
      ensures ret == 0 ==> limit == old(limit)[g := old(limit)[g].(period := limit[g].period)]
      ensures ret == 0 ==> limit[g].period / NSEC_PER_USEC == us
      ensures us <= U64_MAX / NSEC_PER_USEC ==>
        (ret == 0 <==> Admissible(tree, old(limit), g, old(limit)[g].(period := us * NSEC_PER_USEC)))
    {
      if us > U64_MAX / NSEC_PER_USEC {
        return EINVAL;
      }
      ret := SetBandwidth(g, limit[g].(period := us * NSEC_PER_USEC));
    }

    /** tg_set_cfs_burst() */
    method SetBurst(g: nat, us: nat) returns (ret: int)
      requires Valid() && g < |limit|
      modifies this
      ensures Valid()
      ensures ret != 0 ==> ret == EINVAL && limit == old(limit)
      ensures ret == 0 ==> limit == old(limit)[g := old(limit)[g].(burst := limit[g].burst)]
      ensures ret == 0 ==> limit[g].burst / NSEC_PER_USEC == us
      ensures us <= U64_MAX / NSEC_PER_USEC ==>
        (ret == 0 <==> Admissible(tree, old(limit), g, old(limit)[g].(burst := us * NSEC_PER_USEC)))
    {
      if us > U64_MAX / NSEC_PER_USEC {
        return EINVAL;
      }
      ret := SetBandwidth(g, limit[g].(burst := us * NSEC_PER_USEC));
    }
  }

  /** tg_get_cfs_quota() */
  function QuotaUs(l: Limit): int {
    if l.quota.Inf? then -1 else l.quota.n / NSEC_PER_USEC
  }
}
