/** The generator of callback chains: all placements of a chain's callbacks on the two machines with a
    given number of network edges, and UUniFast utilizations. */
module Chains {
  import opened Sequences

  // ---------------------------------------------------------------- placements

  function Other(c: char): char { if c == 'a' then 'b' else 'a' }

  /** [c] * n */
  function Rep(c: char, n: nat): (s: string)
    ensures |s| == n && forall i :: 0 <= i < n ==> s[i] == c
  {
    seq(n, _ => c)
  }

  /** How often the machine changes along a placement: the chain's network edges. */
  function Changes(s: string): nat {
    if |s| < 2 then 0 else Changes(s[1..]) + if s[0] != s[1] then 1 else 0
  }

  predicate IsMachine(c: char) { c == 'a' || c == 'b' }

  predicate Machines(s: string) { forall i :: 0 <= i < |s| ==> IsMachine(s[i]) }

  /** A placement that begins on `first` and changes machines `edges` times. */
  predicate Placement(s: string, first: char, edges: nat) {
    Machines(s) && (s != "" ==> s[0] == first) && Changes(s) == edges
  }

  /** generate_patterns(): the placements of n callbacks that go on from `path`, on machine `current`, with
      `left` changes to come. */
  function Patterns(current: char, left: nat, path: string, n: nat): seq<string>
    requires |path| <= n
    decreases left, 1, 0
  {
    if left == 0 then [path + Rep(current, n - |path|)] else PatternsFrom(current, left, path, n, 1)
  }

  /** Those that stay on `current` for at least i callbacks. */
  function PatternsFrom(current: char, left: nat, path: string, n: nat, i: nat): seq<string>
    requires |path| <= n && left > 0
    decreases left, 0, n + 1 - i
  {
    if i > n - |path| - left then []
    else Patterns(Other(current), left - 1, path + Rep(current, i), n) + PatternsFrom(current, left, path, n, i + 1)
  }

  /** The method of the script: recursion over the edges, a loop over the length of the next stay. */
  method GeneratePatterns(current: char, left: nat, path: string, n: nat) returns (results: seq<string>)
    requires |path| <= n
    ensures results == Patterns(current, left, path, n)
    decreases left
  {
    if left == 0 {
      return [path + Rep(current, n - |path|)];
    }
    results := [];
    var next := Other(current);
    var i := 1;
    while i < n - |path| - left + 1
      invariant i >= 1
      invariant results + PatternsFrom(current, left, path, n, i) == Patterns(current, left, path, n)
    {
      var more := GeneratePatterns(next, left - 1, path + Rep(current, i), n);
      results := results + more;
      i := i + 1;
    }
  }

  // ---------------------------------------------------------------- stays

  /** The length of the first stay. */
  function Stay(s: string): (k: nat)
    requires s != ""
    ensures 1 <= k <= |s| && (forall i :: 0 <= i < k ==> s[i] == s[0]) && (k < |s| ==> s[k] != s[0])
  {
    if |s| == 1 || s[1] != s[0] then 1
    else
      var k := Stay(s[1..]);
      assert forall i :: 1 <= i < k + 1 ==> s[i] == s[1..][i - 1];
      k + 1
  }

  lemma {:induction false} ChangesAfterStay(s: string, k: nat)
    requires s != "" && k == Stay(s)
    ensures Changes(s) == if k == |s| then 0 else Changes(s[k..]) + 1
  {
    if |s| == 1 {
    } else if s[1] != s[0] {
      assert s[1..] == s[k..];
    } else {
      ChangesAfterStay(s[1..], k - 1);
      assert s[1..][k - 1..] == s[k..];
    }
  }

  lemma {:induction false} ChangesBound(s: string)
    ensures s != "" ==> Changes(s) < |s|
    ensures Changes("") == 0
  {
    if |s| >= 2 { ChangesBound(s[1..]); }
  }

  lemma {:induction false} ChangesRep(c: char, n: nat)
    ensures Changes(Rep(c, n)) == 0
  {
    if n >= 2 {
      ChangesRep(c, n - 1);
      assert Rep(c, n)[1..] == Rep(c, n - 1);
    }
  }

  lemma {:induction false} NoChangeIsRep(s: string)
    requires s != "" && Changes(s) == 0
    ensures s == Rep(s[0], |s|)
  {
    ChangesAfterStay(s, Stay(s));
  }

  // ---------------------------------------------------------------- exactly the placements

  /** p goes on from path with a placement whose first stay is at least i long. */
  predicate GoesOn(p: string, current: char, left: nat, path: string, n: nat, i: nat) {
    && |p| == n && path <= p
    && Placement(p[|path|..], current, left)
    && (i > 1 ==> p[|path|..] != "" && Stay(p[|path|..]) >= i)
  }

  lemma {:induction false} PatternsExactly(current: char, left: nat, path: string, n: nat, p: string)
    requires IsMachine(current) && |path| <= n
    ensures p in Patterns(current, left, path, n) <==> GoesOn(p, current, left, path, n, 1)
    decreases left, 1, 0
  {
    if left == 0 {
      var rest := Rep(current, n - |path|);
      ChangesRep(current, n - |path|);
      assert (path + rest)[|path|..] == rest;
      if GoesOn(p, current, 0, path, n, 1) && |path| < n {
        NoChangeIsRep(p[|path|..]);
      }
      assert p == path + rest <==> |p| == n && path <= p && p[|path|..] == rest;
    } else {
      PatternsFromExactly(current, left, path, n, 1, p);
    }
  }

  lemma {:induction false} PatternsFromExactly(current: char, left: nat, path: string, n: nat, i: nat, p: string)
    requires IsMachine(current) && |path| <= n && left > 0 && i >= 1
    ensures p in PatternsFrom(current, left, path, n, i) <==> GoesOn(p, current, left, path, n, i)
    decreases left, 0, n + 1 - i
  {
    if |p| == n && path <= p {
      var s := p[|path|..];
      ChangesBound(s);
      if i > n - |path| - left {
        if GoesOn(p, current, left, path, n, i) { StayLeavesRoom(s, left); }
      } else {
        PatternsFromExactly(current, left, path, n, i + 1, p);
        PatternsExactly(Other(current), left - 1, path + Rep(current, i), n, p);
        StayOf(p, current, left, path, n, i);
      }
    } else if i <= n - |path| - left {
      PatternsFromExactly(current, left, path, n, i + 1, p);
      PatternsExactly(Other(current), left - 1, path + Rep(current, i), n, p);
      if path + Rep(current, i) <= p { assert path <= p; }
    }
  }

  /** After the first stay there must be room for the other changes. */
  lemma StayLeavesRoom(s: string, left: nat)
    requires s != "" && Changes(s) == left && left > 0
    ensures Stay(s) <= |s| - left
  {
    ChangesAfterStay(s, Stay(s));
    ChangesBound(s[Stay(s)..]);
  }

  lemma StaysExactly(p: string, current: char, left: nat, path: string, n: nat, i: nat)
    requires IsMachine(current) && |p| == n && path <= p && left > 0 && 1 <= i <= n - |path| - left
    requires GoesOn(p, current, left, path, n, i) && Stay(p[|path|..]) == i
    ensures GoesOn(p, Other(current), left - 1, path + Rep(current, i), n, 1)
  {
    var s, longer := p[|path|..], path + Rep(current, i);
    ChangesAfterStay(s, i);
    assert s[..i] == Rep(current, i);
    assert p[..|longer|] == longer;
    assert p[|longer|..] == s[i..];
  }

  lemma StayedExactly(p: string, current: char, left: nat, path: string, n: nat, i: nat)
    requires IsMachine(current) && |p| == n && path <= p && left > 0 && 1 <= i <= n - |path| - left
    requires GoesOn(p, Other(current), left - 1, path + Rep(current, i), n, 1)
    ensures GoesOn(p, current, left, path, n, i) && Stay(p[|path|..]) == i
  {
    var s, longer := p[|path|..], path + Rep(current, i);
    ChangesAfterStay(s, Stay(s));
    assert p[|longer|..] == s[i..];
    assert forall j :: 0 <= j < i ==> s[j] == p[|path| + j] == longer[|path| + j];
    assert s[i] == Other(current);
    assert Stay(s) == i;
    assert forall j :: i <= j < |s| ==> s[j] == s[i..][j - i];
  }

  /** A placement with a first stay of at least i has one of exactly i, or of more. */
  lemma StayOf(p: string, current: char, left: nat, path: string, n: nat, i: nat)
    requires IsMachine(current) && |p| == n && path <= p && left > 0 && 1 <= i <= n - |path| - left
    ensures GoesOn(p, current, left, path, n, i) <==>
      GoesOn(p, Other(current), left - 1, path + Rep(current, i), n, 1) || GoesOn(p, current, left, path, n, i + 1)
  {
    if GoesOn(p, current, left, path, n, i) && Stay(p[|path|..]) == i { StaysExactly(p, current, left, path, n, i); }
    if GoesOn(p, Other(current), left - 1, path + Rep(current, i), n, 1) {
      StayedExactly(p, current, left, path, n, i);
    }
  }

  /** distribute_commands() chooses among exactly the placements of n callbacks that begin on machine a and
      have `edges` network edges. */
  lemma AllPatterns(edges: nat, n: nat, p: string)
    ensures p in Patterns('a', edges, "", n) <==> |p| == n && Placement(p, 'a', edges)
  {
    PatternsExactly('a', edges, "", n, p);
    assert p[0..] == p;
  }

  // ---------------------------------------------------------------- each once, and how many

  lemma {:induction false} PatternsOnce(current: char, left: nat, path: string, n: nat)
    requires IsMachine(current) && |path| <= n
    ensures Distinct(Patterns(current, left, path, n))
    decreases left, 1, 0
  {
    if left > 0 { PatternsFromOnce(current, left, path, n, 1); }
  }

  lemma {:induction false} PatternsFromOnce(current: char, left: nat, path: string, n: nat, i: nat)
    requires IsMachine(current) && |path| <= n && left > 0 && i >= 1
    ensures Distinct(PatternsFrom(current, left, path, n, i))
    decreases left, 0, n + 1 - i
  {
    if i <= n - |path| - left {
      var longer := path + Rep(current, i);
      var ps, qs := Patterns(Other(current), left - 1, longer, n), PatternsFrom(current, left, path, n, i + 1);
      PatternsOnce(Other(current), left - 1, longer, n);
      PatternsFromOnce(current, left, path, n, i + 1);
      forall k | 0 <= k < |ps| ensures ps[k] !in qs {
        var p := ps[k];
        PatternsExactly(Other(current), left - 1, longer, n, p);
        PatternsFromExactly(current, left, path, n, i + 1, p);
        assert p[|longer|..][0] == p[|path|..][i];
      }
      DistinctAppend(ps, qs);
    }
  }

  /** The binomial coefficient. */
  function Choose(n: nat, k: nat): nat {
    if k == 0 then 1 else if n == 0 then 0 else Choose(n - 1, k - 1) + Choose(n - 1, k)
  }

  lemma {:induction false} ChooseTooMany(n: nat, k: nat)
    requires k > n
    ensures Choose(n, k) == 0
  {
    if n > 0 {
      ChooseTooMany(n - 1, k - 1);
      ChooseTooMany(n - 1, k);
    }
  }

  lemma {:induction false} PatternsCount(current: char, left: nat, path: string, n: nat)
    requires |path| < n
    ensures |Patterns(current, left, path, n)| == Choose(n - |path| - 1, left)
    decreases left, 1, 0
  {
    if left > 0 { PatternsFromCount(current, left, path, n, 1); }
  }

  lemma {:induction false} PatternsFromCount(current: char, left: nat, path: string, n: nat, i: nat)
    requires |path| < n && left > 0 && 1 <= i <= n - |path|
    ensures |PatternsFrom(current, left, path, n, i)| == Choose(n - |path| - i, left)
    decreases left, 0, n + 1 - i
  {
    if i > n - |path| - left {
      ChooseTooMany(n - |path| - i, left);
    } else {
      PatternsCount(Other(current), left - 1, path + Rep(current, i), n);
      PatternsFromCount(current, left, path, n, i + 1);
    }
  }

  /** The placements of a nonempty chain are listed without repetition, and there are C(n-1, edges). */
  lemma HowMany(edges: nat, n: nat)
    requires n >= 1
    ensures Distinct(Patterns('a', edges, "", n)) && |Patterns('a', edges, "", n)| == Choose(n - 1, edges)
  {
    PatternsOnce('a', edges, "", n);
    PatternsCount('a', edges, "", n);
  }

  /** With an edge both machines take part, so that each machine's script names the chain. */
  lemma {:induction false} BothMachines(p: string, edges: nat)
    requires Placement(p, 'a', edges) && edges >= 1
    ensures 'a' in p && 'b' in p
  {
    ChangesBound(p);
    var k := Stay(p);
    ChangesAfterStay(p, k);
    assert p[0] == 'a' && p[k] == 'b';
  }

  // ---------------------------------------------------------------- utilizations

  function Sum(us: seq<real>): real {
    if us == [] then 0.0 else Sum(us[..|us| - 1]) + us[|us| - 1]
  }

  lemma SumNext(us: seq<real>, u: real)
    ensures Sum(us + [u]) == Sum(us) + u
  {
    assert (us + [u])[..|us|] == us;
  }

  ghost predicate Within(us: seq<real>, total: real) { forall i :: 0 <= i < |us| ==> 0.0 <= us[i] <= total }

  /** A random part of what is left. */
  method Part(x: real, f: real) returns (y: real)
    requires x >= 0.0 && 0.0 <= f <= 1.0
    ensures y == x * f && 0.0 <= y <= x
  {
    y := x * f;
  }

  /** What is left of the total after each draw, beginning with all of it. */
  ghost predicate Drawn(left: seq<real>, total: real, factors: seq<real>) {
    && 1 <= |left| <= |factors| + 1 && left[0] == total
    && forall i :: 0 <= i < |left| - 1 ==> DrawnAt(left, factors, i)
  }

  predicate DrawnAt(left: seq<real>, factors: seq<real>, i: nat)
    requires i + 1 < |left| && i < |factors|
  {
    left[i + 1] == left[i] * factors[i]
  }

  lemma DrawnNext(left: seq<real>, total: real, factors: seq<real>, y: real)
    requires Drawn(left, total, factors) && |left| <= |factors| && y == left[|left| - 1] * factors[|left| - 1]
    ensures Drawn(left + [y], total, factors)
  {
    forall i | 0 <= i < |left| ensures DrawnAt(left + [y], factors, i) {
      if i < |left| - 1 { assert DrawnAt(left, factors, i); }
    }
  }

  /** Each utilization is what its draw took, and the last one what is left in the end. */
  ghost predicate Takes(us: seq<real>, left: seq<real>) {
    |us| == |left| && forall i :: 0 <= i < |us| ==> us[i] == left[i] - if i < |us| - 1 then left[i + 1] else 0.0
  }

  /** After some draws: what they took, and what is left. */
  ghost predicate Shared(us: seq<real>, left: seq<real>, total: real) {
    && |left| == |us| + 1 && 0.0 <= left[|us|] <= total
    && Sum(us) + left[|us|] == total && Within(us, total)
    && forall i :: 0 <= i < |us| ==> us[i] == left[i] - left[i + 1]
  }

  lemma SharedNext(us: seq<real>, left: seq<real>, total: real, y: real)
    requires Shared(us, left, total) && 0.0 <= y <= left[|us|]
    ensures Shared(us + [left[|us|] - y], left + [y], total)
  {
    SumNext(us, left[|us|] - y);
  }

  lemma SharedEnd(us: seq<real>, left: seq<real>, total: real)
    requires Shared(us, left, total)
    ensures var all := us + [left[|us|]]; Sum(all) == total && Within(all, total) && Takes(all, left)
  {
    SumNext(us, left[|us|]);
  }

  /** UUniFast(); factors are the powers of the random numbers drawn, which lie between 0 and 1. Each
      utilization is what its draw takes from what is left; none is negative, and they add up to the total. */
  method UUniFast(n: nat, total: real, factors: seq<real>) returns (us: seq<real>, ghost left: seq<real>)
    requires total >= 0.0 && |factors| >= n && forall i :: 0 <= i < |factors| ==> 0.0 <= factors[i] <= 1.0
    ensures |us| == if n == 0 then 1 else n
    ensures Sum(us) == total && Within(us, total)
    ensures Drawn(left, total, factors) && Takes(us, left)
  {
    us, left := [], [total];
    var sumU := total;
    var i := 1;
    while i < n
      invariant 1 <= i && (if n == 0 then i == 1 else i <= n) && |us| == i - 1
      invariant Drawn(left, total, factors) && Shared(us, left, total) && left[i - 1] == sumU
    {
      var nextSumU := Part(sumU, factors[i - 1]);
      DrawnNext(left, total, factors, nextSumU);
      SharedNext(us, left, total, nextSumU);
      us, left := us + [sumU - nextSumU], left + [nextSumU];
      sumU := nextSumU;
      i := i + 1;
    }
    SharedEnd(us, left, total);
    us := us + [sumU];
  }
}
