/** walk_tg_tree_from(): the stackless walk over a tree of task groups, which finds its way by the
    groups' parent pointers and sibling links, against recursive depth-first search. */
module TgWalk {
  import opened Sequences

  /** Task groups 0..n-1: each group's parent, its children in list order, and its place among its
      siblings. Groups are numbered so that children come after their parent. */
  datatype Forest = Forest(par: seq<Option<nat>>, kids: seq<seq<nat>>, pos: seq<nat>)

  predicate KidOf(t: Forest, g: nat, k: nat)
    requires |t.kids| == |t.par| == |t.pos| && g < |t.kids| && k < |t.kids[g]|
  {
    var c := t.kids[g][k];
    g < c < |t.par| && t.par[c] == Some(g) && t.pos[c] == k
  }

  predicate Linked(t: Forest, c: nat)
    requires |t.kids| == |t.par| == |t.pos| && c < |t.par|
  {
    t.par[c].Some? ==>
      var p := t.par[c].value;
      p < c && t.pos[c] < |t.kids[p]| && t.kids[p][t.pos[c]] == c
  }

  predicate IsForest(t: Forest) {
    && |t.kids| == |t.par| == |t.pos|
    && (forall g, k :: 0 <= g < |t.kids| && 0 <= k < |t.kids[g]| ==> KidOf(t, g, k))
    && (forall c :: 0 <= c < |t.par| ==> Linked(t, c))
  }

  /** Group g is `from` or below it. */
  predicate Under(t: Forest, from: nat, g: nat)
    requires IsForest(t) && g < |t.par|
    decreases g
  {
    assert Linked(t, g);
    g == from || (t.par[g].Some? && Under(t, from, t.par[g].value))
  }

  // ---------------------------------------------------------------- recursive depth-first search

  datatype Event = Down(g: nat) | Up(g: nat)

  function Tour(t: Forest, g: nat): seq<Event>
    requires IsForest(t) && g < |t.par|
    decreases |t.par| - g, |t.kids[g]| + 1
  {
    [Down(g)] + KidTours(t, g, 0) + [Up(g)]
  }

  /** The tours of g's children from the k-th on. */
  function KidTours(t: Forest, g: nat, k: nat): seq<Event>
    requires IsForest(t) && g < |t.par| && k <= |t.kids[g]|
    decreases |t.par| - g, |t.kids[g]| - k
  {
    if k == |t.kids[g]| then []
    else
      assert KidOf(t, g, k);
      Tour(t, t.kids[g][k]) + KidTours(t, g, k + 1)
  }

  /** A visitor reads and changes the data and returns an error code. */
  type Visitor<!S> = (S, nat) -> (S, int)

  function Visit<S>(e: Event, s: S, down: Visitor<S>, up: Visitor<S>): (S, int) {
    match e
    case Down(g) => down(s, g)
    case Up(g) => up(s, g)
  }

  /** Visiting one after the other until a visitor returns something other than 0. */
  function Run<S>(es: seq<Event>, s: S, down: Visitor<S>, up: Visitor<S>): (S, int) {
    if es == [] then (s, 0)
    else
      var (s1, ret) := Visit(es[0], s, down, up);
      if ret != 0 then (s1, ret) else Run(es[1..], s1, down, up)
  }

  lemma {:induction false} RunAppend<S>(es: seq<Event>, fs: seq<Event>, s: S, down: Visitor<S>, up: Visitor<S>)
    ensures Run(es + fs, s, down, up) ==
      var (s1, ret) := Run(es, s, down, up); if ret != 0 then (s1, ret) else Run(fs, s1, down, up)
  {
    if es == [] {
      assert es + fs == fs;
    } else {
      var (s1, ret) := Visit(es[0], s, down, up);
      assert (es + fs)[1..] == es[1..] + fs;
      if ret == 0 { RunAppend(es[1..], fs, s1, down, up); }
    }
  }

  /** A visitor that also writes down its calls, as steps up or down. */
  function Recording<S>(v: Visitor<S>, up: bool): Visitor<(S, seq<Event>)> {
    (p: (S, seq<Event>), g: nat) => var (s, ret) := v(p.0, g); ((s, p.1 + [if up then Up(g) else Down(g)]), ret)
  }

  /** The calls made are those of es in order: all of them, or those up to the first that returns something
      other than 0. */
  lemma {:induction false} RunCalls<S>(es: seq<Event>, s: S, down: Visitor<S>, up: Visitor<S>, calls: seq<Event>)
    ensures var (p, ret) := Run(es, (s, calls), Recording(down, false), Recording(up, true));
      && (p.0, ret) == Run(es, s, down, up)
      && calls <= p.1 <= calls + es
      && (if ret == 0 then p.1 == calls + es else |p.1| > |calls|)
  {
    if es != [] {
      var (s1, ret) := Visit(es[0], s, down, up);
      var (p1, ret1) := Visit(es[0], (s, calls), Recording(down, false), Recording(up, true));
      assert p1 == (s1, calls + [es[0]]) && ret1 == ret;
      assert calls + [es[0]] + es[1..] == calls + es;
      if ret == 0 { RunCalls(es[1..], s1, down, up, calls + [es[0]]); }
    }
  }

  // ---------------------------------------------------------------- what a tour visits

  lemma {:induction false} TourVisits(t: Forest, from: nat, g: nat)
    requires IsForest(t) && from < |t.par| && g < |t.par|
    ensures Down(g) in Tour(t, from) <==> Under(t, from, g)
    ensures Up(g) in Tour(t, from) <==> Under(t, from, g)
    decreases |t.par| - from, |t.kids[from]| + 1
  {
    KidToursVisit(t, from, 0, g);
    UnderSomeKid(t, from, g);
  }

  /** The k-th or a later child of `from` has g below it. */
  predicate UnderKid(t: Forest, from: nat, k: nat, g: nat)
    requires IsForest(t) && from < |t.par| && g < |t.par|
  {
    exists j :: k <= j < |t.kids[from]| && Under(t, t.kids[from][j], g)
  }

  lemma {:induction false} KidToursVisit(t: Forest, from: nat, k: nat, g: nat)
    requires IsForest(t) && from < |t.par| && g < |t.par| && k <= |t.kids[from]|
    ensures Down(g) in KidTours(t, from, k) <==> UnderKid(t, from, k, g)
    ensures Up(g) in KidTours(t, from, k) <==> UnderKid(t, from, k, g)
    decreases |t.par| - from, |t.kids[from]| - k
  {
    if k < |t.kids[from]| {
      assert KidOf(t, from, k);
      TourVisits(t, t.kids[from][k], g);
      KidToursVisit(t, from, k + 1, g);
    }
  }

  lemma {:induction false} UnderSomeKid(t: Forest, from: nat, g: nat)
    requires IsForest(t) && from < |t.par| && g < |t.par|
    ensures Under(t, from, g) <==> g == from || UnderKid(t, from, 0, g)
    decreases g
  {
    if g != from && t.par[g].Some? {
      var p := t.par[g].value;
      assert Linked(t, g);
      UnderSomeKid(t, from, p);
      if Under(t, from, g) {
        if p == from {
          assert t.kids[from][t.pos[g]] == g && Under(t, g, g);
        } else {
          var j :| 0 <= j < |t.kids[from]| && Under(t, t.kids[from][j], p);
          assert Under(t, t.kids[from][j], g);
        }
      }
    }
    if UnderKid(t, from, 0, g) {
      var j :| 0 <= j < |t.kids[from]| && Under(t, t.kids[from][j], g);
      assert KidOf(t, from, j);
      UnderTrans(t, from, t.kids[from][j], g);
    }
  }

  lemma {:induction false} UnderTrans(t: Forest, f: nat, g: nat, h: nat)
    requires IsForest(t) && f < |t.par| && g < |t.par| && h < |t.par| && Under(t, f, g) && Under(t, g, h)
    ensures Under(t, f, h)
    decreases h
  {
    assert Linked(t, h);
    if h != g {
      UnderTrans(t, f, g, t.par[h].value);
    }
  }

  /** Of two groups above g, one is above the other. */
  lemma {:induction false} AncestorsInLine(t: Forest, a: nat, b: nat, g: nat)
    requires IsForest(t) && a <= b < |t.par| && g < |t.par| && Under(t, a, g) && Under(t, b, g)
    ensures Under(t, a, b)
    decreases g
  {
    assert Linked(t, g);
    UnderIsLater(t, b, g);
    if g != b {
      if g == a { UnderIsLater(t, b, a); }
      AncestorsInLine(t, a, b, t.par[g].value);
    }
  }

  lemma {:induction false} UnderIsLater(t: Forest, a: nat, g: nat)
    requires IsForest(t) && a < |t.par| && g < |t.par| && Under(t, a, g)
    ensures a <= g
    decreases g
  {
    if g != a {
      assert Linked(t, g);
      UnderIsLater(t, a, t.par[g].value);
    }
  }

  /** Nothing is below two children of one group. */
  lemma OneKid(t: Forest, from: nat, i: nat, j: nat, g: nat)
    requires IsForest(t) && from < |t.par| && i < |t.kids[from]| && j < |t.kids[from]| && g < |t.par|
    requires KidOf(t, from, i) && KidOf(t, from, j)
    requires Under(t, t.kids[from][i], g) && Under(t, t.kids[from][j], g)
    ensures i == j
  {
    var a, b := t.kids[from][i], t.kids[from][j];
    if a <= b {
      AncestorsInLine(t, a, b, g);
      if a != b { UnderIsLater(t, a, from); }
    } else {
      AncestorsInLine(t, b, a, g);
      UnderIsLater(t, b, from);
    }
  }

  /** Every group is entered once and left once. */
  lemma {:induction false} TourOnce(t: Forest, from: nat)
    requires IsForest(t) && from < |t.par|
    ensures Distinct(Tour(t, from))
    decreases |t.par| - from, |t.kids[from]| + 1
  {
    KidToursOnce(t, from, 0);
    var mid := KidTours(t, from, 0);
    KidToursInRange(t, from, 0);
    KidToursVisit(t, from, 0, from);
    if UnderKid(t, from, 0, from) {
      var j :| 0 <= j < |t.kids[from]| && Under(t, t.kids[from][j], from);
      assert KidOf(t, from, j);
      UnderIsLater(t, t.kids[from][j], from);
    }
    assert Down(from) !in mid && Up(from) !in mid;
    DistinctAppend([Down(from)], mid);
    assert Disjoint([Down(from)] + mid, [Up(from)]);
    DistinctAppend([Down(from)] + mid, [Up(from)]);
  }

  ghost predicate InRange(t: Forest, es: seq<Event>) { forall e :: e in es ==> e.g < |t.par| }

  lemma {:induction false} TourInRange(t: Forest, from: nat)
    requires IsForest(t) && from < |t.par|
    ensures InRange(t, Tour(t, from))
    decreases |t.par| - from, |t.kids[from]| + 1
  {
    KidToursInRange(t, from, 0);
    assert forall e :: e in Tour(t, from) ==> e == Down(from) || e in KidTours(t, from, 0) || e == Up(from);
  }

  lemma {:induction false} KidToursInRange(t: Forest, from: nat, k: nat)
    requires IsForest(t) && from < |t.par| && k <= |t.kids[from]|
    ensures InRange(t, KidTours(t, from, k))
    decreases |t.par| - from, |t.kids[from]| - k
  {
    if k < |t.kids[from]| {
      assert KidOf(t, from, k);
      TourInRange(t, t.kids[from][k]);
      KidToursInRange(t, from, k + 1);
    }
  }

  lemma {:induction false} KidToursOnce(t: Forest, from: nat, k: nat)
    requires IsForest(t) && from < |t.par| && k <= |t.kids[from]|
    ensures Distinct(KidTours(t, from, k))
    decreases |t.par| - from, |t.kids[from]| - k
  {
    if k < |t.kids[from]| {
      assert KidOf(t, from, k);
      var first, rest := Tour(t, t.kids[from][k]), KidTours(t, from, k + 1);
      TourOnce(t, t.kids[from][k]);
      TourInRange(t, t.kids[from][k]);
      KidToursOnce(t, from, k + 1);
      forall i | 0 <= i < |first| ensures first[i] !in rest {
        var e := first[i];
        TourVisits(t, t.kids[from][k], e.g);
        KidToursVisit(t, from, k + 1, e.g);
        if UnderKid(t, from, k + 1, e.g) {
          var j :| k + 1 <= j < |t.kids[from]| && Under(t, t.kids[from][j], e.g);
          assert KidOf(t, from, j);
          OneKid(t, from, k, j, e.g);
        }
      }
      DistinctAppend(first, rest);
    }
  }

  lemma TourEnds(t: Forest, g: nat)
    requires IsForest(t) && g < |t.par|
    ensures Tour(t, g)[0] == Down(g) && Tour(t, g)[|Tour(t, g)| - 1] == Up(g) && |Tour(t, g)| >= 2
  {
    assert |Tour(t, g)| == |KidTours(t, g, 0)| + 2;
  }

  lemma EndsInside(t: Forest, from: nat, g: nat, i: nat)
    requires IsForest(t) && from < |t.par| && g < |t.par|
    requires i + |Tour(t, g)| <= |Tour(t, from)| && Tour(t, from)[i..i + |Tour(t, g)|] == Tour(t, g)
    ensures |Tour(t, g)| >= 2 && Tour(t, from)[i] == Down(g) && Tour(t, from)[i + |Tour(t, g)| - 1] == Up(g)
  {
    TourEnds(t, g);
    var all, mine := Tour(t, from), Tour(t, g);
    assert mine[0] == all[i] && mine[|mine| - 1] == all[i + (|mine| - 1)];
  }

  lemma {:induction false} TourInside(t: Forest, from: nat, g: nat) returns (i: nat)
    requires IsForest(t) && from < |t.par| && g < |t.par| && Under(t, from, g)
    ensures i + |Tour(t, g)| <= |Tour(t, from)| && Tour(t, from)[i..i + |Tour(t, g)|] == Tour(t, g)
    ensures g != from ==> 0 < i && i + |Tour(t, g)| < |Tour(t, from)|
    decreases |t.par| - from
  {
    UnderSomeKid(t, from, g);
    i := 0;
    if g == from {
      assert Tour(t, from)[0..|Tour(t, g)|] == Tour(t, g);
    } else {
      var j :| 0 <= j < |t.kids[from]| && Under(t, t.kids[from][j], g);
      assert KidOf(t, from, j);
      var c := t.kids[from][j];
      var inner := TourInside(t, c, g);
      var outer := KidTourAt(t, from, 0, j);
      var all, mid := Tour(t, from), KidTours(t, from, 0);
      i := 1 + outer + inner;
      assert all == [Down(from)] + mid + [Up(from)];
      Nested(all, [Down(from)], mid, [Up(from)], Tour(t, c), outer, Tour(t, g), inner);
    }
  }

  lemma Nested<T>(all: seq<T>, pre: seq<T>, mid: seq<T>, post: seq<T>, c: seq<T>, outer: nat, mine: seq<T>, inner: nat)
    requires all == pre + mid + post
    requires outer + |c| <= |mid| && mid[outer..outer + |c|] == c
    requires inner + |mine| <= |c| && c[inner..inner + |mine|] == mine
    ensures var i := |pre| + outer + inner; i + |mine| + |post| <= |all| && all[i..i + |mine|] == mine
  {
    assert all[|pre|..|pre| + |mid|] == mid;
    SliceOfSlice(mid, outer, |c|, inner, |mine|);
    SliceOfSlice(all, |pre|, |mid|, outer + inner, |mine|);
  }

  /** `down` comes in preorder and `up` in postorder: a group's tour, from its `down` to its `up`, lies in
      one piece between the entering and the leaving of every group above it. */
  lemma ToursNest(t: Forest, from: nat, g: nat) returns (i: nat)
    requires IsForest(t) && from < |t.par| && g < |t.par| && Under(t, from, g)
    ensures i + |Tour(t, g)| <= |Tour(t, from)| && Tour(t, from)[i..i + |Tour(t, g)|] == Tour(t, g)
    ensures |Tour(t, g)| >= 2 && Tour(t, from)[i] == Down(g) && Tour(t, from)[i + |Tour(t, g)| - 1] == Up(g)
    ensures g != from ==> 0 < i && i + |Tour(t, g)| < |Tour(t, from)|
  {
    i := TourInside(t, from, g);
    EndsInside(t, from, g, i);
  }

  lemma SliceOfSlice<T>(s: seq<T>, i: nat, n: nat, j: nat, m: nat)
    requires i + n <= |s| && j + m <= n
    ensures s[i + j..i + j + m] == s[i..i + n][j..j + m]
  {
    var whole, a := s[i..i + n], s[i + j..i + j + m];
    var b := whole[j..j + m];
    forall k | 0 <= k < |a| ensures a[k] == b[k] {
      assert b[k] == whole[j + k] == s[i + (j + k)];
    }
  }

  lemma {:induction false} KidTourAt(t: Forest, g: nat, k: nat, j: nat) returns (i: nat)
    requires IsForest(t) && g < |t.par| && k <= j < |t.kids[g]|
    requires KidOf(t, g, j)
    ensures var c := Tour(t, t.kids[g][j]);
      i + |c| <= |KidTours(t, g, k)| && KidTours(t, g, k)[i..i + |c|] == c
    decreases j - k
  {
    assert KidOf(t, g, k);
    if k == j {
      i := 0;
    } else {
      var first, rest, c := Tour(t, t.kids[g][k]), KidTours(t, g, k + 1), Tour(t, t.kids[g][j]);
      var r := KidTourAt(t, g, k + 1, j);
      i := |first| + r;
      assert (first + rest)[i..i + |c|] == rest[r..r + |c|];
    }
  }

  // ---------------------------------------------------------------- the stackless walk

  /** What is left once the tour of g is finished, up to the end of the tour of `from`. */
  function Rest(t: Forest, from: nat, g: nat): seq<Event>
    requires IsForest(t) && from < |t.par| && g < |t.par| && Under(t, from, g)
    decreases g, 0
  {
    if g == from then []
    else
      assert Linked(t, g);
      Todo(t, from, t.par[g].value, false, t.pos[g] + 1)
  }

  /** Where the walk is: about to enter `node`, or at the k-th child of it. */
  function Todo(t: Forest, from: nat, node: nat, entering: bool, k: nat): seq<Event>
    requires IsForest(t) && from < |t.par| && node < |t.par| && Under(t, from, node)
    requires !entering ==> k <= |t.kids[node]|
    decreases node, 1
  {
    if entering then Tour(t, node) + Rest(t, from, node)
    else KidTours(t, node, k) + [Up(node)] + Rest(t, from, node)
  }

  lemma EnterStep(t: Forest, from: nat, node: nat)
    requires IsForest(t) && from < |t.par| && node < |t.par| && Under(t, from, node)
    ensures Todo(t, from, node, true, 0) == [Down(node)] + Todo(t, from, node, false, 0)
  {}

  lemma KidStep(t: Forest, from: nat, node: nat, k: nat)
    requires IsForest(t) && from < |t.par| && node < |t.par| && Under(t, from, node) && k < |t.kids[node]|
    requires KidOf(t, node, k)
    ensures Under(t, from, t.kids[node][k])
    ensures Todo(t, from, node, false, k) == Todo(t, from, t.kids[node][k], true, 0)
  {
    var c := t.kids[node][k];
    assert Under(t, from, c);
    if c == from { UnderIsLater(t, from, node); }
    assert Rest(t, from, c) == KidTours(t, node, k + 1) + [Up(node)] + Rest(t, from, node);
    assert Tour(t, c) + KidTours(t, node, k + 1) == KidTours(t, node, k);
  }

  lemma LeaveStep(t: Forest, from: nat, node: nat)
    requires IsForest(t) && from < |t.par| && node < |t.par| && Under(t, from, node)
    ensures Todo(t, from, node, false, |t.kids[node]|) == [Up(node)] + Rest(t, from, node)
    ensures node == from ==> Rest(t, from, node) == []
  {
    var k := |t.kids[node]|;
    assert KidTours(t, node, k) + [Up(node)] == [Up(node)];
  }

  lemma UpStep(t: Forest, from: nat, node: nat)
    requires IsForest(t) && from < |t.par| && node < |t.par| && Under(t, from, node) && node != from
    ensures t.par[node].Some? && Linked(t, node) && Under(t, from, t.par[node].value)
    ensures Rest(t, from, node) == Todo(t, from, t.par[node].value, false, t.pos[node] + 1)
  {
    assert Linked(t, node);
  }

  /** walk_tg_tree_from() visits what the recursive search visits, in the same order, and stops at
      and returns the first result that is not 0. */
  method Walk<S>(t: Forest, from: nat, down: Visitor<S>, up: Visitor<S>, data: S) returns (s: S, ret: int)
    requires IsForest(t) && from < |t.par|
    ensures (s, ret) == Run(Tour(t, from), data, down, up)
  {
    var parent, child: nat, entering := from, 0, true;
    s := data;
    ghost var todo := Tour(t, from);
    assert Todo(t, from, from, true, 0) == todo;
    while true
      invariant 0 <= parent < |t.par| && Under(t, from, parent)
      invariant !entering ==> child <= |t.kids[parent]|
      invariant todo == Todo(t, from, parent, entering, child)
      invariant Run(Tour(t, from), data, down, up) == Run(todo, s, down, up)
      decreases |todo|, !entering
    {
      if entering {
        EnterStep(t, from, parent);
        var r := down(s, parent);
        s, ret := r.0, r.1;
        if ret != 0 {
          return;
        }
        entering, child := false, 0;
        todo := todo[1..];
      } else if child < |t.kids[parent]| {
        assert KidOf(t, parent, child);
        KidStep(t, from, parent, child);
        parent := t.kids[parent][child];
        entering := true;
      } else {
        LeaveStep(t, from, parent);
        var r := up(s, parent);
        s, ret := r.0, r.1;
        todo := todo[1..];
        if ret != 0 || parent == from {
          return;
        }
        UpStep(t, from, parent);
        child := t.pos[parent] + 1;
        parent := t.par[parent].value;
      }
    }
  }
}
