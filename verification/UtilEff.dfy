/** Effective clamps of task groups: every group's is its request capped by its parent's, and a
    change of one request is propagated by a preorder walk that skips what does not change. */
module UtilEff {
  import opened Sequences

  /** The minimum and maximum utilization clamp of a group. */
  datatype Clamp = Clamp(min: nat, max: nat)

  /** Groups in preorder: `parent` gives each group's parent, `end` the place after its subtree. */
  datatype Tree = Tree(parent: seq<Option<nat>>, end: seq<nat>)

  predicate IsTree(t: Tree) {
    && |t.end| == |t.parent|
    && (forall i :: 0 <= i < |t.parent| ==> i < t.end[i] <= |t.parent|)
    && (forall i :: 0 <= i < |t.parent| && t.parent[i].Some? ==> t.parent[i].value < i)
    && (forall i, j :: 0 <= i < |t.parent| && 0 <= j < |t.parent| && j != i ==>
          (i < j < t.end[i] <==> t.parent[j].Some? && i <= t.parent[j].value < t.end[i]))
  }

  /** The request capped by what the parent has, the minimum never above the maximum. */
  function Capped(req: Clamp, up: Option<Clamp>): Clamp {
    var lo := if up.Some? && req.min > up.value.min then up.value.min else req.min;
    var hi := if up.Some? && req.max > up.value.max then up.value.max else req.max;
    Clamp(if lo < hi then lo else hi, hi)
  }

  function Above(t: Tree, eff: seq<Clamp>, i: nat): Option<Clamp>
    requires IsTree(t) && |eff| == |t.parent| && i < |eff|
  {
    if t.parent[i].Some? then Some(eff[t.parent[i].value]) else None
  }

  /** Group i has what its request and its parent give it. */
  predicate Settled(t: Tree, req: seq<Clamp>, eff: seq<Clamp>, i: nat)
    requires IsTree(t) && |req| == |eff| == |t.parent| && i < |eff|
  {
    eff[i] == Capped(req[i], Above(t, eff, i))
  }

  predicate AllSettled(t: Tree, req: seq<Clamp>, eff: seq<Clamp>)
    requires IsTree(t) && |req| == |eff| == |t.parent|
  {
    forall i :: 0 <= i < |eff| ==> Settled(t, req, eff, i)
  }

  /** The effective clamp of group i computed afresh from the requests on its path from the root. */
  function Recomputed(t: Tree, req: seq<Clamp>, i: nat): Clamp
    requires IsTree(t) && |req| == |t.parent| && i < |req|
    decreases i
  {
    Capped(req[i], if t.parent[i].Some? then Some(Recomputed(t, req, t.parent[i].value)) else None)
  }

  /** There is one settled assignment: the full recomputation. */
  lemma {:induction false} SettledIsRecomputed(t: Tree, req: seq<Clamp>, eff: seq<Clamp>, i: nat)
    requires IsTree(t) && |req| == |eff| == |t.parent| && AllSettled(t, req, eff) && i < |eff|
    ensures eff[i] == Recomputed(t, req, i)
    decreases i
  {
    assert Settled(t, req, eff, i);
    if t.parent[i].Some? {
      SettledIsRecomputed(t, req, eff, t.parent[i].value);
    }
  }

  predicate Below(t: Tree, i: nat, j: nat)
    requires IsTree(t) && i < |t.parent|
  {
    i <= j < t.end[i]
  }

  /** In a settled hierarchy no minimum exceeds its maximum, and no group exceeds a group above it. */
  lemma {:induction false} NeverAboveAncestor(t: Tree, req: seq<Clamp>, eff: seq<Clamp>, i: nat, j: nat)
    requires IsTree(t) && |req| == |eff| == |t.parent| && AllSettled(t, req, eff) && i < |eff| && Below(t, i, j)
    ensures eff[j].min <= eff[j].max && eff[j].min <= eff[i].min && eff[j].max <= eff[i].max
    decreases j
  {
    assert Settled(t, req, eff, j);
    if j > i {
      NeverAboveAncestor(t, req, eff, i, t.parent[j].value);
    }
  }

  /** A clamp a group may have: its minimum is at most its maximum, and neither is more than was asked for or
      than the parent has. */
  predicate Within(c: Clamp, req: Clamp, up: Option<Clamp>) {
    && c.min <= c.max && c.min <= req.min && c.max <= req.max
    && (up.Some? ==> c.min <= up.value.min && c.max <= up.value.max)
  }

  /** The largest of the clamps a group may have. */
  ghost predicate Largest(e: Clamp, req: Clamp, up: Option<Clamp>) {
    Within(e, req, up) && forall c :: Within(c, req, up) ==> c.min <= e.min && c.max <= e.max
  }

  /** A capped clamp is the largest the group may have, and nothing else is, as long as the parent's minimum
      respects its maximum. */
  lemma CappedIsLargest(req: Clamp, up: Option<Clamp>, e: Clamp)
    requires up.Some? ==> up.value.min <= up.value.max
    ensures Largest(e, req, up) <==> e == Capped(req, up)
  {
    var m := Capped(req, up);
    assert Within(m, req, up);
  }

  /** Every group has the largest clamp it may have. */
  ghost predicate AllLargest(t: Tree, req: seq<Clamp>, eff: seq<Clamp>)
    requires IsTree(t) && |req| == |eff| == |t.parent|
  {
    forall i :: 0 <= i < |eff| ==> Largest(eff[i], req[i], Above(t, eff, i))
  }

  /** A hierarchy is settled exactly when every group has the largest clamp it may have. */
  lemma SettledIsLargest(t: Tree, req: seq<Clamp>, eff: seq<Clamp>)
    requires IsTree(t) && |req| == |eff| == |t.parent|
    ensures AllSettled(t, req, eff) <==> AllLargest(t, req, eff)
  {
    if AllSettled(t, req, eff) || AllLargest(t, req, eff) {
      forall i | 0 <= i < |eff| ensures Settled(t, req, eff, i) <==> Largest(eff[i], req[i], Above(t, eff, i)) {
        MinRespectsMax(t, req, eff);
        CappedIsLargest(req[i], Above(t, eff, i), eff[i]);
      }
    }
  }

  lemma MinRespectsMax(t: Tree, req: seq<Clamp>, eff: seq<Clamp>)
    requires IsTree(t) && |req| == |eff| == |t.parent| && (AllSettled(t, req, eff) || AllLargest(t, req, eff))
    ensures forall i :: 0 <= i < |eff| ==> eff[i].min <= eff[i].max
  {
    forall i | 0 <= i < |eff| ensures eff[i].min <= eff[i].max {
      assert Settled(t, req, eff, i) || Largest(eff[i], req[i], Above(t, eff, i));
    }
  }

  // ---------------------------------------------------------------- the pruned walk

  /** What is known when the walk from `top` has come to place i: everything is settled except i and
      the groups after it whose parent lies before it. */
  predicate Frontier(t: Tree, req: seq<Clamp>, eff: seq<Clamp>, top: nat, i: nat)
    requires IsTree(t) && |req| == |eff| == |t.parent|
  {
    forall j :: 0 <= j < |eff| && !Settled(t, req, eff, j) ==>
      i <= j && (j == top || (t.parent[j].Some? && top <= t.parent[j].value < i))
  }

  lemma VisitKeeps(t: Tree, req: seq<Clamp>, eff: seq<Clamp>, top: nat, i: nat)
    requires IsTree(t) && |req| == |eff| == |t.parent| && top <= i < |eff| && Frontier(t, req, eff, top, i)
    ensures Frontier(t, req, eff[i := Capped(req[i], Above(t, eff, i))], top, i + 1)
  {
    var now := eff[i := Capped(req[i], Above(t, eff, i))];
    forall j | 0 <= j < |eff| && !Settled(t, req, now, j)
      ensures i + 1 <= j && (j == top || (t.parent[j].Some? && top <= t.parent[j].value < i + 1))
    {
      if j != i && t.parent[j] != Some(i) {
        assert Settled(t, req, now, j) == Settled(t, req, eff, j);
      }
    }
  }

  /** Nothing changed at i, so everything below it is settled already. */
  lemma SkipKeeps(t: Tree, req: seq<Clamp>, eff: seq<Clamp>, top: nat, i: nat)
    requires IsTree(t) && |req| == |eff| == |t.parent| && top <= i < |eff|
    requires Frontier(t, req, eff, top, i) && Settled(t, req, eff, i)
    ensures Frontier(t, req, eff, top, t.end[i])
  {
    forall j | 0 <= j < |eff| && !Settled(t, req, eff, j)
      ensures t.end[i] <= j && (j == top || (t.parent[j].Some? && top <= t.parent[j].value < t.end[i]))
    {
    }
  }

  lemma DoneIsSettled(t: Tree, req: seq<Clamp>, eff: seq<Clamp>, top: nat)
    requires IsTree(t) && |req| == |eff| == |t.parent| && top < |eff| && Frontier(t, req, eff, top, t.end[top])
    ensures AllSettled(t, req, eff)
  {
    forall j | 0 <= j < |eff| ensures Settled(t, req, eff, j) {
      if !Settled(t, req, eff, j) {
        assert false;
      }
    }
  }

  /** The groups of a range whose clamp differs. */
  function Changed(was: seq<Clamp>, now: seq<Clamp>, i: nat): seq<nat>
    requires |was| == |now| && i <= |was|
  {
    if i == 0 then []
    else Changed(was, now, i - 1) + if was[i - 1] != now[i - 1] then [i - 1] else []
  }

  lemma {:induction false} ChangedSame(was: seq<Clamp>, now: seq<Clamp>, later: seq<Clamp>, i: nat)
    requires |was| == |now| == |later| && i <= |was| && now[..i] == later[..i]
    ensures Changed(was, now, i) == Changed(was, later, i)
  {
    if i > 0 {
      assert now[i - 1] == now[..i][i - 1] == later[..i][i - 1] == later[i - 1];
      assert now[..i - 1] == now[..i][..i - 1] == later[..i][..i - 1] == later[..i - 1];
      ChangedSame(was, now, later, i - 1);
    }
  }

  lemma {:induction false} ChangedNot(was: seq<Clamp>, now: seq<Clamp>, i: nat, j: nat)
    requires |was| == |now| && i <= j <= |was| && forall k :: i <= k < j ==> was[k] == now[k]
    ensures Changed(was, now, j) == Changed(was, now, i)
  {
    if i < j {
      ChangedNot(was, now, i, j - 1);
    }
  }

  /** Membership in Changed, in both directions. */
  lemma {:induction false} ChangedExactly(was: seq<Clamp>, now: seq<Clamp>, i: nat, g: nat)
    requires |was| == |now| && i <= |was|
    ensures g in Changed(was, now, i) <==> g < i && was[g] != now[g]
  {
    if i > 0 {
      ChangedExactly(was, now, i - 1, g);
    }
  }

  class Groups {
    const tree: Tree
    const req: array<Clamp>
    const eff: array<Clamp>

    ghost predicate Shape()
      reads this
    {
      IsTree(tree) && req != eff && req.Length == eff.Length == |tree.parent|
    }

    /** Every group has what its request and its parent give it. */
    ghost predicate Valid()
      reads this, req, eff
    {
      Shape() && AllSettled(tree, req[..], eff[..])
    }

    /** A hierarchy in which every group has been brought up to date. */
    constructor (t: Tree, requests: seq<Clamp>)
      requires IsTree(t) && |requests| == |t.parent|
      ensures Valid() && tree == t && req[..] == requests && fresh(req) && fresh(eff)
    {
      tree := t;
      var asked := new Clamp[|requests|](i requires 0 <= i < |requests| => requests[i]);
      var given := new Clamp[|requests|](i requires 0 <= i < |requests| => Recomputed(t, requests, i));
      req, eff := asked, given;
      new;
      assert asked[..] == requests;
      forall i | 0 <= i < given.Length ensures Settled(t, requests, given[..], i) {}
    }

    /** cpu_util_update_eff(): makes the hierarchy settled when only `top` was not, and returns the
        groups whose running tasks it updated: those whose clamp changed, in preorder. */
    method UpdateEff(top: nat) returns (updated: seq<nat>)
      requires Shape() && top < eff.Length
      requires forall i :: 0 <= i < eff.Length && i != top ==> Settled(tree, req[..], eff[..], i)
      modifies eff
      ensures Valid()
      ensures forall i :: 0 <= i < eff.Length && !Below(tree, top, i) ==> eff[i] == old(eff[i])
      ensures updated == Changed(old(eff[..]), eff[..], eff.Length)
    {
      ghost var was := eff[..];
      updated := [];
      var i := top;
      ChangedNot(was, eff[..], 0, top);
      while i < tree.end[top]
        invariant top <= i <= tree.end[top]
        invariant Frontier(tree, req[..], eff[..], top, i)
        invariant forall j :: 0 <= j < eff.Length && (j < top || i <= j) ==> eff[j] == was[j]
        invariant updated == Changed(was, eff[..], i)
        decreases tree.end[top] - i
      {
        ghost var now := eff[..];
        var up := if tree.parent[i].Some? then Some(eff[tree.parent[i].value]) else None;
        var c := Capped(req[i], up);
        if c == eff[i] {
          SkipKeeps(tree, req[..], now, top, i);
          EndNested(tree, top, i);
          ChangedNot(was, now, i, tree.end[i]);
          i := tree.end[i];
        } else {
          VisitKeeps(tree, req[..], now, top, i);
          eff[i] := c;
          assert eff[..] == now[i := c];
          ChangedSame(was, now, eff[..], i);
          updated := updated + [i];
          i := i + 1;
        }
      }
      DoneIsSettled(tree, req[..], eff[..], top);
      ChangedNot(was, eff[..], i, eff.Length);
    }

    /** cpu_uclamp_write() and its effect on the hierarchy: one group's request changes, and then every group
        has again the largest clamp it may have. */
    method Write(top: nat, c: Clamp) returns (updated: seq<nat>)
      requires Valid() && top < eff.Length
      modifies req, eff
      ensures Valid() && req[..] == old(req[..])[top := c]
      ensures AllLargest(tree, req[..], eff[..])
      ensures forall i :: 0 <= i < eff.Length ==> eff[i] == Recomputed(tree, req[..], i)
      ensures updated == Changed(old(eff[..]), eff[..], eff.Length)
    {
      ghost var was := req[..];
      req[top] := c;
      assert req[..] == was[top := c];
      forall i | 0 <= i < eff.Length && i != top ensures Settled(tree, req[..], eff[..], i) {
        assert Settled(tree, was, eff[..], i);
      }
      updated := UpdateEff(top);
      SettledIsLargest(tree, req[..], eff[..]);
      forall i | 0 <= i < eff.Length ensures eff[i] == Recomputed(tree, req[..], i) {
        SettledIsRecomputed(tree, req[..], eff[..], i);
      }
    }
  }

  /** A subtree lies within the subtrees it is part of. */
  lemma EndNested(t: Tree, i: nat, j: nat)
    requires IsTree(t) && i < |t.parent| && i <= j < t.end[i]
    ensures t.end[j] <= t.end[i]
  {
    if t.end[j] > t.end[i] {
      var k := t.end[i];
      assert j < k < t.end[j];
      UpPath(t, i, j, k);
    }
  }

  /** Everything below j is below i when j is. */
  lemma {:induction false} UpPath(t: Tree, i: nat, j: nat, k: nat)
    requires IsTree(t) && i < |t.parent| && i <= j < t.end[i] && j <= k < t.end[j]
    ensures k < t.end[i]
    decreases k
  {
    if j < k {
      UpPath(t, i, j, t.parent[k].value);
      assert i <= t.parent[k].value < t.end[i];
    }
  }
}
