/** The scripts of the two machines: what the generator writes for each chain, how the commands are
    reordered in place, and the priorities that each machine's script gives to the commands it names. */
module PrioScript {
  import opened Sequences
  import opened Chains

  const TOP_PRIORITY: int := 90

  /** A line of a script: the command of one callback of a chain, or anything else. */
  datatype Line = Run(chain: nat, callback: nat, period: nat) | Text(text: string)

  // ---------------------------------------------------------------- the commands of a script

  function Runs(lines: seq<Line>): (rs: seq<Line>)
    ensures |rs| <= |lines| && forall i :: 0 <= i < |rs| ==> rs[i].Run?
  {
    if lines == [] then []
    else Runs(lines[..|lines| - 1]) + if lines[|lines| - 1].Run? then [lines[|lines| - 1]] else []
  }

  /** Where the commands are. */
  function Positions(lines: seq<Line>): seq<nat> {
    if lines == [] then []
    else Positions(lines[..|lines| - 1]) + if lines[|lines| - 1].Run? then [|lines| - 1] else []
  }

  lemma {:induction false} PositionsMatch(lines: seq<Line>)
    ensures |Positions(lines)| == |Runs(lines)|
    ensures forall k :: 0 <= k < |Runs(lines)| ==>
      Positions(lines)[k] < |lines| && lines[Positions(lines)[k]] == Runs(lines)[k]
  {
    if lines != [] { PositionsMatch(lines[..|lines| - 1]); }
  }

  lemma {:induction false} PositionsAscend(lines: seq<Line>)
    ensures Ascending(Positions(lines))
  {
    if lines != [] {
      var init := lines[..|lines| - 1];
      PositionsMatch(init);
      PositionsAscend(init);
    }
  }

  lemma {:induction false} PositionsRest(lines: seq<Line>, i: nat)
    requires i < |lines| && i !in Positions(lines)
    ensures lines[i].Text?
  {
    if i < |lines| - 1 { PositionsRest(lines[..|lines| - 1], i); }
  }

  lemma PositionsMeaning(lines: seq<Line>)
    ensures |Positions(lines)| == |Runs(lines)|
    ensures forall k :: 0 <= k < |Runs(lines)| ==>
      Positions(lines)[k] < |lines| && lines[Positions(lines)[k]] == Runs(lines)[k]
    ensures Ascending(Positions(lines))
    ensures forall i :: 0 <= i < |lines| && i !in Positions(lines) ==> lines[i].Text?
  {
    PositionsMatch(lines);
    PositionsAscend(lines);
    forall i | 0 <= i < |lines| && i !in Positions(lines) ensures lines[i].Text? { PositionsRest(lines, i); }
  }

  lemma {:induction false} SamePositions(s: seq<Line>, t: seq<Line>)
    requires |s| == |t| && forall i :: 0 <= i < |s| ==> s[i].Run? == t[i].Run?
    ensures Positions(s) == Positions(t)
  {
    if s != [] { SamePositions(s[..|s| - 1], t[..|t| - 1]); }
  }

  lemma {:induction false} RunsMembers(lines: seq<Line>, r: Line)
    ensures r in Runs(lines) <==> r in lines && r.Run?
  {
    if lines != [] {
      RunsMembers(lines[..|lines| - 1], r);
      assert lines == lines[..|lines| - 1] + [lines[|lines| - 1]];
    }
  }

  // ---------------------------------------------------------------- sorting

  ghost predicate AllRuns(rs: seq<Line>) { forall i :: 0 <= i < |rs| ==> rs[i].Run? }

  type Order = (Line, Line) -> bool

  /** Any two commands can be compared. */
  ghost predicate Compares(before: Order) {
    && (forall r: Line, s: Line :: r.Run? && s.Run? ==> before(r, s) || before(s, r))
    && (forall r: Line, s: Line, t: Line :: before(r, s) && before(s, t) ==> before(r, t))
  }

  ghost predicate Ordered(rs: seq<Line>, before: Order) {
    forall i, j :: 0 <= i < j < |rs| ==> before(rs[i], rs[j])
  }

  lemma InsertOrdered(rs: seq<Line>, r: Line, i: nat, before: Order)
    requires Compares(before) && AllRuns(rs) && Ordered(rs, before) && r.Run? && i <= |rs|
    requires forall k :: 0 <= k < i ==> before(rs[k], r)
    requires i < |rs| ==> !before(rs[i], r)
    ensures AllRuns(rs[..i] + [r] + rs[i..]) && Ordered(rs[..i] + [r] + rs[i..], before)
  {
    var out := rs[..i] + [r] + rs[i..];
    assert forall k :: 0 <= k < |out| ==> out[k] == if k < i then rs[k] else if k == i then r else rs[k - 1];
    forall k | i <= k < |rs| ensures before(r, rs[k]) {
      assert before(r, rs[i]);
      if k > i { assert before(rs[i], rs[k]); }
    }
  }

  method Insert(rs: seq<Line>, r: Line, before: Order) returns (out: seq<Line>)
    requires Compares(before) && AllRuns(rs) && Ordered(rs, before) && r.Run?
    ensures AllRuns(out) && Ordered(out, before) && multiset(out) == multiset(rs) + multiset{r} && |out| == |rs| + 1
  {
    var i := 0;
    while i < |rs| && before(rs[i], r)
      invariant 0 <= i <= |rs| && forall k :: 0 <= k < i ==> before(rs[k], r)
    {
      i := i + 1;
    }
    InsertOrdered(rs, r, i, before);
    out := rs[..i] + [r] + rs[i..];
    assert rs == rs[..i] + rs[i..];
  }

  /** sorted() by a key */
  method SortRuns(rs: seq<Line>, before: Order) returns (out: seq<Line>)
    requires Compares(before) && AllRuns(rs)
    ensures AllRuns(out) && Ordered(out, before) && multiset(out) == multiset(rs) && |out| == |rs|
  {
    out := [];
    var i := 0;
    while i < |rs|
      invariant 0 <= i <= |rs| && AllRuns(out) && Ordered(out, before) && |out| == i
      invariant multiset(out) == multiset(rs[..i])
    {
      assert rs[..i + 1] == rs[..i] + [rs[i]];
      out := Insert(out, rs[i], before);
      i := i + 1;
    }
    assert rs[..i] == rs;
  }

  // ---------------------------------------------------------------- reordering

  /** Later callbacks first, and earlier chains first among those. */
  predicate Before(r: Line, s: Line) {
    r.Run? && s.Run? && (r.callback > s.callback || (r.callback == s.callback && r.chain <= s.chain))
  }

  /** The commands trade places so that they come in order; every other line stays where it is. */
  ghost predicate Reordered(was: seq<Line>, now: seq<Line>) {
    && |was| == |now|
    && (forall i :: 0 <= i < |was| ==> if was[i].Text? then now[i] == was[i] else now[i].Run?)
    && Ordered(Runs(now), Before) && multiset(Runs(now)) == multiset(Runs(was))
  }

  method CollectRuns(lines: array<Line>) returns (rs: seq<Line>, idx: seq<nat>)
    ensures rs == Runs(lines[..]) && idx == Positions(lines[..])
  {
    rs, idx := [], [];
    var i := 0;
    while i < lines.Length
      invariant 0 <= i <= lines.Length && rs == Runs(lines[..i]) && idx == Positions(lines[..i])
    {
      assert lines[..i + 1][..i] == lines[..i];
      if lines[i].Run? {
        rs, idx := rs + [lines[i]], idx + [i];
      }
      i := i + 1;
    }
    assert lines[..] == lines[..i];
  }

  /** Writing commands to the places of commands. */
  lemma Placed(was: seq<Line>, now: seq<Line>, cmds: seq<Line>)
    requires |was| == |now| && |cmds| == |Runs(was)| == |Positions(was)| && AllRuns(cmds)
    requires forall k :: 0 <= k < |cmds| ==> Positions(was)[k] < |now| && now[Positions(was)[k]] == cmds[k]
    requires forall i :: 0 <= i < |was| && i !in Positions(was) ==> now[i] == was[i]
    ensures forall i :: 0 <= i < |was| ==> if was[i].Text? then now[i] == was[i] else now[i].Run?
    ensures Runs(now) == cmds
  {
    PositionsMeaning(was);
    forall i | 0 <= i < |was| ensures was[i].Run? == now[i].Run? && (was[i].Text? ==> now[i] == was[i]) {
      if i in Positions(was) {
        var k :| 0 <= k < |Positions(was)| && Positions(was)[k] == i;
        assert was[i] == Runs(was)[k] && now[i] == cmds[k];
      }
    }
    SamePositions(was, now);
    PositionsMeaning(now);
    assert forall k :: 0 <= k < |cmds| ==> Runs(now)[k] == cmds[k];
  }

  /** Writing the sorted commands over the old ones, index by index. */
  method WriteRuns(lines: array<Line>, idx: seq<nat>, cmds: seq<Line>)
    requires |idx| == |cmds| && forall k :: 0 <= k < |idx| ==> idx[k] < lines.Length
    requires forall j, k :: 0 <= j < k < |idx| ==> idx[j] < idx[k]
    modifies lines
    ensures forall j :: 0 <= j < |idx| ==> lines[idx[j]] == cmds[j]
    ensures forall i :: 0 <= i < lines.Length && i !in idx ==> lines[i] == old(lines[i])
  {
    var k := 0;
    while k < |idx|
      invariant 0 <= k <= |idx|
      invariant forall j :: 0 <= j < k ==> lines[idx[j]] == cmds[j]
      invariant forall i :: 0 <= i < lines.Length && i !in idx ==> lines[i] == old(lines[i])
    {
      lines[idx[k]] := cmds[k];
      k := k + 1;
    }
  }

  /** The reorder step of the script tool. */
  method Reorder(lines: array<Line>)
    modifies lines
    ensures Reordered(old(lines[..]), lines[..])
  {
    ghost var was := lines[..];
    var rs, idx := CollectRuns(lines);
    PositionsMeaning(was);
    var cmds := SortRuns(rs, Before);
    WriteRuns(lines, idx, cmds);
    Placed(was, lines[..], cmds);
  }

  lemma PositionOf(lines: seq<Line>, i: nat) returns (x: nat)
    requires i < |lines| && lines[i].Run?
    ensures x < |Positions(lines)| == |Runs(lines)| && Positions(lines)[x] == i && Runs(lines)[x] == lines[i]
  {
    PositionsMeaning(lines);
    x :| 0 <= x < |Positions(lines)| && Positions(lines)[x] == i;
  }

  /** In a reordered script the command of a later callback stands above that of an earlier one, and those of
      equally late callbacks stand in the order of their chains. */
  lemma LaterCallbacksFirst(was: seq<Line>, now: seq<Line>, i: nat, j: nat)
    requires Reordered(was, now) && i < |now| && j < |now| && now[i].Run? && now[j].Run?
    ensures now[i].callback > now[j].callback ==> i < j
    ensures now[i].callback == now[j].callback && now[i].chain < now[j].chain ==> i < j
  {
    var x := PositionOf(now, i);
    var y := PositionOf(now, j);
    PositionsAscend(now);
    if y < x { assert Before(Runs(now)[y], Runs(now)[x]); }
  }

  // ---------------------------------------------------------------- priorities

  predicate HasPeriod(lines: seq<Line>, p: nat) {
    exists i :: 0 <= i < |lines| && lines[i].Run? && lines[i].period == p
  }

  ghost predicate Uniques(lines: seq<Line>, ps: seq<nat>) {
    Ascending(ps) && forall p :: p in ps <==> HasPeriod(lines, p)
  }

  lemma InsertAscending(ps: seq<nat>, p: nat, i: nat)
    requires Ascending(ps) && i <= |ps| && (forall k :: 0 <= k < i ==> ps[k] < p) && (i < |ps| ==> p < ps[i])
    ensures Ascending(ps[..i] + [p] + ps[i..])
  {
    var out := ps[..i] + [p] + ps[i..];
    assert forall k :: 0 <= k < |out| ==> out[k] == if k < i then ps[k] else if k == i then p else ps[k - 1];
  }

  method AddPeriod(ps: seq<nat>, p: nat) returns (out: seq<nat>)
    requires Ascending(ps)
    ensures Ascending(out) && forall q :: q in out <==> q in ps || q == p
  {
    var i := 0;
    while i < |ps| && ps[i] < p
      invariant 0 <= i <= |ps| && forall k :: 0 <= k < i ==> ps[k] < p
    {
      i := i + 1;
    }
    if i < |ps| && ps[i] == p {
      return ps;
    }
    InsertAscending(ps, p, i);
    out := ps[..i] + [p] + ps[i..];
    assert ps == ps[..i] + ps[i..];
  }

  /** sorted(set(...)) of the periods of the commands */
  method UniquePeriods(lines: seq<Line>) returns (ps: seq<nat>)
    ensures Uniques(lines, ps)
  {
    ps := [];
    var i := 0;
    while i < |lines|
      invariant 0 <= i <= |lines| && Uniques(lines[..i], ps)
    {
      HasPeriodNext(lines, i);
      if lines[i].Run? {
        ps := AddPeriod(ps, lines[i].period);
      }
      i := i + 1;
    }
    assert lines[..i] == lines;
  }

  lemma HasPeriodNext(lines: seq<Line>, i: nat)
    requires i < |lines|
    ensures forall p ::
      HasPeriod(lines[..i + 1], p) <==> HasPeriod(lines[..i], p) || (lines[i].Run? && lines[i].period == p)
  {
    var s, t := lines[..i], lines[..i + 1];
    assert t == s + [lines[i]];
    forall p ensures HasPeriod(t, p) <==> HasPeriod(s, p) || (lines[i].Run? && lines[i].period == p) {
      if HasPeriod(s, p) {
        var k :| 0 <= k < |s| && s[k].Run? && s[k].period == p;
        assert t[k] == s[k];
      }
      if lines[i].Run? && lines[i].period == p { assert t[i] == lines[i]; }
    }
  }

  /** period_to_priority */
  method RankPeriods(ps: seq<nat>) returns (rank: map<nat, int>)
    requires Ascending(ps)
    ensures forall i :: 0 <= i < |ps| ==> ps[i] in rank && rank[ps[i]] == TOP_PRIORITY - i
    ensures forall p :: p in rank ==> p in ps
  {
    rank := map[];
    var i := 0;
    while i < |ps|
      invariant 0 <= i <= |ps|
      invariant forall k :: 0 <= k < i ==> ps[k] in rank && rank[ps[k]] == TOP_PRIORITY - k
      invariant forall p :: p in rank ==> p in ps
    {
      rank := rank[ps[i] := TOP_PRIORITY - i];
      i := i + 1;
    }
  }

  /** What a script says about the output file of a callback. */
  datatype Assignment = Assignment(chain: nat, callback: nat, priority: int)

  /** a gives command r the rank of its period among those of the script. */
  ghost predicate RankedOne(r: Line, ps: seq<nat>, a: Assignment)
    requires r.Run?
  {
    a.chain == r.chain && a.callback == r.callback
    && exists k :: 0 <= k < |ps| && ps[k] == r.period && a.priority == TOP_PRIORITY - k
  }

  ghost predicate RankedBy(rs: seq<Line>, ps: seq<nat>, prio: seq<Assignment>) {
    |prio| == |rs| && AllRuns(rs) && forall i :: 0 <= i < |prio| ==> RankedOne(rs[i], ps, prio[i])
  }

  /** One assignment for each command, in some order. */
  ghost predicate Ranked(lines: seq<Line>, ps: seq<nat>, prio: seq<Assignment>) {
    exists rs :: RankedBy(rs, ps, prio) && multiset(rs) == multiset(Runs(lines))
  }

  /** The output files that the commands name. */
  type Paths = (nat, nat) -> string

  /** Comparison of strings. */
  predicate AtMost(s: string, t: string) {
    s == "" || (t != "" && (s[0] < t[0] || (s[0] == t[0] && AtMost(s[1..], t[1..]))))
  }

  lemma {:induction false} AtMostTotal(s: string, t: string)
    ensures AtMost(s, t) || AtMost(t, s)
  {
    if s != "" && t != "" { AtMostTotal(s[1..], t[1..]); }
  }

  lemma {:induction false} AtMostTransitive(s: string, t: string, u: string)
    requires AtMost(s, t) && AtMost(t, u)
    ensures AtMost(s, u)
  {
    if s != "" && s[0] == t[0] == u[0] { AtMostTransitive(s[1..], t[1..], u[1..]); }
  }

  /** Shorter periods first, and then in the order of the paths. */
  predicate ByPeriod(path: Paths, r: Line, s: Line) {
    && r.Run? && s.Run?
    && (r.period < s.period
        || (r.period == s.period && AtMost(path(r.chain, r.callback), path(s.chain, s.callback))))
  }

  function PathOrder(path: Paths): Order { (r: Line, s: Line) => ByPeriod(path, r, s) }

  lemma ByPeriodCompares(path: Paths)
    ensures Compares(PathOrder(path))
  {
    forall r: Line, s: Line | r.Run? && s.Run? ensures ByPeriod(path, r, s) || ByPeriod(path, s, r) {
      AtMostTotal(path(r.chain, r.callback), path(s.chain, s.callback));
    }
    forall r: Line, s: Line, t: Line | ByPeriod(path, r, s) && ByPeriod(path, s, t) ensures ByPeriod(path, r, t) {
      if r.period == s.period == t.period {
        AtMostTransitive(
          path(r.chain, r.callback), path(s.chain, s.callback), path(t.chain, t.callback));
      }
    }
  }

  /** a is listed before b: it has the higher priority, or the same and the smaller path. */
  predicate ListedBefore(path: Paths, a: Assignment, b: Assignment) {
    a.priority > b.priority
    || (a.priority == b.priority && AtMost(path(a.chain, a.callback), path(b.chain, b.callback)))
  }

  ghost predicate Listed(path: Paths, prio: seq<Assignment>) {
    forall i, j :: 0 <= i < j < |prio| ==> ListedBefore(path, prio[i], prio[j])
  }

  lemma RankOrder(path: Paths, ps: seq<nat>, r: Line, s: Line, a: Assignment, b: Assignment)
    requires Ascending(ps) && ByPeriod(path, r, s) && RankedOne(r, ps, a) && RankedOne(s, ps, b)
    ensures ListedBefore(path, a, b)
  {
    var k :| 0 <= k < |ps| && ps[k] == r.period && a.priority == TOP_PRIORITY - k;
    var l :| 0 <= l < |ps| && ps[l] == s.period && b.priority == TOP_PRIORITY - l;
  }

  lemma RanksListed(path: Paths, rs: seq<Line>, ps: seq<nat>, prio: seq<Assignment>)
    requires Ascending(ps) && RankedBy(rs, ps, prio) && Ordered(rs, PathOrder(path))
    ensures Listed(path, prio)
  {
    forall i, j | 0 <= i < j < |prio| ensures ListedBefore(path, prio[i], prio[j]) {
      RankOrder(path, ps, rs[i], rs[j], prio[i], prio[j]);
    }
  }

  lemma PeriodOfRun(lines: seq<Line>, rs: seq<Line>, i: nat)
    requires multiset(rs) == multiset(Runs(lines)) && AllRuns(rs) && i < |rs|
    ensures HasPeriod(lines, rs[i].period)
  {
    assert rs[i] in multiset(rs);
    assert rs[i] in Runs(lines);
    RunsMembers(lines, rs[i]);
    var k :| 0 <= k < |lines| && lines[k] == rs[i];
  }

  /** The table of ranks has the period of command r. */
  ghost predicate Rankable(r: Line, ps: seq<nat>, rank: map<nat, int>) {
    r.Run? && r.period in rank && RankedOne(r, ps, Assignment(r.chain, r.callback, rank[r.period]))
  }

  lemma RankOfRun(lines: seq<Line>, rs: seq<Line>, i: nat, ps: seq<nat>, rank: map<nat, int>)
    requires multiset(rs) == multiset(Runs(lines)) && AllRuns(rs) && i < |rs| && Uniques(lines, ps)
    requires forall k :: 0 <= k < |ps| ==> ps[k] in rank && rank[ps[k]] == TOP_PRIORITY - k
    ensures Rankable(rs[i], ps, rank)
  {
    PeriodOfRun(lines, rs, i);
    var k :| 0 <= k < |ps| && ps[k] == rs[i].period;
    assert rank[ps[k]] == TOP_PRIORITY - k;
  }

  /** The loop over the sorted commands. */
  method RankRuns(rs: seq<Line>, ghost ps: seq<nat>, rank: map<nat, int>) returns (prio: seq<Assignment>)
    requires forall i :: 0 <= i < |rs| ==> Rankable(rs[i], ps, rank)
    ensures RankedBy(rs, ps, prio)
  {
    prio := [];
    var i := 0;
    while i < |rs|
      invariant 0 <= i == |prio| <= |rs|
      invariant forall k :: 0 <= k < i ==> rs[k].Run? && RankedOne(rs[k], ps, prio[k])
    {
      assert Rankable(rs[i], ps, rank);
      prio := prio + [Assignment(rs[i].chain, rs[i].callback, rank[rs[i].period])];
      i := i + 1;
    }
  }

  /** The priority assignments of the script tool: every command once, the highest priorities first and equal
      ones in the order of the paths. */
  method AssignPriorities(lines: seq<Line>, path: Paths) returns (prio: seq<Assignment>, ps: seq<nat>)
    ensures Uniques(lines, ps) && Ranked(lines, ps, prio) && Listed(path, prio)
  {
    ps := UniquePeriods(lines);
    var rank := RankPeriods(ps);
    ByPeriodCompares(path);
    var rs := SortRuns(Runs(lines), PathOrder(path));
    forall i | 0 <= i < |rs| ensures Rankable(rs[i], ps, rank) { RankOfRun(lines, rs, i, ps, rank); }
    prio := RankRuns(rs, ps, rank);
    RanksListed(path, rs, ps, prio);
  }

  // ---------------------------------------------------------------- what the generator writes

  /** The commands of chain j that its placement puts on machine m, from the k-th callback on. */
  function ChainRuns(j: nat, period: nat, pattern: string, m: char, k: nat): seq<Line>
    requires k <= |pattern|
    decreases |pattern| - k
  {
    if k == |pattern| then []
    else if pattern[k] == m then [Run(j, k, period)] + ChainRuns(j, period, pattern, m, k + 1)
    else ChainRuns(j, period, pattern, m, k + 1)
  }

  const BLANK := Text("")
  const PAUSE := Text("sleep 20")

  /** What make_command() writes to the script of machine m for chain j. */
  function ChainLines(j: nat, period: nat, pattern: string, m: char): seq<Line> {
    var cmds := ChainRuns(j, period, pattern, m, 0);
    (if cmds == [] then [BLANK] else cmds) + [PAUSE]
  }

  /** What the script of machine m says from chain j on. */
  function Script(periods: seq<nat>, patterns: seq<string>, m: char, j: nat): seq<Line>
    requires j <= |periods| == |patterns|
    decreases |periods| - j
  {
    if j == |periods| then []
    else ChainLines(j, periods[j], patterns[j], m) + Script(periods, patterns, m, j + 1)
  }

  /** The loop of make_command() over the chains, for both machines. */
  method MakeScripts(periods: seq<nat>, patterns: seq<string>) returns (a: seq<Line>, b: seq<Line>)
    requires |periods| == |patterns|
    ensures a == Script(periods, patterns, 'a', 0) && b == Script(periods, patterns, 'b', 0)
  {
    a, b := [], [];
    var j := 0;
    while j < |periods|
      invariant 0 <= j <= |periods|
      invariant a + Script(periods, patterns, 'a', j) == Script(periods, patterns, 'a', 0)
      invariant b + Script(periods, patterns, 'b', j) == Script(periods, patterns, 'b', 0)
    {
      var la, lb := ChainLines(j, periods[j], patterns[j], 'a'), ChainLines(j, periods[j], patterns[j], 'b');
      Associative(a, la, Script(periods, patterns, 'a', j + 1));
      Associative(b, lb, Script(periods, patterns, 'b', j + 1));
      a, b := a + la, b + lb;
      j := j + 1;
    }
  }

  lemma Associative(s: seq<Line>, t: seq<Line>, u: seq<Line>)
    ensures s + t + u == s + (t + u)
  {}

  /** How often r is in s. */
  function Times(s: seq<Line>, r: Line): nat {
    if s == [] then 0 else Once(s[0] == r) + Times(s[1..], r)
  }

  lemma {:induction false} TimesAppend(s: seq<Line>, t: seq<Line>, r: Line)
    ensures Times(s + t, r) == Times(s, r) + Times(t, r)
  {
    if s == [] {
      assert s + t == t;
    } else {
      assert (s + t)[1..] == s[1..] + t;
      TimesAppend(s[1..], t, r);
    }
  }

  lemma {:induction false} TimesInMultiset(s: seq<Line>, r: Line)
    ensures Times(s, r) == multiset(s)[r]
  {
    if s != [] {
      TimesInMultiset(s[1..], r);
      assert s == [s[0]] + s[1..];
    }
  }

  function Once(b: bool): nat { if b then 1 else 0 }

  /** Command r of chain j, placed on machine m, comes from the k-th callback or a later one. */
  predicate RunsOn(j: nat, period: nat, pattern: string, m: char, k: nat, r: Line) {
    r.Run? && r.chain == j && r.period == period && k <= r.callback < |pattern| && pattern[r.callback] == m
  }

  lemma {:induction false} ChainRunsExactly(j: nat, period: nat, pattern: string, m: char, k: nat, r: Line)
    requires k <= |pattern|
    ensures Times(ChainRuns(j, period, pattern, m, k), r) == Once(RunsOn(j, period, pattern, m, k, r))
    decreases |pattern| - k
  {
    if k == |pattern| {
      assert ChainRuns(j, period, pattern, m, k) == [];
    } else {
      ChainRunsExactly(j, period, pattern, m, k + 1, r);
      if pattern[k] == m { TimesAppend([Run(j, k, period)], ChainRuns(j, period, pattern, m, k + 1), r); }
    }
  }

  /** The command r belongs on machine m. */
  predicate BelongsOn(periods: seq<nat>, patterns: seq<string>, m: char, r: Line)
    requires |periods| == |patterns| && r.Run? && r.chain < |periods|
  {
    r.period == periods[r.chain] && r.callback < |patterns[r.chain]| && patterns[r.chain][r.callback] == m
  }

  lemma ChainLinesExactly(periods: seq<nat>, patterns: seq<string>, m: char, j: nat, r: Line)
    requires j < |periods| == |patterns| && r.Run?
    ensures Times(ChainLines(j, periods[j], patterns[j], m), r)
      == Once(r.chain == j && BelongsOn(periods, patterns, m, r))
  {
    var cmds := ChainRuns(j, periods[j], patterns[j], m, 0);
    ChainRunsExactly(j, periods[j], patterns[j], m, 0, r);
    TimesAppend(if cmds == [] then [BLANK] else cmds, [PAUSE], r);
  }

  lemma ScriptStep(periods: seq<nat>, patterns: seq<string>, m: char, j: nat, r: Line)
    requires j < |periods| == |patterns| && r.Run?
    ensures Times(Script(periods, patterns, m, j), r)
      == Once(r.chain == j && BelongsOn(periods, patterns, m, r)) + Times(Script(periods, patterns, m, j + 1), r)
  {
    var lines, rest := ChainLines(j, periods[j], patterns[j], m), Script(periods, patterns, m, j + 1);
    ChainLinesExactly(periods, patterns, m, j, r);
    assert Script(periods, patterns, m, j) == lines + rest;
    TimesAppend(lines, rest, r);
  }

  lemma {:induction false} ScriptFrom(periods: seq<nat>, patterns: seq<string>, m: char, j: nat, r: Line)
    requires j <= |periods| == |patterns| && r.Run?
    ensures Times(Script(periods, patterns, m, j), r)
      == Once(j <= r.chain < |periods| && BelongsOn(periods, patterns, m, r))
    decreases |periods| - j
  {
    if j == |periods| {
      assert Script(periods, patterns, m, j) == [];
    } else {
      ScriptStep(periods, patterns, m, j, r);
      ScriptFrom(periods, patterns, m, j + 1, r);
    }
  }

  /** A script has the commands of the callbacks that are placed on its machine, each exactly once, and no
      others. */
  lemma ScriptExactly(periods: seq<nat>, patterns: seq<string>, m: char, r: Line)
    requires |periods| == |patterns| && r.Run?
    ensures r in Script(periods, patterns, m, 0) <==> r.chain < |periods| && BelongsOn(periods, patterns, m, r)
    ensures r in Script(periods, patterns, m, 0) ==> multiset(Script(periods, patterns, m, 0))[r] == 1
  {
    ScriptFrom(periods, patterns, m, 0, r);
    TimesInMultiset(Script(periods, patterns, m, 0), r);
  }

  // ---------------------------------------------------------------- both machines agree

  /** Of the first n chains, how many the script of machine m names. */
  function Named(patterns: seq<string>, m: char, n: nat): nat
    requires n <= |patterns|
  {
    if n == 0 then 0 else Named(patterns, m, n - 1) + if m in patterns[n - 1] then 1 else 0
  }

  /** The periods of the first n chains that machine m's script names. */
  function Kept(periods: seq<nat>, patterns: seq<string>, m: char, n: nat): (ps: seq<nat>)
    requires n <= |periods| == |patterns|
    ensures |ps| == Named(patterns, m, n)
  {
    if n == 0 then [] else Kept(periods, patterns, m, n - 1) + if m in patterns[n - 1] then [periods[n - 1]] else []
  }

  lemma {:induction false} KeptMeaning(periods: seq<nat>, patterns: seq<string>, m: char, n: nat)
    requires n <= |periods| == |patterns| && Ascending(periods)
    ensures var ps := Kept(periods, patterns, m, n);
      && Ascending(ps)
      && (forall p :: p in ps <==> exists j :: 0 <= j < n && m in patterns[j] && periods[j] == p)
  {
    if n > 0 {
      KeptMeaning(periods, patterns, m, n - 1);
      var init := Kept(periods, patterns, m, n - 1);
      forall i | 0 <= i < |init| ensures init[i] < periods[n - 1] {
        assert init[i] in init;
      }
    }
  }

  lemma {:induction false} KeptAt(periods: seq<nat>, patterns: seq<string>, m: char, n: nat, j: nat)
    requires j < n <= |periods| == |patterns| && m in patterns[j]
    ensures Named(patterns, m, j) < Named(patterns, m, n)
    ensures Kept(periods, patterns, m, n)[Named(patterns, m, j)] == periods[j]
  {
    if j < n - 1 { KeptAt(periods, patterns, m, n - 1, j); }
  }

  /** An ascending sequence is determined by its members. */
  lemma {:induction false} AscendingUnique(ps: seq<nat>, qs: seq<nat>)
    requires Ascending(ps) && Ascending(qs) && forall p :: p in ps <==> p in qs
    ensures ps == qs
  {
    assert |ps| > 0 ==> ps[|ps| - 1] in qs;
    assert |qs| > 0 ==> qs[|qs| - 1] in ps;
    if ps != [] {
      var p, q := ps[|ps| - 1], qs[|qs| - 1];
      var ps', qs' := ps[..|ps| - 1], qs[..|qs| - 1];
      assert p == q;
      forall x ensures x in ps' <==> x in ps && x != p {
        assert ps == ps' + [p];
        if x in ps' {
          var k :| 0 <= k < |ps'| && ps'[k] == x;
        }
      }
      forall x ensures x in qs' <==> x in qs && x != q {
        assert qs == qs' + [q];
        if x in qs' {
          var k :| 0 <= k < |qs'| && qs'[k] == x;
        }
      }
      AscendingUnique(ps', qs');
    }
  }

  lemma {:induction false} NamedAll(patterns: seq<string>, m: char, n: nat)
    requires n <= |patterns|
    ensures Named(patterns, m, n) <= n
    ensures Named(patterns, m, n) == n <==> forall j :: 0 <= j < n ==> m in patterns[j]
  {
    if n > 0 { NamedAll(patterns, m, n - 1); }
  }

  /** Reordering keeps the set of commands. */
  lemma ReorderedMembers(was: seq<Line>, now: seq<Line>, r: Line)
    requires Reordered(was, now)
    ensures r in now && r.Run? <==> r in was && r.Run?
  {
    RunsMembers(was, r);
    RunsMembers(now, r);
    assert r in Runs(now) <==> r in multiset(Runs(now));
    assert r in Runs(was) <==> r in multiset(Runs(was));
  }

  /** The script of machine m has a command with period p exactly if the machine takes part in a chain with it. */
  lemma ScriptPeriods(periods: seq<nat>, patterns: seq<string>, m: char, lines: seq<Line>, p: nat)
    requires |periods| == |patterns| && Reordered(Script(periods, patterns, m, 0), lines)
    ensures HasPeriod(lines, p) <==> exists j :: 0 <= j < |periods| && m in patterns[j] && periods[j] == p
  {
    var script := Script(periods, patterns, m, 0);
    if HasPeriod(lines, p) {
      var i :| 0 <= i < |lines| && lines[i].Run? && lines[i].period == p;
      ReorderedMembers(script, lines, lines[i]);
      ScriptExactly(periods, patterns, m, lines[i]);
    }
    if j :| 0 <= j < |periods| && m in patterns[j] && periods[j] == p {
      var k :| 0 <= k < |patterns[j]| && patterns[j][k] == m;
      ScriptExactly(periods, patterns, m, Run(j, k, p));
      ReorderedMembers(script, lines, Run(j, k, p));
      var i :| 0 <= i < |lines| && lines[i] == Run(j, k, p);
      assert lines[i].Run? && lines[i].period == p;
    }
  }

  lemma ScriptUniques(periods: seq<nat>, patterns: seq<string>, m: char, lines: seq<Line>, ps: seq<nat>)
    requires |periods| == |patterns| && Ascending(periods)
    requires Reordered(Script(periods, patterns, m, 0), lines) && Uniques(lines, ps)
    ensures ps == Kept(periods, patterns, m, |periods|)
  {
    var kept := Kept(periods, patterns, m, |periods|);
    KeptMeaning(periods, patterns, m, |periods|);
    forall p ensures p in ps <==> p in kept { ScriptPeriods(periods, patterns, m, lines, p); }
    AscendingUnique(ps, kept);
  }

  lemma AssignedIsPlaced(
    periods: seq<nat>, patterns: seq<string>, m: char, lines: seq<Line>, ps: seq<nat>, prio: seq<Assignment>, x: nat)
    returns (r: Line)
    requires |periods| == |patterns|
    requires Reordered(Script(periods, patterns, m, 0), lines) && Ranked(lines, ps, prio) && x < |prio|
    ensures r.Run? && RankedOne(r, ps, prio[x]) && r.chain < |periods| && BelongsOn(periods, patterns, m, r)
  {
    var rs :| RankedBy(rs, ps, prio) && multiset(rs) == multiset(Runs(lines));
    r := rs[x];
    assert r in multiset(rs);
    RunsMembers(lines, r);
    ReorderedMembers(Script(periods, patterns, m, 0), lines, r);
    ScriptExactly(periods, patterns, m, r);
  }

  /** The priority a machine's script gives to a callback counts the chains before its own that the script
      names; so it is the generator's 90 - j, for chain j, exactly when the script names all of them. */
  lemma PriorityInScript(
    periods: seq<nat>, patterns: seq<string>, m: char, lines: seq<Line>, ps: seq<nat>, prio: seq<Assignment>, x: nat)
    requires |periods| == |patterns| && Ascending(periods)
    requires Reordered(Script(periods, patterns, m, 0), lines) && Uniques(lines, ps) && Ranked(lines, ps, prio)
    requires x < |prio|
    ensures prio[x].chain < |patterns| && prio[x].priority == TOP_PRIORITY - Named(patterns, m, prio[x].chain)
    ensures prio[x].priority == TOP_PRIORITY - prio[x].chain <==>
      forall i :: 0 <= i < prio[x].chain ==> m in patterns[i]
  {
    var r := AssignedIsPlaced(periods, patterns, m, lines, ps, prio, x);
    var n, j := |periods|, r.chain;
    ScriptUniques(periods, patterns, m, lines, ps);
    var k :| 0 <= k < |ps| && ps[k] == r.period && prio[x].priority == TOP_PRIORITY - k;
    assert m in patterns[j];
    KeptAt(periods, patterns, m, n, j);
    KeptMeaning(periods, patterns, m, n);
    assert k == Named(patterns, m, j);
    NamedAll(patterns, m, j);
  }

  /** Every callback that is placed on a machine gets a priority from its script. */
  lemma EveryCallbackAssigned(
    periods: seq<nat>, patterns: seq<string>, m: char, lines: seq<Line>, ps: seq<nat>, prio: seq<Assignment>,
    j: nat, k: nat)
    requires |periods| == |patterns| && j < |patterns| && k < |patterns[j]| && patterns[j][k] == m
    requires Reordered(Script(periods, patterns, m, 0), lines) && Ranked(lines, ps, prio)
    ensures exists x :: 0 <= x < |prio| && prio[x].chain == j && prio[x].callback == k
  {
    var r := Run(j, k, periods[j]);
    ScriptExactly(periods, patterns, m, r);
    ReorderedMembers(Script(periods, patterns, m, 0), lines, r);
    RunsMembers(lines, r);
    var rs :| RankedBy(rs, ps, prio) && multiset(rs) == multiset(Runs(lines));
    assert r in multiset(rs);
    var x :| 0 <= x < |rs| && rs[x] == r;
    assert RankedOne(rs[x], ps, prio[x]);
  }

  /** Chains of one length that all have the same number of network edges: a machine that takes part in one of
      them takes part in all. */
  lemma AllOrNone(patterns: seq<string>, n: nat, edges: nat, m: char, i: nat, j: nat)
    requires n >= 1 && IsMachine(m) && i < |patterns| && j < |patterns| && m in patterns[i]
    requires forall k :: 0 <= k < |patterns| ==> |patterns[k]| == n && Placement(patterns[k], 'a', edges)
    ensures m in patterns[j]
  {
    if edges >= 1 {
      BothMachines(patterns[j], edges);
    } else {
      NoChangeIsRep(patterns[i]);
      assert patterns[j][0] == 'a' && m == 'a';
    }
  }

  /** Both scripts give every callback they name the generator's priority, whatever the number of network edges:
      so it is the same on both machines, equal within a chain, and higher for shorter periods. */
  lemma MachinesAgree(
    periods: seq<nat>, patterns: seq<string>, n: nat, edges: nat, m: char, lines: seq<Line>, ps: seq<nat>,
    prio: seq<Assignment>, x: nat)
    requires |periods| == |patterns| && Ascending(periods) && n >= 1 && IsMachine(m)
    requires forall i :: 0 <= i < |patterns| ==> |patterns[i]| == n && Placement(patterns[i], 'a', edges)
    requires Reordered(Script(periods, patterns, m, 0), lines) && Uniques(lines, ps) && Ranked(lines, ps, prio)
    requires x < |prio|
    ensures prio[x].priority == TOP_PRIORITY - prio[x].chain && ps == periods
  {
    var r := AssignedIsPlaced(periods, patterns, m, lines, ps, prio, x);
    var j := r.chain;
    assert m in patterns[j];
    forall i | 0 <= i < |patterns| ensures m in patterns[i] {
      AllOrNone(patterns, n, edges, m, j, i);
    }
    PriorityInScript(periods, patterns, m, lines, ps, prio, x);
    ScriptUniques(periods, patterns, m, lines, ps);
    AllKept(periods, patterns, m, |periods|);
    assert periods[..|periods|] == periods;
  }

  /** And each script lists its assignments chain by chain, as the generator numbers them. */
  lemma ListedChainByChain(
    periods: seq<nat>, patterns: seq<string>, n: nat, edges: nat, m: char, lines: seq<Line>, ps: seq<nat>,
    prio: seq<Assignment>, path: Paths, x: nat, y: nat)
    requires |periods| == |patterns| && Ascending(periods) && n >= 1 && IsMachine(m)
    requires forall i :: 0 <= i < |patterns| ==> |patterns[i]| == n && Placement(patterns[i], 'a', edges)
    requires Reordered(Script(periods, patterns, m, 0), lines) && Uniques(lines, ps) && Ranked(lines, ps, prio)
    requires Listed(path, prio) && x < y < |prio|
    ensures prio[x].chain <= prio[y].chain
  {
    MachinesAgree(periods, patterns, n, edges, m, lines, ps, prio, x);
    MachinesAgree(periods, patterns, n, edges, m, lines, ps, prio, y);
    assert ListedBefore(path, prio[x], prio[y]);
  }

  lemma {:induction false} AllKept(periods: seq<nat>, patterns: seq<string>, m: char, n: nat)
    requires n <= |periods| == |patterns| && forall i :: 0 <= i < n ==> m in patterns[i]
    ensures Kept(periods, patterns, m, n) == periods[..n]
  {
    if n > 0 { AllKept(periods, patterns, m, n - 1); }
  }

  /** The tool on one script: the commands are put in order and get their priorities. */
  method Prioritise(lines: array<Line>, path: Paths) returns (prio: seq<Assignment>, ps: seq<nat>)
    modifies lines
    ensures Reordered(old(lines[..]), lines[..])
    ensures Uniques(lines[..], ps) && Ranked(lines[..], ps, prio) && Listed(path, prio)
  {
    Reorder(lines);
    prio, ps := AssignPriorities(lines[..], path);
  }
}
