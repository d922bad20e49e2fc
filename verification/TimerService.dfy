/** The timer service of a participant: timers wait in a vector sorted by trigger time; changed ones are
    put back in place, due ones are fired, and the order that firing breaks is restored. */
module TimerService {
  import opened Sequences

  type Id = nat

  /** Times are in nanoseconds. */
  const MICROSECOND: int := 1000
  const MICROSECONDS_10: int := 10 * MICROSECOND
  const SECOND: int := 1_000_000 * MICROSECOND
  const HOURS_24: int := 24 * 3600 * SECOND

  /** next_trigger_time() of every timer */
  type Times = map<Id, int>

  function TimeOf(times: Times, t: Id): int { if t in times then times[t] else 0 }

  /** What a callback does to the service. */
  datatype Call = Unregister(t: Id) | Notify(t: Id)

  /** The timers' own behaviour: update() gives a timer's new trigger time and says whether it has to be
      active; trigger() gives the new trigger time and what the callback did. */
  datatype Env = Env(update: Id -> (int, bool), trigger: Id -> (int, seq<Call>))

  ghost predicate Sorted(s: seq<Id>, times: Times) {
    forall i, j :: 0 <= i < j < |s| ==> TimeOf(times, s[i]) <= TimeOf(times, s[j])
  }

  /** vector::erase(find(t)) */
  function Without(s: seq<Id>, t: Id): seq<Id> {
    if s == [] then [] else if s[0] == t then s[1..] else [s[0]] + Without(s[1..], t)
  }

  lemma {:induction false} WithoutMembers(s: seq<Id>, t: Id, x: Id)
    requires Distinct(s)
    ensures x in Without(s, t) <==> x in s && x != t
  {
    if s != [] {
      TailDistinct(s);
      WithoutMembers(s[1..], t, x);
      assert x in s <==> x == s[0] || x in s[1..];
      if s[0] == t { HeadOnce(s, t); }
    }
  }

  lemma TailDistinct(s: seq<Id>)
    requires Distinct(s) && s != []
    ensures Distinct(s[1..])
  {
    forall i, j | 0 <= i < j < |s[1..]| ensures s[1..][i] != s[1..][j] {
      assert s[1..][i] == s[i + 1] && s[1..][j] == s[j + 1];
    }
  }

  lemma HeadOnce(s: seq<Id>, t: Id)
    requires Distinct(s) && s != [] && s[0] == t
    ensures t !in s[1..]
  {
    forall i | 0 <= i < |s[1..]| ensures s[1..][i] != t {
      assert s[1..][i] == s[i + 1];
    }
  }

  /** Taking one timer out leaves the rest in order. */
  lemma CutKeeps(s: seq<Id>, i: nat, times: Times)
    requires i < |s| && Distinct(s)
    ensures Distinct(s[..i] + s[i + 1..]) && s[i] !in s[..i] + s[i + 1..]
    ensures Sorted(s, times) ==> Sorted(s[..i] + s[i + 1..], times)
    ensures forall x :: x in s[..i] + s[i + 1..] <==> x in s && x != s[i]
  {
    var r := s[..i] + s[i + 1..];
    assert forall k :: 0 <= k < |r| ==> r[k] == s[if k < i then k else k + 1];
    forall x | x in s && x != s[i] ensures x in r {
      var k :| 0 <= k < |s| && s[k] == x;
      assert r[if k < i then k else k - 1] == x;
    }
  }

  lemma {:induction false} WithoutIsCut(s: seq<Id>, t: Id, i: nat)
    requires i < |s| && s[i] == t && forall k :: 0 <= k < i ==> s[k] != t
    ensures Without(s, t) == s[..i] + s[i + 1..]
  {
    if i > 0 {
      WithoutIsCut(s[1..], t, i - 1);
      assert s[1..][..i - 1] == s[1..i] && s[1..][i..] == s[i + 1..];
      assert s[..i] == [s[0]] + s[1..i];
    }
  }

  lemma {:induction false} WithoutAbsent(s: seq<Id>, t: Id)
    requires t !in s
    ensures Without(s, t) == s
  {
    if s != [] { WithoutAbsent(s[1..], t); }
  }

  function Inserted(s: seq<Id>, i: nat, t: Id): seq<Id>
    requires i <= |s|
  {
    s[..i] + [t] + s[i..]
  }

  lemma InsertMembers(s: seq<Id>, i: nat, t: Id, x: Id)
    requires i <= |s|
    ensures x in Inserted(s, i, t) <==> x in s || x == t
  {
    assert s == s[..i] + s[i..];
  }

  lemma InsertedAt(s: seq<Id>, i: nat, t: Id, k: nat)
    requires i <= |s| && k <= |s|
    ensures Inserted(s, i, t)[k] == if k < i then s[k] else if k == i then t else s[k - 1]
  {}

  /** Putting a timer where the lower bound of its time is keeps the order. */
  lemma InsertKeeps(s: seq<Id>, i: nat, t: Id, times: Times)
    requires Distinct(s) && Sorted(s, times) && t !in s && i <= |s|
    requires forall k :: 0 <= k < i ==> TimeOf(times, s[k]) < TimeOf(times, t)
    requires forall k :: i <= k < |s| ==> TimeOf(times, t) <= TimeOf(times, s[k])
    ensures Distinct(Inserted(s, i, t)) && Sorted(Inserted(s, i, t), times)
  {
    var r := Inserted(s, i, t);
    forall j, k | 0 <= j < k < |r| ensures r[j] != r[k] && TimeOf(times, r[j]) <= TimeOf(times, r[k]) {
      InsertedAt(s, i, t, j);
      InsertedAt(s, i, t, k);
    }
  }

  /** Where the lower bound of a time is. */
  function LowerPos(s: seq<Id>, times: Times, key: int): (pos: nat)
    ensures pos <= |s|
  {
    if s == [] || key <= TimeOf(times, s[0]) then 0 else 1 + LowerPos(s[1..], times, key)
  }

  lemma {:induction false} LowerPosUnique(s: seq<Id>, times: Times, key: int, pos: nat)
    requires pos <= |s|
    requires forall k :: 0 <= k < pos ==> TimeOf(times, s[k]) < key
    requires forall k :: pos <= k < |s| ==> key <= TimeOf(times, s[k])
    ensures LowerPos(s, times, key) == pos
  {
    if pos > 0 {
      assert forall k :: 0 <= k < |s[1..]| ==> s[1..][k] == s[k + 1];
      LowerPosUnique(s[1..], times, key, pos - 1);
    }
  }

  /** The order does not depend on the times of other timers. */
  lemma SortedElsewhere(s: seq<Id>, times: Times, t: Id, v: int)
    requires Sorted(s, times) && t !in s
    ensures Sorted(s, times[t := v])
  {}

  // ---------------------------------------------------------------- callbacks

  /** Active and pending timers after the calls a callback made. */
  function ActiveAfter(active: seq<Id>, calls: seq<Call>): seq<Id>
    decreases |calls|
  {
    if calls == [] then active else ActiveAfter(ActiveStep(active, calls[0]), calls[1..])
  }

  function ActiveStep(active: seq<Id>, c: Call): seq<Id> {
    if c.Unregister? then Without(active, c.t) else active
  }

  function Registered(pending: seq<Id>, t: Id): seq<Id> { if t in pending then pending else pending + [t] }

  function PendingAfter(pending: seq<Id>, calls: seq<Call>): seq<Id>
    decreases |calls|
  {
    if calls == [] then pending else PendingAfter(PendingStep(pending, calls[0]), calls[1..])
  }

  function PendingStep(pending: seq<Id>, c: Call): seq<Id> {
    if c.Unregister? then Without(pending, c.t) else Registered(pending, c.t)
  }

  /** Some of the calls unregistered an active timer. */
  predicate Hits(active: seq<Id>, calls: seq<Call>) {
    exists i :: 0 <= i < |calls| && calls[i].Unregister? && calls[i].t in active
  }

  lemma {:induction false} NoHit(active: seq<Id>, calls: seq<Call>)
    requires !Hits(active, calls)
    ensures ActiveAfter(active, calls) == active
  {
    if calls != [] {
      if calls[0].Unregister? { WithoutAbsent(active, calls[0].t); }
      assert forall i :: 0 <= i < |calls[1..]| ==> calls[1..][i] == calls[i + 1];
      NoHit(active, calls[1..]);
    }
  }

  lemma {:induction false} ActiveAfterMembers(active: seq<Id>, calls: seq<Call>, x: Id)
    requires Distinct(active)
    ensures x in ActiveAfter(active, calls) <==> x in active && Unregister(x) !in calls
    decreases |calls|
  {
    if calls != [] {
      var rest := ActiveStep(active, calls[0]);
      if calls[0].Unregister? {
        WithoutMembers(active, calls[0].t, x);
        WithoutDistinct(active, calls[0].t);
      }
      ActiveAfterMembers(rest, calls[1..], x);
      assert Unregister(x) in calls <==> calls[0] == Unregister(x) || Unregister(x) in calls[1..];
    }
  }

  lemma {:induction false} WithoutDistinct(s: seq<Id>, t: Id)
    requires Distinct(s)
    ensures Distinct(Without(s, t))
  {
    if s != [] {
      TailDistinct(s);
      if s[0] != t {
        WithoutDistinct(s[1..], t);
        var r := Without(s[1..], t);
        HeadOnce(s, s[0]);
        WithoutMembers(s[1..], t, s[0]);
        assert s[0] !in r;
      }
    }
  }

  // ---------------------------------------------------------------- what one round does

  /** One pending timer moves: out of the active ones, a new time, and back in if it has to be active. */
  function UpdateStep(active: seq<Id>, times: Times, env: Env, t: Id): (seq<Id>, Times) {
    var (time, activate) := env.update(t);
    var rest, next := Without(active, t), times[t := time];
    (if activate then Inserted(rest, LowerPos(rest, next, time), t) else rest, next)
  }

  /** Active timers and trigger times when all pending timers have moved. */
  function MidOf(active: seq<Id>, times: Times, env: Env, pending: seq<Id>): (seq<Id>, Times)
    decreases |pending|
  {
    if pending == [] then (active, times)
    else
      var (next, nextTimes) := UpdateStep(active, times, env, pending[0]);
      MidOf(next, nextTimes, env, pending[1..])
  }

  lemma MidNext(active: seq<Id>, times: Times, env: Env, pending: seq<Id>, i: nat)
    requires i < |pending|
    ensures var (next, nextTimes) := UpdateStep(active, times, env, pending[i]);
      MidOf(active, times, env, pending[i..]) == MidOf(next, nextTimes, env, pending[i + 1..])
  {
    assert pending[i..][1..] == pending[i + 1..] && pending[i..][0] == pending[i];
  }

  /** The timers fired from position k on: up to the first that is not due, or the first whose callback
      unregisters an active timer. */
  function FiredFrom(active: seq<Id>, times: Times, env: Env, now: int, k: nat): seq<Id>
    requires k <= |active|
    decreases |active| - k
  {
    if k == |active| || TimeOf(times, active[k]) > now then []
    else if Hits(active, env.trigger(active[k]).1) then [active[k]]
    else [active[k]] + FiredFrom(active, times, env, now, k + 1)
  }

  /** No callback of a due timer unregisters an active one, unless no due timer is left to fire. */
  ghost predicate NoCut(active: seq<Id>, times: Times, env: Env, now: int) {
    forall k :: 0 <= k < |active| - 1 && TimeOf(times, active[k + 1]) <= now ==>
      !Hits(active, env.trigger(active[k]).1)
  }

  ghost predicate Runs(active: seq<Id>, times: Times, env: Env, now: int, from: nat, to: nat) {
    && from <= to <= |active|
    && (forall k :: from <= k < to ==> TimeOf(times, active[k]) <= now)
    && (forall k :: from <= k < to - 1 ==> !Hits(active, env.trigger(active[k]).1))
    && (to < |active| ==>
      TimeOf(times, active[to]) > now || (from < to && Hits(active, env.trigger(active[to - 1]).1)))
  }

  lemma {:induction false} FiredShape(active: seq<Id>, times: Times, env: Env, now: int, k: nat)
    requires k <= |active|
    ensures var to := k + |FiredFrom(active, times, env, now, k)|;
      Runs(active, times, env, now, k, to) && FiredFrom(active, times, env, now, k) == active[k..to]
    decreases |active| - k
  {
    if k < |active| && TimeOf(times, active[k]) <= now && !Hits(active, env.trigger(active[k]).1) {
      FiredShape(active, times, env, now, k + 1);
    }
  }

  lemma FiredNext(active: seq<Id>, times: Times, env: Env, now: int, k: nat)
    requires k < |active| && TimeOf(times, active[k]) <= now
    ensures active[..k] + FiredFrom(active, times, env, now, k) == active[..k + 1] +
      if Hits(active, env.trigger(active[k]).1) then [] else FiredFrom(active, times, env, now, k + 1)
  {}

  /** All due timers are fired exactly if no due timer comes behind one whose callback unregisters an
      active timer. */
  lemma AllDueFired(active: seq<Id>, times: Times, env: Env, now: int)
    requires Distinct(active) && Sorted(active, times)
    ensures (forall x :: x in active && TimeOf(times, x) <= now ==> x in FiredFrom(active, times, env, now, 0))
      <==> NoCut(active, times, env, now)
  {
    var fired := FiredFrom(active, times, env, now, 0);
    var m := |fired|;
    FiredShape(active, times, env, now, 0);
    if NoCut(active, times, env, now) {
      assert m < |active| ==> TimeOf(times, active[m]) > now;
      forall x | x in active && TimeOf(times, x) <= now ensures x in fired {
        var k :| 0 <= k < |active| && active[k] == x;
        assert k < m && fired[k] == x;
      }
    }
    if forall x :: x in active && TimeOf(times, x) <= now ==> x in fired {
      forall k | 0 <= k < |active| - 1 && TimeOf(times, active[k + 1]) <= now
        ensures !Hits(active, env.trigger(active[k]).1)
      {
        assert active[k + 1] in fired;
        assert k + 1 < m;
      }
    }
  }

  /** Whether timer x is active, and when it is due, once the pending ones have been dealt with. */
  predicate NowActive(active: seq<Id>, pending: seq<Id>, env: Env, x: Id) {
    if x in pending then env.update(x).1 else x in active
  }

  function NowDue(times: Times, pending: seq<Id>, env: Env, x: Id): int {
    if x in pending then env.update(x).0 else TimeOf(times, x)
  }

  /** What is fired was active and due, in the order of the trigger times, each timer once. */
  ghost predicate FiresDue(active: seq<Id>, pending: seq<Id>, times: Times, env: Env, now: int, fired: seq<Id>) {
    && Distinct(fired)
    && (forall x :: x in fired ==> NowActive(active, pending, env, x) && NowDue(times, pending, env, x) <= now)
    && forall i, j :: 0 <= i < j < |fired| ==>
         NowDue(times, pending, env, fired[i]) <= NowDue(times, pending, env, fired[j])
  }

  /** Every active timer that is due is fired. */
  ghost predicate FiresAllDue(active: seq<Id>, pending: seq<Id>, times: Times, env: Env, now: int, fired: seq<Id>) {
    forall x :: NowActive(active, pending, env, x) && NowDue(times, pending, env, x) <= now ==> x in fired
  }

  /** Once something was fired, a timer stays only if it is due within 24 hours and the last callback did
      not unregister it. */
  predicate Stays(env: Env, fired: seq<Id>, times: Times, now: int, x: Id)
    requires fired != []
  {
    TimeOf(times, x) < now + HOURS_24 && Unregister(x) !in env.trigger(fired[|fired| - 1]).1
  }

  /** After the pending timers have been dealt with. */
  ghost predicate Updated(active: seq<Id>, pending: seq<Id>, times: Times, env: Env, mid: seq<Id>, midTimes: Times) {
    && (forall x :: x in mid <==> NowActive(active, pending, env, x))
    && forall x :: TimeOf(midTimes, x) == NowDue(times, pending, env, x)
  }

  lemma UpdatedNext(
    active: seq<Id>, times: Times, env: Env, pending: seq<Id>, i: nat,
    was: seq<Id>, wasTimes: Times, next: seq<Id>, nextTimes: Times)
    requires i < |pending| && Updated(active, pending[..i], times, env, was, wasTimes)
    requires nextTimes == wasTimes[pending[i] := env.update(pending[i]).0]
    requires pending[i] in next <==> env.update(pending[i]).1
    requires forall x :: x != pending[i] ==> (x in next <==> x in was)
    ensures Updated(active, pending[..i + 1], times, env, next, nextTimes)
  {
    assert pending[..i + 1] == pending[..i] + [pending[i]];
    forall x
      ensures x in next <==> NowActive(active, pending[..i + 1], env, x)
      ensures TimeOf(nextTimes, x) == NowDue(times, pending[..i + 1], env, x)
    {
      assert x in pending[..i + 1] <==> x in pending[..i] || x == pending[i];
      assert x in was <==> NowActive(active, pending[..i], env, x);
      assert TimeOf(wasTimes, x) == NowDue(times, pending[..i], env, x);
    }
  }

  /** The trigger times afterwards. */
  ghost predicate NewTimes(pending: seq<Id>, times: Times, env: Env, fired: seq<Id>, after: Times) {
    forall x :: TimeOf(after, x) == if x in fired then env.trigger(x).0 else NowDue(times, pending, env, x)
  }

  /** The timers that are active afterwards. */
  ghost predicate Remaining(
    active: seq<Id>, pending: seq<Id>, env: Env, now: int, fired: seq<Id>, after: Times, left: seq<Id>)
  {
    forall x :: x in left <==> NowActive(active, pending, env, x) && (fired != [] ==> Stays(env, fired, after, now, x))
  }

  predicate OnlyNotify(calls: seq<Call>) { forall i :: 0 <= i < |calls| ==> calls[i].Notify? }

  /** No callback unregisters a timer. */
  ghost predicate NoUnregister(env: Env) {
    forall t: Id :: OnlyNotify(env.trigger(t).1)
  }

  class ResourceEvent {
    var active: seq<Id>
    var pending: seq<Id>
    var times: Times
    var currentTime: int
    var skipChecking: bool
    var allowManipulation: bool

    /** What holds whenever the service thread is not firing timers. */
    ghost predicate Valid()
      reads this
    {
      Distinct(active) && Distinct(pending) && Sorted(active, times)
    }

    constructor (times: Times)
      ensures Valid() && active == [] && pending == []
    {
      active, pending, this.times := [], [], times;
      currentTime, skipChecking, allowManipulation := 0, false, false;
    }

    /** std::lower_bound() on the first n active timers, ordered by trigger time. */
    method LowerBound(key: int) returns (pos: nat)
      requires Sorted(active, times)
      ensures pos <= |active|
      ensures forall k :: 0 <= k < pos ==> TimeOf(times, active[k]) < key
      ensures forall k :: pos <= k < |active| ==> key <= TimeOf(times, active[k])
    {
      var len := |active|;
      pos := 0;
      while len > 0
        invariant 0 <= len && pos + len <= |active|
        invariant forall k :: 0 <= k < pos ==> TimeOf(times, active[k]) < key
        invariant forall k :: pos + len <= k < |active| ==> key <= TimeOf(times, active[k])
      {
        var half := len / 2;
        var mid := pos + half;
        if TimeOf(times, active[mid]) < key {
          assert forall k :: 0 <= k <= mid ==> TimeOf(times, active[k]) < key;
          pos := mid + 1;
          len := len - half - 1;
        } else {
          len := half;
        }
      }
    }

    /** std::find() from a position on; the length of the vector if t is not there. */
    method Find(from: nat, t: Id) returns (pos: nat)
      requires from <= |active|
      ensures from <= pos <= |active| && (pos < |active| ==> active[pos] == t)
      ensures t !in active[from..pos]
    {
      pos := from;
      while pos < |active| && active[pos] != t
        invariant from <= pos <= |active| && t !in active[from..pos]
      {
        assert active[from..pos + 1] == active[from..pos] + [active[pos]];
        pos := pos + 1;
      }
    }

    /** Binary search and find(): they never miss an active timer. */
    method Locate(t: Id) returns (pos: nat)
      requires Valid()
      ensures pos <= |active| && (pos < |active| <==> t in active) && (pos < |active| ==> active[pos] == t)
    {
      var low := LowerBound(TimeOf(times, t));
      pos := Find(low, t);
      if t in active {
        assert forall k :: low <= k < pos ==> active[k] == active[low..pos][k - low];
      }
    }

    /** register_timer_nts(): a timer is pending once. */
    method RegisterTimer(t: Id) returns (added: bool)
      requires Distinct(pending)
      modifies this`pending
      ensures Distinct(pending) && added == (t !in old(pending))
      ensures pending == if added then old(pending) + [t] else old(pending)
    {
      added := t !in pending;
      if added {
        pending := pending + [t];
      }
    }

    method ErasePending(t: Id) returns (found: bool)
      requires Distinct(pending)
      modifies this`pending
      ensures Distinct(pending) && pending == Without(old(pending), t) && t !in pending && found == (t in old(pending))
    {
      var i := 0;
      while i < |pending| && pending[i] != t
        invariant 0 <= i <= |pending| && forall k :: 0 <= k < i ==> pending[k] != t
      {
        i := i + 1;
      }
      found := i < |pending|;
      if found {
        WithoutIsCut(pending, t, i);
        CutKeeps(pending, i, times);
        pending := pending[..i] + pending[i + 1..];
      } else {
        WithoutAbsent(pending, t);
      }
    }

    method EraseActive(t: Id) returns (found: bool)
      requires Distinct(active)
      modifies this`active
      ensures Distinct(active) && active == Without(old(active), t) && t !in active && found == (t in old(active))
      ensures Sorted(old(active), times) ==> Sorted(active, times)
    {
      var pos := Find(0, t);
      found := pos < |active|;
      if found {
        assert forall k :: 0 <= k < pos ==> active[k] == active[0..pos][k];
        WithoutIsCut(active, t, pos);
        CutKeeps(active, pos, times);
        active := active[..pos] + active[pos + 1..];
      } else {
        assert active[0..pos] == active;
        WithoutAbsent(active, t);
      }
    }

    /** unregister_timer(); another thread than the service thread waits until manipulation is allowed. */
    method UnregisterTimer(t: Id, isServiceThread: bool) returns (notify: bool)
      requires Distinct(active) && Distinct(pending) && (isServiceThread || allowManipulation)
      modifies this`pending, this`active, this`skipChecking
      ensures Distinct(active) && Distinct(pending) && t !in active && t !in pending
      ensures active == Without(old(active), t) && pending == Without(old(pending), t)
      ensures Sorted(old(active), times) ==> Sorted(active, times)
      ensures skipChecking == (old(skipChecking) || (isServiceThread && t in old(active)))
      ensures notify == (t in old(active) || t in old(pending))
    {
      notify := ErasePending(t);
      var wasActive := EraseActive(t);
      if wasActive {
        if isServiceThread {
          skipChecking := true;
        }
        notify := true;
      }
    }

    /** One pending timer: it leaves its place, gets its new time, and goes back in place if it has to be
        active. */
    method UpdateOne(t: Id, env: Env)
      requires Valid()
      modifies this`active, this`times
      ensures Valid() && times == old(times)[t := env.update(t).0]
      ensures (active, times) == UpdateStep(old(active), old(times), env, t)
      ensures t in active <==> env.update(t).1
      ensures forall x :: x != t ==> (x in active <==> x in old(active))
    {
      var pos := Locate(t);
      if pos < |active| {
        CutKeeps(active, pos, times);
        WithoutIsCut(active, t, pos);
        active := active[..pos] + active[pos + 1..];
      } else {
        WithoutAbsent(active, t);
      }
      var (time, activate) := env.update(t);
      SortedElsewhere(active, times, t, time);
      times := times[t := time];
      if activate {
        var low := LowerBound(TimeOf(times, t));
        InsertKeeps(active, low, t, times);
        LowerPosUnique(active, times, time, low);
        forall x ensures x in Inserted(active, low, t) <==> x in active || x == t {
          InsertMembers(active, low, t, x);
        }
        active := Inserted(active, low, t);
      }
    }

    /** The first part of do_timer_actions(). */
    method ProcessPending(env: Env)
      requires Valid()
      modifies this`active, this`times, this`pending
      ensures Valid() && pending == []
      ensures Updated(old(active), old(pending), old(times), env, active, times)
      ensures (active, times) == MidOf(old(active), old(times), env, old(pending))
    {
      assert pending[0..] == pending;
      var i := 0;
      while i < |pending|
        invariant 0 <= i <= |pending| && pending == old(pending) && Valid()
        invariant MidOf(active, times, env, pending[i..]) == MidOf(old(active), old(times), env, pending)
        invariant Updated(old(active), pending[..i], old(times), env, active, times)
      {
        MidNext(active, times, env, pending, i);
        ghost var was, wasTimes := active, times;
        UpdateOne(pending[i], env);
        UpdatedNext(old(active), old(times), env, pending, i, was, wasTimes, active, times);
        i := i + 1;
      }
      assert pending[..i] == pending;
      pending := [];
    }

    method RunCall(c: Call)
      requires Distinct(active) && Distinct(pending)
      modifies this`active, this`pending, this`skipChecking
      ensures Distinct(active) && Distinct(pending)
      ensures active == ActiveStep(old(active), c) && pending == PendingStep(old(pending), c)
      ensures skipChecking == (old(skipChecking) || (c.Unregister? && c.t in old(active)))
    {
      match c
      case Unregister(t) =>
        var notify := UnregisterTimer(t, true);
      case Notify(t) =>
        var added := RegisterTimer(t);
    }

    /** A callback runs in the service thread. */
    method RunCallback(calls: seq<Call>)
      requires Distinct(active) && Distinct(pending)
      modifies this`active, this`pending, this`skipChecking
      ensures Distinct(active) && Distinct(pending)
      ensures active == ActiveAfter(old(active), calls) && pending == PendingAfter(old(pending), calls)
      ensures skipChecking == (old(skipChecking) || Hits(old(active), calls))
    {
      ghost var a, p, skipped := active, pending, skipChecking;
      var i := 0;
      RanNone(a, p, calls);
      while i < |calls|
        invariant 0 <= i <= |calls|
        invariant Ran(a, p, calls, i, active, pending, Hits(a, calls[..i]))
        invariant skipChecking == (skipped || Hits(a, calls[..i]))
      {
        RanNext(a, p, calls, i, active, pending);
        RunCall(calls[i]);
        i := i + 1;
      }
      RanAll(a, p, calls, active, pending);
    }

    /** One turn of the firing loop: a timer gets a new time and its callback runs. */
    method Fire(tp: Id, env: Env, ghost a: seq<Id>, ghost t0: Times, ghost p0: seq<Id>, ghost i: nat)
      requires i < |a| && tp == a[i] && Distinct(a) && !skipChecking && TimeOf(times, tp) <= currentTime
      requires Firing(a, t0, p0, env, currentTime, i, active, pending, times)
      modifies this`active, this`pending, this`times, this`skipChecking
      ensures if skipChecking then Fired(a, t0, p0, env, currentTime, a[..i + 1], active, pending, times)
        else Firing(a, t0, p0, env, currentTime, i + 1, active, pending, times)
    {
      var (time, calls) := env.trigger(tp);
      times := times[tp := time];
      RunCallback(calls);
      TurnEnds(a, t0, p0, env, currentTime, i, active, pending, times);
    }

    /** The loop that fires timers. */
    method TriggerLoop(env: Env) returns (fired: seq<Id>)
      requires Distinct(active) && Distinct(pending)
      modifies this`active, this`pending, this`times, this`skipChecking
      ensures Fired(old(active), old(times), old(pending), env, currentTime, fired, active, pending, times)
    {
      skipChecking := false;
      fired := [];
      ghost var a, t0, p0 := active, times, pending;
      FiringStarts(a, t0, p0, env, currentTime);
      var i := 0;
      while i < |active| && TimeOf(times, active[i]) <= currentTime
        invariant 0 <= i <= |a| && active == a && !skipChecking && fired == a[..i]
        invariant Firing(a, t0, p0, env, currentTime, i, active, pending, times)
      {
        var tp := active[i];
        assert a[..i + 1] == fired + [tp];
        Fire(tp, env, a, t0, p0, i);
        fired := fired + [tp];
        if skipChecking {
          return;
        }
        i := i + 1;
      }
      FiringEnds(a, t0, p0, env, currentTime, i, pending, times);
    }

    /** Firing: `fired` are the first of the active timers, all of them due; it ends before a timer that is
        not due, or after a callback that unregistered an active timer. */
    method TriggerActive(env: Env) returns (fired: seq<Id>)
      requires Valid()
      modifies this`active, this`pending, this`times, this`skipChecking
      ensures Distinct(active) && Distinct(pending)
      ensures fired == FiredFrom(old(active), old(times), env, currentTime, 0)
      ensures fired <= old(active) && AllDue(fired, old(times), currentTime)
      ensures times == Triggered(old(times), fired, env)
      ensures pending == Requested(old(pending), fired, env)
      ensures active == AfterLast(old(active), fired, env)
      ensures |fired| < |old(active)| ==>
        TimeOf(old(times), old(active)[|fired|]) > currentTime
        || (fired != [] && Hits(old(active), env.trigger(fired[|fired| - 1]).1))
    {
      fired := TriggerLoop(env);
      FiredShape(old(active), old(times), env, currentTime, 0);
      assert old(active)[0..|fired|] == old(active)[..|fired|];
    }

    /** std::sort(), as insertion into a sorted vector. */
    method SortTimers()
      requires Distinct(active)
      modifies this`active
      ensures Distinct(active) && Sorted(active, times)
      ensures forall x :: x in active <==> x in old(active)
    {
      var todo := active;
      active := [];
      var i := 0;
      while i < |todo|
        invariant 0 <= i <= |todo| && Distinct(active) && Sorted(active, times)
        invariant forall x :: x in active <==> x in todo[..i]
      {
        NotFiredYet(todo, i);
        assert todo[..i + 1] == todo[..i] + [todo[i]];
        var low := LowerBound(TimeOf(times, todo[i]));
        InsertKeeps(active, low, todo[i], times);
        forall x ensures x in Inserted(active, low, todo[i]) <==> x in active || x == todo[i] {
          InsertMembers(active, low, todo[i], x);
        }
        active := Inserted(active, low, todo[i]);
        i := i + 1;
      }
      assert todo[..i] == todo;
    }

    /** The end of do_timer_actions() when something was fired: timers from cancelTime on leave. */
    method SortAndCut(cancelTime: int)
      requires Distinct(active)
      modifies this`active
      ensures Distinct(active) && Sorted(active, times)
      ensures forall x :: x in active <==> x in old(active) && TimeOf(times, x) < cancelTime
    {
      SortTimers();
      ghost var all := active;
      var low := LowerBound(cancelTime);
      active := active[..low];
      forall x | x in all && TimeOf(times, x) < cancelTime ensures x in active {
        var k :| 0 <= k < |all| && all[k] == x;
        assert k < low && active[k] == x;
      }
      forall x | x in active ensures x in all && TimeOf(times, x) < cancelTime {
        var k :| 0 <= k < |active| && active[k] == x;
        assert all[k] == x;
      }
    }

    /** do_timer_actions(): what is fired and what stays active. */
    method DoTimerActions(env: Env) returns (fired: seq<Id>)
      requires Valid()
      modifies this`active, this`pending, this`times, this`skipChecking
      ensures Valid()
      ensures FiresDue(old(active), old(pending), old(times), env, currentTime, fired)
      ensures var (mid, midTimes) := MidOf(old(active), old(times), env, old(pending));
        && fired == FiredFrom(mid, midTimes, env, currentTime, 0)
        && (FiresAllDue(old(active), old(pending), old(times), env, currentTime, fired)
            <==> NoCut(mid, midTimes, env, currentTime))
      ensures NoUnregister(env) ==> FiresAllDue(old(active), old(pending), old(times), env, currentTime, fired)
      ensures NewTimes(old(pending), old(times), env, fired, times)
      ensures pending == Requested([], fired, env)
      ensures forall x :: x in pending <==> AsksLast(CallsOf(fired, env), x)
      ensures Remaining(old(active), old(pending), env, currentTime, fired, times, active)
    {
      ghost var a0, p0, t0 := active, pending, times;
      ProcessPending(env);
      ghost var mid, midTimes := active, times;
      fired := TriggerActive(env);
      FiredAreDue(a0, p0, t0, env, mid, midTimes, fired, currentTime);
      DueAreFired(a0, p0, t0, env, mid, midTimes, currentTime);
      TimesAfter(a0, p0, t0, env, mid, midTimes, fired);
      forall x ensures x in pending <==> AsksLast(CallsOf(fired, env), x) { RequestsKept(fired, env, x); }
      ghost var last := active;
      if fired != [] {
        SortAndCut(currentTime + HOURS_24);
      }
      RemainingAfter(a0, p0, t0, env, mid, midTimes, fired, last, active, currentTime);
    }

    ghost predicate IsEarliest(x: Id)
      reads this`active, this`times
    {
      x in active && forall y :: y in active ==> TimeOf(times, x) <= TimeOf(times, y)
    }

    /** How long event_service() waits: until the first active timer is due, or a second, but never for a
        time that has passed. */
    method NextWakeup(now: int) returns (at: int)
      requires Valid()
      ensures at >= now
      ensures forall x :: IsEarliest(x) ==> at == NotPast(TimeOf(times, x), now)
      ensures active == [] ==> at == NotPast(currentTime + SECOND, now)
    {
      at := if active == [] then currentTime + SECOND else TimeOf(times, active[0]);
      if active != [] {
        assert active[0] in active;
        forall x | x in active ensures TimeOf(times, active[0]) <= TimeOf(times, x) {
          var k :| 0 <= k < |active| && active[k] == x;
        }
      }
      if now > at {
        at := now + MICROSECONDS_10;
      }
    }
  }

  /** A time to wait for, or a moment from now if it has passed. */
  function NotPast(at: int, now: int): int { if at < now then now + MICROSECONDS_10 else at }

  /** While no call hit an active timer, all are still there; anyway none has come. */
  ghost predicate StillAll(was: seq<Id>, active: seq<Id>, hit: bool) {
    (!hit ==> active == was) && Distinct(was) && forall x :: x in active ==> x in was
  }

  predicate HitsOne(active: seq<Id>, c: Call) { c.Unregister? && c.t in active }

  lemma HitsMore(was: seq<Id>, calls: seq<Call>, i: nat)
    requires i < |calls|
    ensures Hits(was, calls[..i + 1]) <==> Hits(was, calls[..i]) || HitsOne(was, calls[i])
  {
    var s, r := calls[..i], calls[..i + 1];
    assert r == s + [calls[i]];
    if HitsOne(was, calls[i]) { assert r[i].Unregister? && r[i].t in was; }
    if k :| 0 <= k < |s| && s[k].Unregister? && s[k].t in was { assert r[k] == s[k]; }
  }

  lemma StillAllNext(was: seq<Id>, active: seq<Id>, c: Call, hit: bool)
    requires Distinct(active) && StillAll(was, active, hit)
    ensures StillAll(was, ActiveStep(active, c), hit || HitsOne(was, c))
    ensures hit || HitsOne(was, c) <==> hit || HitsOne(active, c)
  {
    if c.Unregister? {
      forall x ensures x in Without(active, c.t) <==> x in active && x != c.t {
        WithoutMembers(active, c.t, x);
      }
      if c.t !in active { WithoutAbsent(active, c.t); }
    }
  }

  /** The first i calls have run; `hit` says whether one of them unregistered an active timer. */
  ghost predicate Ran(
    a: seq<Id>, p: seq<Id>, calls: seq<Call>, i: nat, active: seq<Id>, pending: seq<Id>, hit: bool)
  {
    && i <= |calls| && Distinct(active) && Distinct(pending) && StillAll(a, active, hit)
    && ActiveAfter(active, calls[i..]) == ActiveAfter(a, calls)
    && PendingAfter(pending, calls[i..]) == PendingAfter(p, calls)
  }

  lemma RanNone(a: seq<Id>, p: seq<Id>, calls: seq<Call>)
    requires Distinct(a) && Distinct(p)
    ensures Ran(a, p, calls, 0, a, p, Hits(a, calls[..0])) && !Hits(a, calls[..0])
  {
    assert calls[0..] == calls;
  }

  lemma RanNext(a: seq<Id>, p: seq<Id>, calls: seq<Call>, i: nat, active: seq<Id>, pending: seq<Id>)
    requires i < |calls| && Ran(a, p, calls, i, active, pending, Hits(a, calls[..i]))
    ensures var (next, left) := (ActiveStep(active, calls[i]), PendingStep(pending, calls[i]));
      Distinct(next) && Distinct(left) ==> Ran(a, p, calls, i + 1, next, left, Hits(a, calls[..i + 1]))
    ensures Hits(a, calls[..i + 1]) <==> Hits(a, calls[..i]) || HitsOne(active, calls[i])
  {
    AfterNext(active, pending, calls, i);
    HitsMore(a, calls, i);
    StillAllNext(a, active, calls[i], Hits(a, calls[..i]));
  }

  lemma RanAll(a: seq<Id>, p: seq<Id>, calls: seq<Call>, active: seq<Id>, pending: seq<Id>)
    requires Ran(a, p, calls, |calls|, active, pending, Hits(a, calls[..|calls|]))
    ensures active == ActiveAfter(a, calls) && pending == PendingAfter(p, calls)
    ensures Hits(a, calls[..|calls|]) == Hits(a, calls)
  {
    assert calls[|calls|..] == [] && calls[..|calls|] == calls;
  }

  lemma AfterNext(active: seq<Id>, pending: seq<Id>, calls: seq<Call>, i: nat)
    requires i < |calls|
    ensures ActiveAfter(active, calls[i..]) == ActiveAfter(ActiveStep(active, calls[i]), calls[i + 1..])
    ensures PendingAfter(pending, calls[i..]) == PendingAfter(PendingStep(pending, calls[i]), calls[i + 1..])
  {
    assert calls[i..][1..] == calls[i + 1..] && calls[i..][0] == calls[i];
  }

  /** Active timers after the last callback; the ones before it unregistered none of them. */
  function AfterLast(active: seq<Id>, fired: seq<Id>, env: Env): seq<Id> {
    if fired == [] then active else ActiveAfter(active, env.trigger(fired[|fired| - 1]).1)
  }

  /** The first i timers of a were fired, and the loop goes on. */
  ghost predicate Firing(
    a: seq<Id>, t0: Times, p0: seq<Id>, env: Env, now: int, i: nat, active: seq<Id>, pending: seq<Id>, times: Times)
  {
    && i <= |a| && active == a && Distinct(pending)
    && times == Triggered(t0, a[..i], env) && pending == Requested(p0, a[..i], env)
    && a[..i] + FiredFrom(a, t0, env, now, i) == FiredFrom(a, t0, env, now, 0)
    && AfterLast(a, a[..i], env) == a
  }

  /** The loop over a has fired `fired` and is over. */
  ghost predicate Fired(
    a: seq<Id>, t0: Times, p0: seq<Id>, env: Env, now: int, fired: seq<Id>, active: seq<Id>, pending: seq<Id>,
    times: Times)
  {
    && fired == FiredFrom(a, t0, env, now, 0)
    && Distinct(active) && Distinct(pending)
    && times == Triggered(t0, fired, env) && pending == Requested(p0, fired, env)
    && active == AfterLast(a, fired, env)
  }

  lemma FiringStarts(a: seq<Id>, t0: Times, p0: seq<Id>, env: Env, now: int)
    requires Distinct(p0)
    ensures Firing(a, t0, p0, env, now, 0, a, p0, t0)
  {
    assert a[..0] == [] && [] + FiredFrom(a, t0, env, now, 0) == FiredFrom(a, t0, env, now, 0);
  }

  /** A timer that has not been fired is due when it was due before. */
  lemma DueAsBefore(a: seq<Id>, t0: Times, env: Env, i: nat)
    requires Distinct(a) && i < |a|
    ensures TimeOf(Triggered(t0, a[..i], env), a[i]) == TimeOf(t0, a[i])
  {
    NotFiredYet(a, i);
    TriggeredTime(t0, a[..i], env, a[i]);
  }

  lemma FiringEnds(
    a: seq<Id>, t0: Times, p0: seq<Id>, env: Env, now: int, i: nat, pending: seq<Id>, times: Times)
    requires Distinct(a) && Firing(a, t0, p0, env, now, i, a, pending, times)
    requires i < |a| ==> TimeOf(times, a[i]) > now
    ensures Fired(a, t0, p0, env, now, a[..i], a, pending, times)
  {
    if i < |a| { DueAsBefore(a, t0, env, i); }
    assert FiredFrom(a, t0, env, now, i) == [];
  }

  lemma OneMoreFired(a: seq<Id>, i: nat)
    requires i < |a|
    ensures a[..i + 1] == a[..i] + [a[i]]
  {}

  lemma TurnStops(
    a: seq<Id>, t0: Times, p0: seq<Id>, env: Env, now: int, i: nat, active: seq<Id>, pending: seq<Id>, times: Times)
    requires i < |a| && Distinct(active) && Distinct(pending)
    requires a[..i + 1] == FiredFrom(a, t0, env, now, 0)
    requires times == Triggered(t0, a[..i + 1], env) && pending == Requested(p0, a[..i + 1], env)
    requires active == ActiveAfter(a, env.trigger(a[i]).1)
    ensures Fired(a, t0, p0, env, now, a[..i + 1], active, pending, times)
  {
    assert a[..i + 1][i] == a[i];
  }

  lemma TurnGoesOn(
    a: seq<Id>, t0: Times, p0: seq<Id>, env: Env, now: int, i: nat, pending: seq<Id>, times: Times)
    requires i < |a| && Distinct(pending) && !Hits(a, env.trigger(a[i]).1)
    requires a[..i + 1] + FiredFrom(a, t0, env, now, i + 1) == FiredFrom(a, t0, env, now, 0)
    requires times == Triggered(t0, a[..i + 1], env) && pending == Requested(p0, a[..i + 1], env)
    ensures Firing(a, t0, p0, env, now, i + 1, a, pending, times)
  {
    assert a[..i + 1][i] == a[i];
    NoHit(a, env.trigger(a[i]).1);
  }

  lemma TurnEnds(
    a: seq<Id>, t0: Times, p0: seq<Id>, env: Env, now: int, i: nat, active: seq<Id>, pending: seq<Id>, times: Times)
    requires i < |a| && Distinct(a) && Distinct(active) && Distinct(pending)
    requires TimeOf(Triggered(t0, a[..i], env), a[i]) <= now
    requires a[..i] + FiredFrom(a, t0, env, now, i) == FiredFrom(a, t0, env, now, 0)
    requires times == Triggered(t0, a[..i], env)[a[i] := env.trigger(a[i]).0]
    requires pending == PendingAfter(Requested(p0, a[..i], env), env.trigger(a[i]).1)
    requires active == ActiveAfter(a, env.trigger(a[i]).1)
    ensures if Hits(a, env.trigger(a[i]).1) then Fired(a, t0, p0, env, now, a[..i + 1], active, pending, times)
      else Firing(a, t0, p0, env, now, i + 1, active, pending, times)
  {
    DueAsBefore(a, t0, env, i);
    FiredNext(a, t0, env, now, i);
    OneMoreFired(a, i);
    TriggeredNext(t0, a[..i], env, a[i]);
    RequestedNext(p0, a[..i], env, a[i]);
    if Hits(a, env.trigger(a[i]).1) {
      TurnStops(a, t0, p0, env, now, i, active, pending, times);
    } else {
      NoHit(a, env.trigger(a[i]).1);
      TurnGoesOn(a, t0, p0, env, now, i, pending, times);
    }
  }

  lemma NotFiredYet(a: seq<Id>, i: nat)
    requires Distinct(a) && i < |a|
    ensures a[i] !in a[..i]
  {}

  ghost predicate AllDue(fired: seq<Id>, times: Times, now: int) {
    forall i :: 0 <= i < |fired| ==> TimeOf(times, fired[i]) <= now
  }

  /** The trigger times after the timers `fired`. */
  function Triggered(times: Times, fired: seq<Id>, env: Env): Times {
    if fired == [] then times
    else Triggered(times, fired[..|fired| - 1], env)[fired[|fired| - 1] := env.trigger(fired[|fired| - 1]).0]
  }

  lemma TriggeredNext(times: Times, fired: seq<Id>, env: Env, t: Id)
    ensures Triggered(times, fired + [t], env) == Triggered(times, fired, env)[t := env.trigger(t).0]
  {
    assert (fired + [t])[..|fired|] == fired;
  }

  lemma {:induction false} TriggeredTime(times: Times, fired: seq<Id>, env: Env, x: Id)
    ensures TimeOf(Triggered(times, fired, env), x) == if x in fired then env.trigger(x).0 else TimeOf(times, x)
  {
    if fired != [] {
      TriggeredTime(times, fired[..|fired| - 1], env, x);
      assert fired == fired[..|fired| - 1] + [fired[|fired| - 1]];
    }
  }

  /** The pending timers after the callbacks of the timers `fired`. */
  function Requested(pending: seq<Id>, fired: seq<Id>, env: Env): seq<Id> {
    if fired == [] then pending
    else PendingAfter(Requested(pending, fired[..|fired| - 1], env), env.trigger(fired[|fired| - 1]).1)
  }

  lemma RequestedNext(pending: seq<Id>, fired: seq<Id>, env: Env, t: Id)
    ensures Requested(pending, fired + [t], env) == PendingAfter(Requested(pending, fired, env), env.trigger(t).1)
  {
    assert (fired + [t])[..|fired|] == fired;
  }

  /** Of the calls about x, the last asks for x. */
  ghost predicate AsksLast(calls: seq<Call>, x: Id) {
    exists i :: 0 <= i < |calls| && AsksAt(calls, x, i)
  }

  ghost predicate AsksAt(calls: seq<Call>, x: Id, i: nat)
    requires i < |calls|
  {
    calls[i] == Notify(x) && forall j :: i < j < |calls| ==> calls[j] != Unregister(x)
  }

  lemma AsksLastAppend(c: seq<Call>, d: seq<Call>, x: Id)
    ensures AsksLast(c + d, x) <==> AsksLast(d, x) || (AsksLast(c, x) && Unregister(x) !in d)
  {
    var all := c + d;
    if AsksLast(all, x) {
      var i :| 0 <= i < |all| && AsksAt(all, x, i);
      forall j | 0 <= j < |d| && i < |c| + j ensures d[j] != Unregister(x) {
        assert d[j] == all[|c| + j];
      }
      if i >= |c| {
        assert AsksAt(d, x, i - |c|);
      } else {
        forall j | i < j < |c| ensures c[j] != Unregister(x) {
          assert c[j] == all[j];
        }
        assert AsksAt(c, x, i);
      }
    }
    if i :| 0 <= i < |d| && AsksAt(d, x, i) {
      forall j | |c| + i < j < |all| ensures all[j] != Unregister(x) {
        assert all[j] == d[j - |c|];
      }
      assert AsksAt(all, x, |c| + i);
    }
    if AsksLast(c, x) && Unregister(x) !in d {
      var i :| 0 <= i < |c| && AsksAt(c, x, i);
      forall j | i < j < |all| ensures all[j] != Unregister(x) {
        if j < |c| { assert all[j] == c[j]; } else { assert all[j] in d; }
      }
      assert all[i] == c[i];
      assert AsksAt(all, x, i);
    }
  }

  lemma PendingStepMembers(pending: seq<Id>, c: Call, x: Id)
    requires Distinct(pending)
    ensures Distinct(PendingStep(pending, c))
    ensures x in PendingStep(pending, c) <==> c == Notify(x) || (x in pending && c != Unregister(x))
  {
    if c.Unregister? {
      WithoutMembers(pending, c.t, x);
      WithoutDistinct(pending, c.t);
    }
  }

  lemma HeadOrRest(calls: seq<Call>, c: Call)
    requires calls != []
    ensures c in calls <==> c == calls[0] || c in calls[1..]
  {
    assert calls == [calls[0]] + calls[1..];
  }

  lemma AsksOne(c: Call, x: Id)
    ensures AsksLast([c], x) <==> c == Notify(x)
  {
    if c == Notify(x) { assert AsksAt([c], x, 0); }
  }

  lemma AsksHead(calls: seq<Call>, x: Id)
    requires calls != []
    ensures AsksLast(calls, x) <==>
      AsksLast(calls[1..], x) || (calls[0] == Notify(x) && Unregister(x) !in calls[1..])
  {
    assert calls == [calls[0]] + calls[1..];
    AsksLastAppend([calls[0]], calls[1..], x);
    AsksOne(calls[0], x);
  }

  lemma {:induction false} PendingAfterMembers(pending: seq<Id>, calls: seq<Call>, x: Id)
    requires Distinct(pending)
    ensures Distinct(PendingAfter(pending, calls))
    ensures x in PendingAfter(pending, calls) <==> AsksLast(calls, x) || (x in pending && Unregister(x) !in calls)
    decreases |calls|
  {
    if calls == [] {
      assert !AsksLast(calls, x);
    } else {
      PendingStepMembers(pending, calls[0], x);
      HeadOrRest(calls, Unregister(x));
      AsksHead(calls, x);
      PendingAfterMembers(PendingStep(pending, calls[0]), calls[1..], x);
    }
  }

  /** All calls of the callbacks of the timers `fired`, in order. */
  function CallsOf(fired: seq<Id>, env: Env): seq<Call> {
    if fired == [] then [] else CallsOf(fired[..|fired| - 1], env) + env.trigger(fired[|fired| - 1]).1
  }

  /** No request made by a callback is lost, and none is made up: when the round is over, a timer is pending
      exactly if the last call about it asked for it. */
  lemma {:induction false} RequestsKept(fired: seq<Id>, env: Env, x: Id)
    ensures Distinct(Requested([], fired, env))
    ensures x in Requested([], fired, env) <==> AsksLast(CallsOf(fired, env), x)
  {
    if fired != [] {
      var init, calls := fired[..|fired| - 1], env.trigger(fired[|fired| - 1]).1;
      RequestsKept(init, env, x);
      PendingAfterMembers(Requested([], init, env), calls, x);
      AsksLastAppend(CallsOf(init, env), calls, x);
    }
  }

  predicate AsksFor(env: Env, f: Id, x: Id) { Notify(x) in env.trigger(f).1 }

  lemma {:induction false} CallsMembers(fired: seq<Id>, env: Env, c: Call)
    ensures c in CallsOf(fired, env) <==> exists f :: f in fired && c in env.trigger(f).1
  {
    if fired != [] {
      var init, last := fired[..|fired| - 1], fired[|fired| - 1];
      CallsMembers(init, env, c);
      assert forall f :: f in fired <==> f in init || f == last;
    }
  }

  /** When the callbacks that run unregister nothing, the pending timers are those one of them asked for. */
  lemma AllRequestsKept(fired: seq<Id>, env: Env, x: Id)
    requires forall f :: f in fired ==> OnlyNotify(env.trigger(f).1)
    ensures x in Requested([], fired, env) <==> exists f :: f in fired && AsksFor(env, f, x)
  {
    var calls := CallsOf(fired, env);
    RequestsKept(fired, env, x);
    CallsMembers(fired, env, Notify(x));
    CallsMembers(fired, env, Unregister(x));
    if exists f :: f in fired && AsksFor(env, f, x) {
      assert Notify(x) in calls;
      var i :| 0 <= i < |calls| && calls[i] == Notify(x);
      assert AsksAt(calls, x, i);
    }
    if i :| 0 <= i < |calls| && AsksAt(calls, x, i) {
      var f :| f in fired && Notify(x) in env.trigger(f).1;
      assert AsksFor(env, f, x);
    }
  }

  lemma FiredAreDue(
    active: seq<Id>, pending: seq<Id>, times: Times, env: Env, mid: seq<Id>, midTimes: Times, fired: seq<Id>, now: int)
    requires Updated(active, pending, times, env, mid, midTimes)
    requires Distinct(mid) && Sorted(mid, midTimes) && fired <= mid && AllDue(fired, midTimes, now)
    ensures FiresDue(active, pending, times, env, now, fired)
  {
    assert forall k :: 0 <= k < |fired| ==> fired[k] == mid[k];
  }

  lemma DueAreFired(
    active: seq<Id>, pending: seq<Id>, times: Times, env: Env, mid: seq<Id>, midTimes: Times, now: int)
    requires Updated(active, pending, times, env, mid, midTimes)
    requires Distinct(mid) && Sorted(mid, midTimes)
    ensures var fired := FiredFrom(mid, midTimes, env, now, 0);
      FiresAllDue(active, pending, times, env, now, fired) <==> NoCut(mid, midTimes, env, now)
    ensures NoUnregister(env) ==> NoCut(mid, midTimes, env, now)
  {
    AllDueFired(mid, midTimes, env, now);
    if NoUnregister(env) {
      forall t: Id ensures !Hits(mid, env.trigger(t).1) { NothingHit(mid, env, t); }
    }
  }

  lemma TimesAfter(
    active: seq<Id>, pending: seq<Id>, times: Times, env: Env, mid: seq<Id>, midTimes: Times, fired: seq<Id>)
    requires Updated(active, pending, times, env, mid, midTimes)
    ensures NewTimes(pending, times, env, fired, Triggered(midTimes, fired, env))
  {
    var after := Triggered(midTimes, fired, env);
    forall x ensures TimeOf(after, x) == if x in fired then env.trigger(x).0 else NowDue(times, pending, env, x) {
      TriggeredTime(midTimes, fired, env, x);
    }
  }

  lemma RemainingAfter(
    active: seq<Id>, pending: seq<Id>, times: Times, env: Env, mid: seq<Id>, midTimes: Times, fired: seq<Id>,
    last: seq<Id>, left: seq<Id>, now: int)
    requires Updated(active, pending, times, env, mid, midTimes) && Distinct(mid)
    requires last == AfterLast(mid, fired, env)
    requires fired == [] ==> left == last
    requires fired != [] ==>
      forall x :: x in left <==> x in last && TimeOf(Triggered(midTimes, fired, env), x) < now + HOURS_24
    ensures Remaining(active, pending, env, now, fired, Triggered(midTimes, fired, env), left)
  {
    var after := Triggered(midTimes, fired, env);
    forall x
      ensures x in left <==> NowActive(active, pending, env, x) && (fired != [] ==> Stays(env, fired, after, now, x))
    {
      if fired != [] { ActiveAfterMembers(mid, env.trigger(fired[|fired| - 1]).1, x); }
    }
  }

  lemma NothingHit(a: seq<Id>, env: Env, t: Id)
    requires NoUnregister(env)
    ensures !Hits(a, env.trigger(t).1)
  {
    assert OnlyNotify(env.trigger(t).1);
  }

  // ---------------------------------------------------------------- two rounds that surprise

  /** Timer 1 unregisters itself when it is triggered; nothing else happens. */
  const SELFISH: Env := Env(t => (0, false), t => (SECOND, if t == 1 then [Unregister(1)] else []))

  /** Both timers are due, but the second has to wait for another round. */
  lemma DueTimerCanWait()
    ensures FiredFrom([1, 2], map[1 := 0, 2 := 0], SELFISH, 0, 0) == [1]
    ensures !FiresAllDue([1, 2], [], map[1 := 0, 2 := 0], SELFISH, 0, [1])
    ensures !NoCut([1, 2], map[1 := 0, 2 := 0], SELFISH, 0)
  {
    var active, times: Times := [1, 2], map[1 := 0, 2 := 0];
    assert SELFISH.trigger(active[0]).1[0] == Unregister(1);
    assert Hits(active, SELFISH.trigger(active[0]).1);
    assert NowActive(active, [], SELFISH, 2) && NowDue(times, [], SELFISH, 2) <= 0;
    assert TimeOf(times, active[0 + 1]) <= 0;
  }

  /** No callback does anything. */
  const QUIET: Env := Env(t => (0, false), t => (SECOND, []))

  /** Timer 1 is due, timer 2 in exactly 24 hours. Nobody cancels timer 2, yet it is active no more. */
  lemma FarTimerIsDropped(left: seq<Id>, after: Times)
    requires NewTimes([], map[1 := 0, 2 := HOURS_24], QUIET, [1], after)
    requires Remaining([1, 2], [], QUIET, 0, [1], after, left)
    ensures FiredFrom([1, 2], map[1 := 0, 2 := HOURS_24], QUIET, 0, 0) == [1]
    ensures NoUnregister(QUIET) && NowActive([1, 2], [], QUIET, 2) && 2 !in left && 1 in left
  {
    var active, times: Times := [1, 2], map[1 := 0, 2 := HOURS_24];
    assert !Hits(active, QUIET.trigger(active[0]).1);
    assert FiredFrom(active, times, QUIET, 0, 1) == [];
    assert TimeOf(after, 2) == HOURS_24 && TimeOf(after, 1) == SECOND;
    assert 1 in active && NowActive(active, [], QUIET, 1);
  }
}
