/** Software interrupts of one CPU: the pending word, __do_softirq() with its restarts, and the deferral
    of NET_RX to ksoftirqd that ksoftirqd_test switches on. */
module Softirq {
  import opened Sequences

  const NR_SOFTIRQS: nat := 10
  const NET_RX: Vector := 3
  const MAX_RESTART: nat := 10

  type Vector = v: nat | v < 10

  // ---------------------------------------------------------------- the pending word

  predicate Bit(word: nat, i: nat) {
    if i == 0 then word % 2 == 1 else Bit(word / 2, i - 1)
  }

  /** word | 1 << i */
  function Or(word: nat, i: nat): nat {
    if i == 0 then (if word % 2 == 1 then word else word + 1) else 2 * Or(word / 2, i - 1) + word % 2
  }

  /** word ^ 1 << i */
  function Xor(word: nat, i: nat): nat {
    if i == 0 then (if word % 2 == 1 then word - 1 else word + 1) else 2 * Xor(word / 2, i - 1) + word % 2
  }

  /** word >> k */
  function Shr(word: nat, k: nat): nat {
    if k == 0 then word else Shr(word / 2, k - 1)
  }

  /** ffs(): one plus the index of the lowest bit set, 0 if there is none. */
  function Ffs(word: nat): nat {
    if word == 0 then 0 else if word % 2 == 1 then 1 else 1 + Ffs(word / 2)
  }

  lemma {:induction false} OrBit(word: nat, i: nat, j: nat)
    ensures Bit(Or(word, i), j) <==> i == j || Bit(word, j)
  {
    if i > 0 {
      assert Or(word, i) / 2 == Or(word / 2, i - 1) && Or(word, i) % 2 == word % 2;
      if j > 0 { OrBit(word / 2, i - 1, j - 1); }
    } else {
      assert Or(word, i) / 2 == word / 2;
    }
  }

  lemma {:induction false} XorBit(word: nat, i: nat, j: nat)
    ensures Bit(Xor(word, i), j) <==> if i == j then !Bit(word, j) else Bit(word, j)
  {
    if i > 0 {
      assert Xor(word, i) / 2 == Xor(word / 2, i - 1) && Xor(word, i) % 2 == word % 2;
      if j > 0 { XorBit(word / 2, i - 1, j - 1); }
    } else {
      assert Xor(word, i) / 2 == word / 2;
    }
  }

  lemma {:induction false} ShrBit(word: nat, k: nat, j: nat)
    ensures Bit(Shr(word, k), j) <==> Bit(word, k + j)
  {
    if k > 0 { ShrBit(word / 2, k - 1, j); }
  }

  lemma {:induction false} FfsBit(word: nat)
    requires word != 0
    ensures Ffs(word) > 0 && Bit(word, Ffs(word) - 1)
    ensures forall j :: 0 <= j < Ffs(word) - 1 ==> !Bit(word, j)
    ensures Shr(word, Ffs(word)) < word
  {
    if word % 2 == 0 {
      FfsBit(word / 2);
      forall j | 0 <= j < Ffs(word) - 1 ensures !Bit(word, j) {
        if j > 0 { assert !Bit(word / 2, j - 1); }
      }
    }
  }

  lemma {:induction false} ZeroBit(j: nat)
    ensures !Bit(0, j)
  {
    if j > 0 { ZeroBit(j - 1); }
  }

  /** Only the vectors there are have bits. */
  ghost predicate IsWord(word: nat) { forall j :: NR_SOFTIRQS <= j ==> !Bit(word, j) }

  // ---------------------------------------------------------------- history and surroundings

  /** A vector was raised; its handler was started; a pass over the vectors began, at a time and
      with a word. */
  datatype Event = Raise(v: Vector) | Start(v: Vector) | Pass(at: nat, word: nat)

  /** The word, whether ksoftirqd was woken, the time, and what has happened so far. */
  datatype State = State(word: nat, woken: bool, now: nat, log: seq<Event>)

  /** What the machine does around __do_softirq(): the vectors raised, by handlers or interrupts, while
      interrupts are on at a given time; whether the time is up; whether another task has to run. */
  datatype Env = Env(raised: nat -> seq<Vector>, late: nat -> bool, needResched: nat -> bool)

  /** __raise_softirq_irqoff() */
  function RaiseOne(s: State, v: Vector): State {
    s.(word := Or(s.word, v), log := s.log + [Raise(v)])
  }

  function RaiseAll(s: State, vs: seq<Vector>): State
    decreases |vs|
  {
    if vs == [] then s else RaiseAll(RaiseOne(s, vs[0]), vs[1..])
  }

  /** Interrupts are on for a while. */
  function Interrupted(env: Env, s: State): State {
    RaiseAll(s, env.raised(s.now)).(now := s.now + 1)
  }

  function Handle(env: Env, s: State, v: Vector): State {
    Interrupted(env, s.(log := s.log + [Start(v)]))
  }

  /** The loop over the vectors: `mask` is what is left of the snapshot, shifted by h. */
  function HandleFrom(env: Env, s: State, mask: nat, h: nat): State
    decreases mask
  {
    if mask == 0 || h + Ffs(mask) > NR_SOFTIRQS then s
    else
      FfsBit(mask);
      var v := h + Ffs(mask) - 1;
      HandleFrom(env, Handle(env, s, v), Shr(mask, Ffs(mask)), v + 1)
  }

  /** NET_RX is put off to ksoftirqd. */
  predicate Deferred(s: State, test: int, inKsoftirqd: bool) {
    test == 1 && !inKsoftirqd && Bit(s.word, NET_RX)
  }

  function Mask(s: State, test: int, inKsoftirqd: bool): nat {
    if Deferred(s, test, inKsoftirqd) then Xor(s.word, NET_RX) else s.word
  }

  /** A pass begins: the word is cleared, but for a NET_RX that is put off. */
  function Begin(s: State, test: int, inKsoftirqd: bool): State {
    s.(word := if Deferred(s, test, inKsoftirqd) then Or(0, NET_RX) else 0, log := s.log + [Pass(s.now, s.word)])
  }

  function FirstPass(env: Env, s: State, test: int, inKsoftirqd: bool): State {
    HandleFrom(env, Interrupted(env, Begin(s, test, inKsoftirqd)), Mask(s, test, inKsoftirqd), 0)
  }

  /** __do_softirq() with `left` passes to go. */
  function DoSoftirq(env: Env, s: State, test: int, inKsoftirqd: bool, left: nat): State
    requires left > 0
    decreases left
  {
    var t := FirstPass(env, s, test, inKsoftirqd);
    if Deferred(s, test, inKsoftirqd) then t.(woken := true)
    else if t.word == 0 then t
    else if !env.late(t.now) && !env.needResched(t.now) && left > 1 then DoSoftirq(env, t, test, inKsoftirqd, left - 1)
    else t.(woken := true)
  }

  /** run_ksoftirqd(): that it runs uses up the wakeup. */
  function RunKsoftirqd(env: Env, s: State, test: int): State {
    var t := s.(woken := false);
    if s.word != 0 then DoSoftirq(env, t, test, true, MAX_RESTART) else t
  }

  // ---------------------------------------------------------------- nothing is lost

  /** Vector v was raised and its handler has not been started since. */
  predicate Waiting(log: seq<Event>, v: Vector) {
    log != [] &&
    var e := log[|log| - 1];
    e == Raise(v) || (e != Start(v) && Waiting(log[..|log| - 1], v))
  }

  lemma WaitingNext(log: seq<Event>, e: Event, v: Vector)
    ensures Waiting(log + [e], v) <==> e == Raise(v) || (e != Start(v) && Waiting(log, v))
  {
    assert (log + [e])[..|log|] == log;
  }

  function Count(log: seq<Event>, e: Event): nat {
    if log == [] then 0 else Count(log[..|log| - 1], e) + if log[|log| - 1] == e then 1 else 0
  }

  lemma CountNext(log: seq<Event>, x: Event, e: Event)
    ensures Count(log + [x], e) == Count(log, e) + if x == e then 1 else 0
  {
    assert (log + [x])[..|log|] == log;
  }

  function One(b: bool): nat { if b then 1 else 0 }

  predicate InMask(mask: nat, h: nat, v: nat) { v >= h && Bit(mask, v - h) }

  /** A waiting vector is in the word, or in what is left of the snapshot; and every start used up a
      raise of its own. */
  ghost predicate Accounted(s: State, mask: nat, h: nat, v: Vector) {
    && (Waiting(s.log, v) ==> Bit(s.word, v) || InMask(mask, h, v))
    && Count(s.log, Start(v)) + One(Bit(s.word, v)) + One(InMask(mask, h, v)) <= Count(s.log, Raise(v))
  }

  ghost predicate Tracks(s: State, mask: nat, h: nat) {
    IsWord(s.word) && forall v: Vector :: Accounted(s, mask, h, v)
  }

  lemma RaiseTracks(s: State, v: Vector, mask: nat, h: nat)
    requires Tracks(s, mask, h)
    ensures Tracks(RaiseOne(s, v), mask, h)
  {
    forall w: Vector ensures Accounted(RaiseOne(s, v), mask, h, w) {
      assert Accounted(s, mask, h, w);
      WaitingNext(s.log, Raise(v), w);
      CountNext(s.log, Raise(v), Raise(w));
      CountNext(s.log, Raise(v), Start(w));
      OrBit(s.word, v, w);
    }
    forall j | NR_SOFTIRQS <= j ensures !Bit(Or(s.word, v), j) {
      OrBit(s.word, v, j);
    }
  }

  lemma {:induction false} RaiseAllTracks(s: State, vs: seq<Vector>, mask: nat, h: nat)
    requires Tracks(s, mask, h)
    ensures Tracks(RaiseAll(s, vs), mask, h)
    decreases |vs|
  {
    if vs != [] {
      RaiseTracks(s, vs[0], mask, h);
      RaiseAllTracks(RaiseOne(s, vs[0]), vs[1..], mask, h);
    }
  }

  lemma InterruptedTracks(env: Env, s: State, mask: nat, h: nat)
    requires Tracks(s, mask, h)
    ensures Tracks(Interrupted(env, s), mask, h)
  {
    var t, u := RaiseAll(s, env.raised(s.now)), Interrupted(env, s);
    RaiseAllTracks(s, env.raised(s.now), mask, h);
    forall v: Vector ensures Accounted(u, mask, h, v) {
      assert Accounted(t, mask, h, v);
    }
  }

  lemma StartAccounted(s: State, mask: nat, h: nat, v: Vector, b: nat, w: Vector)
    requires Accounted(s, mask, h, w) && mask != 0 && b == Ffs(mask) && v + 1 == h + b
    ensures Accounted(s.(log := s.log + [Start(v)]), Shr(mask, b), v + 1, w)
  {
    FfsBit(mask);
    WaitingNext(s.log, Start(v), w);
    CountNext(s.log, Start(v), Raise(w));
    CountNext(s.log, Start(v), Start(w));
    if w > v { ShrBit(mask, b, w - (v + 1)); }
  }

  /** Starting the handler of the lowest bit takes it out of the mask. */
  lemma StartTracks(s: State, mask: nat, h: nat, v: Vector)
    requires Tracks(s, mask, h) && mask != 0 && v + 1 == h + Ffs(mask)
    ensures Tracks(s.(log := s.log + [Start(v)]), Shr(mask, Ffs(mask)), v + 1)
  {
    var t, b, next := s.(log := s.log + [Start(v)]), Ffs(mask), v + 1;
    var rest := Shr(mask, b);
    forall w: Vector ensures Accounted(t, rest, next, w) { StartAccounted(s, mask, h, v, b, w); }
  }

  /** The bits of a snapshot are those of vectors. */
  ghost predicate Fits(mask: nat, h: nat) { forall j :: 0 <= j && h + j >= NR_SOFTIRQS ==> !Bit(mask, j) }

  lemma FitsNext(mask: nat, h: nat)
    requires Fits(mask, h) && mask != 0
    ensures 0 < Ffs(mask) && h + Ffs(mask) <= NR_SOFTIRQS && Fits(Shr(mask, Ffs(mask)), h + Ffs(mask))
  {
    FfsBit(mask);
    forall j | 0 <= j && h + Ffs(mask) + j >= NR_SOFTIRQS ensures !Bit(Shr(mask, Ffs(mask)), j) {
      ShrBit(mask, Ffs(mask), j);
    }
  }

  lemma {:induction false} HandleTracks(env: Env, s: State, mask: nat, h: nat)
    requires Tracks(s, mask, h) && Fits(mask, h)
    ensures Tracks(HandleFrom(env, s, mask, h), 0, 0)
    decreases mask
  {
    if mask == 0 {
      forall v: Vector ensures Accounted(s, 0, 0, v) {
        assert Accounted(s, 0, h, v);
        ZeroBit(v);
        if v >= h { ZeroBit(v - h); }
      }
    } else {
      FitsNext(mask, h);
      FfsBit(mask);
      var v := h + Ffs(mask) - 1;
      StartTracks(s, mask, h, v);
      InterruptedTracks(env, s.(log := s.log + [Start(v)]), Shr(mask, Ffs(mask)), v + 1);
      HandleTracks(env, Handle(env, s, v), Shr(mask, Ffs(mask)), v + 1);
    }
  }

  /** Taking the snapshot moves the word's bits into the mask, but for a deferred NET_RX. */
  lemma SnapshotTracks(s: State, test: int, inKsoftirqd: bool)
    requires Tracks(s, 0, 0)
    ensures Tracks(Begin(s, test, inKsoftirqd), Mask(s, test, inKsoftirqd), 0)
    ensures Fits(Mask(s, test, inKsoftirqd), 0)
  {
    var d, mask := Deferred(s, test, inKsoftirqd), Mask(s, test, inKsoftirqd);
    var t := Begin(s, test, inKsoftirqd);
    forall j: nat ensures Bit(t.word, j) <==> d && j == NET_RX {
      ZeroBit(j);
      OrBit(0, NET_RX, j);
    }
    forall j: nat ensures Bit(mask, j) <==> Bit(s.word, j) && !(d && j == NET_RX) {
      XorBit(s.word, NET_RX, j);
    }
    forall v: Vector ensures Accounted(t, mask, 0, v) {
      assert Accounted(s, 0, 0, v);
      ZeroBit(v);
      WaitingNext(s.log, Pass(s.now, s.word), v);
      CountNext(s.log, Pass(s.now, s.word), Raise(v));
      CountNext(s.log, Pass(s.now, s.word), Start(v));
    }
  }

  lemma FirstPassTracks(env: Env, s: State, test: int, inKsoftirqd: bool)
    requires Tracks(s, 0, 0)
    ensures Tracks(FirstPass(env, s, test, inKsoftirqd), 0, 0)
  {
    SnapshotTracks(s, test, inKsoftirqd);
    var t, mask := Begin(s, test, inKsoftirqd), Mask(s, test, inKsoftirqd);
    InterruptedTracks(env, t, mask, 0);
    HandleTracks(env, Interrupted(env, t), mask, 0);
  }

  /** No softirq is lost and none runs that was not raised, whatever is raised when. */
  lemma {:induction false} NothingLost(env: Env, s: State, test: int, inKsoftirqd: bool, left: nat)
    requires Tracks(s, 0, 0) && left > 0
    ensures Tracks(DoSoftirq(env, s, test, inKsoftirqd, left), 0, 0)
    decreases left
  {
    FirstPassTracks(env, s, test, inKsoftirqd);
    var t := FirstPass(env, s, test, inKsoftirqd);
    var u := t.(woken := true);
    forall v: Vector ensures Accounted(u, 0, 0, v) {
      assert Accounted(t, 0, 0, v);
    }
    if !Deferred(s, test, inKsoftirqd) && t.word != 0 && left > 1 {
      NothingLost(env, t, test, inKsoftirqd, left - 1);
    }
  }

  /** Whatever waits when __do_softirq() returns is left to ksoftirqd, which has been woken. */
  lemma {:induction false} WaitingMeansWoken(env: Env, s: State, test: int, inKsoftirqd: bool, left: nat, v: Vector)
    requires Tracks(s, 0, 0) && left > 0
    ensures var t := DoSoftirq(env, s, test, inKsoftirqd, left);
      (t.word != 0 ==> t.woken) && (Waiting(t.log, v) ==> Bit(t.word, v) && t.woken)
    decreases left
  {
    FirstPassTracks(env, s, test, inKsoftirqd);
    NothingLost(env, s, test, inKsoftirqd, left);
    var r := DoSoftirq(env, s, test, inKsoftirqd, left);
    assert Accounted(r, 0, 0, v);
    ZeroBit(v);
    var t := FirstPass(env, s, test, inKsoftirqd);
    if !Deferred(s, test, inKsoftirqd) && t.word != 0 && left > 1 {
      WaitingMeansWoken(env, t, test, inKsoftirqd, left - 1, v);
    }
  }

  // ---------------------------------------------------------------- what a pass runs

  /** The vectors whose handlers were started, in order. */
  function Starts(log: seq<Event>): seq<nat> {
    if log == [] then []
    else Starts(log[..|log| - 1]) + if log[|log| - 1].Start? then [log[|log| - 1].v] else []
  }

  lemma StartsNext(log: seq<Event>, e: Event)
    ensures Starts(log + [e]) == Starts(log) + if e.Start? then [e.v] else []
  {
    assert (log + [e])[..|log|] == log;
  }

  /** The passes that began, in order. */
  function Passes(log: seq<Event>): seq<Event> {
    if log == [] then []
    else Passes(log[..|log| - 1]) + if log[|log| - 1].Pass? then [log[|log| - 1]] else []
  }

  lemma PassesNext(log: seq<Event>, e: Event)
    ensures Passes(log + [e]) == Passes(log) + if e.Pass? then [e] else []
  {
    assert (log + [e])[..|log|] == log;
  }

  /** The vectors of a snapshot that is shifted by h, lowest first. */
  function Vectors(mask: nat, h: nat): seq<nat>
    decreases mask
  {
    if mask == 0 then []
    else
      FfsBit(mask);
      [h + Ffs(mask) - 1] + Vectors(Shr(mask, Ffs(mask)), h + Ffs(mask))
  }

  lemma MaskStep(mask: nat, h: nat, v: nat, b: nat)
    requires mask != 0 && b == Ffs(mask)
    ensures b > 0 && Shr(mask, b) < mask
    ensures InMask(mask, h, v) <==> v + 1 == h + b || InMask(Shr(mask, b), h + b, v)
  {
    FfsBit(mask);
    if v >= h + b { ShrBit(mask, b, v - (h + b)); }
  }

  /** They are exactly the bits that are set, each once, in ascending order. */
  lemma {:induction false} VectorsExactly(mask: nat, h: nat, v: nat)
    ensures v in Vectors(mask, h) <==> InMask(mask, h, v)
    decreases mask
  {
    if mask == 0 {
      if v >= h { ZeroBit(v - h); }
    } else {
      var b, rest := Ffs(mask), Shr(mask, Ffs(mask));
      MaskStep(mask, h, v, b);
      VectorsExactly(rest, h + b, v);
      assert Vectors(mask, h) == [h + b - 1] + Vectors(rest, h + b);
    }
  }

  lemma {:induction false} VectorsAscend(mask: nat, h: nat)
    ensures Ascending(Vectors(mask, h)) && forall i :: 0 <= i < |Vectors(mask, h)| ==> Vectors(mask, h)[i] >= h
    decreases mask
  {
    if mask != 0 {
      FfsBit(mask);
      VectorsAscend(Shr(mask, Ffs(mask)), h + Ffs(mask));
    }
  }

  lemma {:induction false} RaiseAllStartsNothing(s: State, vs: seq<Vector>)
    ensures Starts(RaiseAll(s, vs).log) == Starts(s.log)
    ensures Passes(RaiseAll(s, vs).log) == Passes(s.log)
    decreases |vs|
  {
    if vs != [] {
      StartsNext(s.log, Raise(vs[0]));
      PassesNext(s.log, Raise(vs[0]));
      RaiseAllStartsNothing(RaiseOne(s, vs[0]), vs[1..]);
    }
  }

  lemma HandleStep(env: Env, s: State, mask: nat, h: nat, v: Vector, rest: nat)
    requires mask != 0 && v + 1 == h + Ffs(mask) && rest == Shr(mask, Ffs(mask))
    ensures rest < mask
    ensures HandleFrom(env, s, mask, h) == HandleFrom(env, Handle(env, s, v), rest, v + 1)
    ensures Vectors(mask, h) == [v] + Vectors(rest, v + 1)
  {
    FfsBit(mask);
  }

  lemma {:induction false} HandlesInOrder(env: Env, s: State, mask: nat, h: nat)
    requires Fits(mask, h)
    ensures Starts(HandleFrom(env, s, mask, h).log) == Starts(s.log) + Vectors(mask, h)
    ensures Passes(HandleFrom(env, s, mask, h).log) == Passes(s.log)
    decreases mask
  {
    if mask == 0 {
      assert Vectors(mask, h) == [];
    } else {
      FitsNext(mask, h);
      var v: Vector, rest := h + Ffs(mask) - 1, Shr(mask, Ffs(mask));
      HandleStep(env, s, mask, h, v, rest);
      HandleStarts(env, s, v);
      var t := Handle(env, s, v);
      HandlesInOrder(env, t, rest, v + 1);
      Concatenated(Starts(s.log), [v], Vectors(rest, v + 1));
    }
  }

  lemma Concatenated(x: seq<nat>, y: seq<nat>, z: seq<nat>)
    ensures x + y + z == x + (y + z)
  {}

  lemma HandleStarts(env: Env, s: State, v: Vector)
    ensures Starts(Handle(env, s, v).log) == Starts(s.log) + [v]
    ensures Passes(Handle(env, s, v).log) == Passes(s.log)
  {
    var t := s.(log := s.log + [Start(v)]);
    StartsNext(s.log, Start(v));
    PassesNext(s.log, Start(v));
    RaiseAllStartsNothing(t, env.raised(t.now));
  }

  /** Each pass starts exactly the handlers of its snapshot, once each, in ascending order, whatever
      is raised meanwhile. */
  lemma PassRunsSnapshot(env: Env, s: State, test: int, inKsoftirqd: bool)
    requires IsWord(s.word)
    ensures var t := FirstPass(env, s, test, inKsoftirqd);
      && Starts(t.log) == Starts(s.log) + Vectors(Mask(s, test, inKsoftirqd), 0)
      && Passes(t.log) == Passes(s.log) + [Pass(s.now, s.word)]
  {
    var t := Begin(s, test, inKsoftirqd);
    MaskFits(s, test, inKsoftirqd);
    StartsNext(s.log, Pass(s.now, s.word));
    PassesNext(s.log, Pass(s.now, s.word));
    RaiseAllStartsNothing(t, env.raised(t.now));
    HandlesInOrder(env, Interrupted(env, t), Mask(s, test, inKsoftirqd), 0);
  }

  lemma MaskFits(s: State, test: int, inKsoftirqd: bool)
    requires IsWord(s.word)
    ensures Fits(Mask(s, test, inKsoftirqd), 0)
  {
    forall j | 0 <= j && j >= NR_SOFTIRQS ensures !Bit(Mask(s, test, inKsoftirqd), j) {
      XorBit(s.word, NET_RX, j);
    }
  }

  // ---------------------------------------------------------------- restarts and NET_RX

  lemma FirstPassIsWord(env: Env, s: State, test: int, inKsoftirqd: bool)
    requires IsWord(s.word)
    ensures IsWord(FirstPass(env, s, test, inKsoftirqd).word)
  {
    var t := Begin(s, test, inKsoftirqd);
    forall j | NR_SOFTIRQS <= j ensures !Bit(t.word, j) {
      ZeroBit(j);
      OrBit(0, NET_RX, j);
    }
    InterruptedIsWord(env, t);
    HandleIsWord(env, Interrupted(env, t), Mask(s, test, inKsoftirqd), 0);
  }

  lemma {:induction false} RaiseAllIsWord(s: State, vs: seq<Vector>)
    requires IsWord(s.word)
    ensures IsWord(RaiseAll(s, vs).word)
    decreases |vs|
  {
    if vs != [] {
      forall j | NR_SOFTIRQS <= j ensures !Bit(Or(s.word, vs[0]), j) {
        OrBit(s.word, vs[0], j);
      }
      RaiseAllIsWord(RaiseOne(s, vs[0]), vs[1..]);
    }
  }

  lemma InterruptedIsWord(env: Env, s: State)
    requires IsWord(s.word)
    ensures IsWord(Interrupted(env, s).word)
  {
    RaiseAllIsWord(s, env.raised(s.now));
  }

  lemma {:induction false} HandleIsWord(env: Env, s: State, mask: nat, h: nat)
    requires IsWord(s.word)
    ensures IsWord(HandleFrom(env, s, mask, h).word)
    decreases mask
  {
    if mask != 0 && h + Ffs(mask) <= NR_SOFTIRQS {
      FfsBit(mask);
      var v: Vector := h + Ffs(mask) - 1;
      InterruptedIsWord(env, s.(log := s.log + [Start(v)]));
      HandleIsWord(env, Handle(env, s, v), Shr(mask, Ffs(mask)), v + 1);
    }
  }

  /** One call makes at least one and at most `left` passes; a deferral ends it after the pass at
      hand, even if other vectors were raised meanwhile. */
  lemma {:induction false} PassesBounded(env: Env, s: State, test: int, inKsoftirqd: bool, left: nat)
    requires IsWord(s.word) && left > 0
    ensures var n := |Passes(DoSoftirq(env, s, test, inKsoftirqd, left).log)| - |Passes(s.log)|;
      1 <= n <= left && (Deferred(s, test, inKsoftirqd) ==> n == 1)
    decreases left
  {
    PassRunsSnapshot(env, s, test, inKsoftirqd);
    FirstPassIsWord(env, s, test, inKsoftirqd);
    var t := FirstPass(env, s, test, inKsoftirqd);
    if !Deferred(s, test, inKsoftirqd) && t.word != 0 && left > 1 {
      PassesBounded(env, t, test, inKsoftirqd, left - 1);
    }
  }

  /** Starts are never taken back. */
  lemma {:induction false} StartsGrow(env: Env, s: State, test: int, inKsoftirqd: bool, left: nat)
    requires IsWord(s.word) && left > 0
    ensures Starts(FirstPass(env, s, test, inKsoftirqd).log) <= Starts(DoSoftirq(env, s, test, inKsoftirqd, left).log)
    decreases left
  {
    FirstPassIsWord(env, s, test, inKsoftirqd);
    var t := FirstPass(env, s, test, inKsoftirqd);
    if !Deferred(s, test, inKsoftirqd) && t.word != 0 && left > 1 {
      PassRunsSnapshot(env, t, test, inKsoftirqd);
      StartsGrow(env, t, test, inKsoftirqd, left - 1);
    }
  }

  /** A call leaves vectors pending only if NET_RX may be deferred, the time is up, another task has to
      run, or all its passes are used up. */
  lemma {:induction false} LeavesWorkOnlyFor(env: Env, s: State, test: int, inKsoftirqd: bool, left: nat)
    requires IsWord(s.word) && left > 0 && DoSoftirq(env, s, test, inKsoftirqd, left).word != 0
    ensures var t := DoSoftirq(env, s, test, inKsoftirqd, left);
      || (test == 1 && !inKsoftirqd && Bit(t.word, NET_RX))
      || env.late(t.now) || env.needResched(t.now)
      || |Passes(t.log)| == |Passes(s.log)| + left
    decreases left
  {
    PassRunsSnapshot(env, s, test, inKsoftirqd);
    FirstPassIsWord(env, s, test, inKsoftirqd);
    var t := FirstPass(env, s, test, inKsoftirqd);
    if Deferred(s, test, inKsoftirqd) {
      DeferredStays(env, s, test, inKsoftirqd);
    } else if !env.late(t.now) && !env.needResched(t.now) && left > 1 {
      LeavesWorkOnlyFor(env, t, test, inKsoftirqd, left - 1);
    }
  }

  /** At the moment a pass began there was something to do, the time was not up and no other task had to run. */
  predicate MayGoOn(env: Env, p: Event) { p.Pass? && p.word != 0 && !env.late(p.at) && !env.needResched(p.at) }

  /** From s to t one pass began at once, and others only when there was something to do, the time was not up
      and no other task had to run. */
  ghost predicate GoesOnOnlyWhen(env: Env, s: State, t: State) {
    var before, after := Passes(s.log), Passes(t.log);
    before + [Pass(s.now, s.word)] <= after && forall i :: |before| < i < |after| ==> MayGoOn(env, after[i])
  }

  lemma {:induction false} FurtherPasses(env: Env, s: State, test: int, inKsoftirqd: bool, left: nat)
    requires IsWord(s.word) && left > 0
    ensures GoesOnOnlyWhen(env, s, DoSoftirq(env, s, test, inKsoftirqd, left))
    decreases left
  {
    PassRunsSnapshot(env, s, test, inKsoftirqd);
    FirstPassIsWord(env, s, test, inKsoftirqd);
    var t := FirstPass(env, s, test, inKsoftirqd);
    if !Deferred(s, test, inKsoftirqd) && t.word != 0 && !env.late(t.now) && !env.needResched(t.now) && left > 1 {
      FurtherPasses(env, t, test, inKsoftirqd, left - 1);
    }
  }

  /** The end of the time slice or a task that has to run limits a call to one pass. */
  lemma OnePassWhenDue(env: Env, s: State, test: int, inKsoftirqd: bool, left: nat)
    requires IsWord(s.word) && left > 0
    requires forall now :: 0 <= now ==> env.late(now) || env.needResched(now)
    ensures Passes(DoSoftirq(env, s, test, inKsoftirqd, left).log) == Passes(s.log) + [Pass(s.now, s.word)]
  {
    FurtherPasses(env, s, test, inKsoftirqd, left);
    var n, after := |Passes(s.log)| + 1, Passes(DoSoftirq(env, s, test, inKsoftirqd, left).log);
    assert |after| == n || MayGoOn(env, after[n]);
  }

  lemma {:induction false} RaiseAllKeepsBit(s: State, vs: seq<Vector>, v: Vector)
    requires Bit(s.word, v)
    ensures Bit(RaiseAll(s, vs).word, v)
    decreases |vs|
  {
    if vs != [] {
      OrBit(s.word, vs[0], v);
      RaiseAllKeepsBit(RaiseOne(s, vs[0]), vs[1..], v);
    }
  }

  lemma InterruptedKeepsBit(env: Env, s: State, v: Vector)
    requires Bit(s.word, v)
    ensures Bit(Interrupted(env, s).word, v)
  {
    RaiseAllKeepsBit(s, env.raised(s.now), v);
  }

  /** A bit of the word stays set while a snapshot is handled. */
  lemma {:induction false} HandlingKeepsBit(env: Env, s: State, mask: nat, h: nat, v: Vector)
    requires Bit(s.word, v)
    ensures Bit(HandleFrom(env, s, mask, h).word, v)
    decreases mask
  {
    if mask != 0 && h + Ffs(mask) <= NR_SOFTIRQS {
      FfsBit(mask);
      var w: Vector := h + Ffs(mask) - 1;
      InterruptedKeepsBit(env, s.(log := s.log + [Start(w)]), v);
      HandlingKeepsBit(env, Handle(env, s, w), Shr(mask, Ffs(mask)), w + 1, v);
    }
  }

  lemma {:induction false} RaiseAllKeepsWoken(s: State, vs: seq<Vector>)
    ensures RaiseAll(s, vs).woken == s.woken
    decreases |vs|
  {
    if vs != [] { RaiseAllKeepsWoken(RaiseOne(s, vs[0]), vs[1..]); }
  }

  lemma {:induction false} HandlingKeepsWoken(env: Env, s: State, mask: nat, h: nat)
    ensures HandleFrom(env, s, mask, h).woken == s.woken
    decreases mask
  {
    if mask != 0 && h + Ffs(mask) <= NR_SOFTIRQS {
      FfsBit(mask);
      var v: Vector := h + Ffs(mask) - 1;
      var t := s.(log := s.log + [Start(v)]);
      RaiseAllKeepsWoken(t, env.raised(t.now));
      HandlingKeepsWoken(env, Handle(env, s, v), Shr(mask, Ffs(mask)), v + 1);
    }
  }

  lemma FirstPassKeepsWoken(env: Env, s: State, test: int, inKsoftirqd: bool)
    ensures FirstPass(env, s, test, inKsoftirqd).woken == s.woken
  {
    var t := Begin(s, test, inKsoftirqd);
    RaiseAllKeepsWoken(t, env.raised(t.now));
    HandlingKeepsWoken(env, Interrupted(env, t), Mask(s, test, inKsoftirqd), 0);
  }

  /** A deferred NET_RX is still in the word after the pass. */
  lemma DeferredStays(env: Env, s: State, test: int, inKsoftirqd: bool)
    requires Deferred(s, test, inKsoftirqd)
    ensures Bit(FirstPass(env, s, test, inKsoftirqd).word, NET_RX)
  {
    var w := Begin(s, test, inKsoftirqd);
    OrBit(0, NET_RX, NET_RX);
    InterruptedKeepsBit(env, w, NET_RX);
    HandlingKeepsBit(env, Interrupted(env, w), Mask(s, test, inKsoftirqd), 0, NET_RX);
  }

  /** A call wakes ksoftirqd exactly if it leaves vectors pending. */
  lemma {:induction false} WakesExactlyForWork(env: Env, s: State, test: int, inKsoftirqd: bool, left: nat)
    requires IsWord(s.word) && left > 0
    ensures var t := DoSoftirq(env, s, test, inKsoftirqd, left); t.woken <==> s.woken || t.word != 0
    decreases left
  {
    FirstPassKeepsWoken(env, s, test, inKsoftirqd);
    FirstPassIsWord(env, s, test, inKsoftirqd);
    var t := FirstPass(env, s, test, inKsoftirqd);
    if Deferred(s, test, inKsoftirqd) {
      DeferredStays(env, s, test, inKsoftirqd);
      ZeroBit(NET_RX);
    } else if t.word != 0 && !env.late(t.now) && !env.needResched(t.now) && left > 1 {
      WakesExactlyForWork(env, t, test, inKsoftirqd, left - 1);
    }
  }

  /** A run of ksoftirqd starts every vector that was pending, NET_RX among them, in ascending order before
      anything else; it has been woken again exactly if vectors are left, and all that waits is among them. */
  lemma KsoftirqdServes(env: Env, s: State, test: int)
    requires Tracks(s, 0, 0)
    ensures var t := RunKsoftirqd(env, s, test);
      && Tracks(t, 0, 0)
      && Starts(s.log) + Vectors(s.word, 0) <= Starts(t.log)
      && (t.woken <==> t.word != 0)
      && forall v: Vector :: Waiting(t.log, v) ==> Bit(t.word, v) && t.woken
  {
    var u, t := s.(woken := false), RunKsoftirqd(env, s, test);
    WakeupUsedUp(s);
    if s.word != 0 {
      PassRunsSnapshot(env, u, test, true);
      StartsGrow(env, u, test, true, MAX_RESTART);
      NothingLost(env, u, test, true, MAX_RESTART);
      WakesExactlyForWork(env, u, test, true, MAX_RESTART);
    }
    forall v: Vector | Waiting(t.log, v) ensures Bit(t.word, v) && t.word != 0 {
      assert Accounted(t, 0, 0, v);
      ZeroBit(v);
    }
  }

  /** With the deferral switched on, NET_RX is handled by ksoftirqd and by nobody else. */
  lemma {:induction false} NetRxOnlyInKsoftirqd(env: Env, s: State, left: nat) returns (more: seq<nat>)
    requires IsWord(s.word) && left > 0
    ensures Starts(DoSoftirq(env, s, 1, false, left).log) == Starts(s.log) + more && NET_RX !in more
    decreases left
  {
    PassRunsSnapshot(env, s, 1, false);
    FirstPassIsWord(env, s, 1, false);
    var t := FirstPass(env, s, 1, false);
    more := Vectors(Mask(s, 1, false), 0);
    VectorsExactly(Mask(s, 1, false), 0, NET_RX);
    XorBit(s.word, NET_RX, NET_RX);
    if !Deferred(s, 1, false) && t.word != 0 && !env.late(t.now) && !env.needResched(t.now) && left > 1 {
      var later := NetRxOnlyInKsoftirqd(env, t, left - 1);
      Concatenated(Starts(s.log), more, later);
      more := more + later;
    }
  }

  /** Nothing is raised while interrupts are on. */
  ghost predicate Quiet(env: Env) { forall now :: 0 <= now ==> env.raised(now) == [] }

  lemma {:induction false} QuietHandling(env: Env, s: State, mask: nat, h: nat)
    requires Quiet(env)
    ensures HandleFrom(env, s, mask, h).word == s.word && HandleFrom(env, s, mask, h).woken == s.woken
    decreases mask
  {
    if mask != 0 && h + Ffs(mask) <= NR_SOFTIRQS {
      FfsBit(mask);
      var v: Vector := h + Ffs(mask) - 1;
      assert env.raised(s.now) == [];
      QuietHandling(env, Handle(env, s, v), Shr(mask, Ffs(mask)), v + 1);
    }
  }

  lemma QuietPass(env: Env, s: State, test: int, inKsoftirqd: bool)
    requires Quiet(env)
    ensures FirstPass(env, s, test, inKsoftirqd).word == if Deferred(s, test, inKsoftirqd) then Or(0, NET_RX) else 0
  {
    assert env.raised(s.now) == [];
    var t := Begin(s, test, inKsoftirqd);
    QuietHandling(env, Interrupted(env, t), Mask(s, test, inKsoftirqd), 0);
  }

  lemma QuietCall(env: Env, s: State, test: int, inKsoftirqd: bool)
    requires Quiet(env) && IsWord(s.word)
    ensures var t := DoSoftirq(env, s, test, inKsoftirqd, MAX_RESTART);
      && t.word == (if Deferred(s, test, inKsoftirqd) then Or(0, NET_RX) else 0)
      && IsWord(t.word)
      && Starts(t.log) == Starts(s.log) + Vectors(Mask(s, test, inKsoftirqd), 0)
  {
    PassRunsSnapshot(env, s, test, inKsoftirqd);
    QuietPass(env, s, test, inKsoftirqd);
    FirstPassIsWord(env, s, test, inKsoftirqd);
  }

  lemma DeferredVectors(s: State, v: nat)
    ensures v in Vectors(s.word, 0) <==>
      v in Vectors(Mask(s, 1, false), 0) || (v == NET_RX && Bit(s.word, NET_RX))
  {
    VectorsExactly(s.word, 0, v);
    VectorsExactly(Mask(s, 1, false), 0, v);
    XorBit(s.word, NET_RX, v);
  }

  /** When nothing new is raised, an interrupt run followed by ksoftirqd handles what the stock code
      handles at once: the same vectors, each once, and NET_RX last. */
  lemma DeferralSameHandlers(env: Env, s: State)
    requires Quiet(env) && IsWord(s.word)
    ensures var t := RunKsoftirqd(env, DoSoftirq(env, s, 1, false, MAX_RESTART), 1);
      && t.word == 0 && !t.woken
      && Starts(t.log) == Starts(s.log)
           + (if Bit(s.word, NET_RX) then Vectors(Xor(s.word, NET_RX), 0) + [NET_RX] else Vectors(s.word, 0))
      && forall v: nat ::
           v in Vectors(s.word, 0) <==> v in Vectors(Mask(s, 1, false), 0) || (v == NET_RX && Bit(s.word, NET_RX))
    ensures var stock := DoSoftirq(env, s, 0, false, MAX_RESTART);
      stock.word == 0 && Starts(stock.log) == Starts(s.log) + Vectors(s.word, 0)
  {
    QuietCall(env, s, 0, false);
    forall v: nat
      ensures v in Vectors(s.word, 0) <==> v in Vectors(Mask(s, 1, false), 0) || (v == NET_RX && Bit(s.word, NET_RX))
    {
      DeferredVectors(s, v);
    }
    KsoftirqdFinishes(env, s);
  }

  lemma KsoftirqdFinishes(env: Env, s: State)
    requires Quiet(env) && IsWord(s.word)
    ensures var t := RunKsoftirqd(env, DoSoftirq(env, s, 1, false, MAX_RESTART), 1);
      && t.word == 0 && !t.woken
      && Starts(t.log) == Starts(s.log)
           + (if Bit(s.word, NET_RX) then Vectors(Xor(s.word, NET_RX), 0) + [NET_RX] else Vectors(s.word, 0))
  {
    var t := DoSoftirq(env, s, 1, false, MAX_RESTART);
    QuietCall(env, s, 1, false);
    if Deferred(s, 1, false) {
      var u := t.(woken := false);
      RxAlone();
      QuietCall(env, u, 1, true);
      WakesExactlyForWork(env, u, 1, true, MAX_RESTART);
      Concatenated(Starts(s.log), Vectors(Xor(s.word, NET_RX), 0), [NET_RX]);
    }
  }

  lemma RxAlone()
    ensures Or(0, NET_RX) == 8 && Vectors(8, 0) == [NET_RX]
  {
    assert Ffs(8) == 4 && Shr(8, 4) == 0;
  }

  lemma WakeupUsedUp(s: State)
    requires Tracks(s, 0, 0)
    ensures Tracks(s.(woken := false), 0, 0)
  {
    forall v: Vector ensures Accounted(s.(woken := false), 0, 0, v) {
      assert Accounted(s, 0, 0, v);
    }
  }

  // ---------------------------------------------------------------- the code

  /** One CPU's softirq state; the history is kept for the specification. */
  class Cpu {
    var word: nat
    var woken: bool
    var now: nat
    ghost var log: seq<Event>

    ghost function Now(): State
      reads this
    {
      State(word, woken, now, log)
    }

    ghost predicate Valid()
      reads this
    {
      Tracks(Now(), 0, 0)
    }

    constructor ()
      ensures Valid() && word == 0 && !woken && log == []
    {
      word, woken, now, log := 0, false, 0, [];
      new;
      forall j: nat ensures !Bit(word, j) {
        ZeroBit(j);
      }
      forall v: Vector ensures Accounted(Now(), 0, 0, v) {
        ZeroBit(v);
      }
    }

    /** __raise_softirq_irqoff() */
    method RaiseIrqs(v: Vector)
      modifies this`word, this`log
      ensures Now() == RaiseOne(old(Now()), v)
    {
      word := Or(word, v);
      log := log + [Raise(v)];
    }

    /** raise_softirq_irqoff(): outside of interrupts ksoftirqd has to be woken. */
    method RaiseSoftirq(v: Vector, inInterrupt: bool)
      requires Valid()
      modifies this`word, this`log, this`woken
      ensures Valid() && Bit(word, v) && Waiting(log, v)
      ensures Now() == RaiseOne(old(Now()), v).(woken := old(woken) || !inInterrupt)
    {
      RaiseTracks(Now(), v, 0, 0);
      OrBit(word, v, v);
      WaitingNext(log, Raise(v), v);
      RaiseIrqs(v);
      ghost var raised := Now();
      if !inInterrupt {
        woken := true;
      }
      forall w: Vector ensures Accounted(Now(), 0, 0, w) {
        assert Accounted(raised, 0, 0, w);
      }
    }

    /** Interrupts are on: other code raises vectors. */
    method LetInterrupts(env: Env)
      modifies this`word, this`log, this`now
      ensures Now() == Interrupted(env, old(Now()))
    {
      var vs, i := env.raised(now), 0;
      while i < |vs|
        invariant 0 <= i <= |vs|
        invariant now == old(now) && woken == old(woken)
        invariant RaiseAll(Now(), vs[i..]) == RaiseAll(old(Now()), vs)
      {
        assert vs[i..][1..] == vs[i + 1..];
        RaiseIrqs(vs[i]);
        i := i + 1;
      }
      now := now + 1;
    }

    /** The handlers of a snapshot: h goes up the vectors as the mask is shifted down. */
    method HandleMask(env: Env, mask: nat)
      requires Fits(mask, 0)
      modifies this`word, this`log, this`now
      ensures Now() == HandleFrom(env, old(Now()), mask, 0)
    {
      var pending, h := mask, 0;
      while pending != 0
        invariant h >= 0 && woken == old(woken) && Fits(pending, h)
        invariant HandleFrom(env, Now(), pending, h) == HandleFrom(env, old(Now()), mask, 0)
        decreases pending
      {
        FitsNext(pending, h);
        FfsBit(pending);
        var softirqBit := Ffs(pending);
        h := h + softirqBit - 1;
        var vec: Vector := h;
        log := log + [Start(vec)];
        LetInterrupts(env);
        h := h + 1;
        pending := Shr(pending, softirqBit);
      }
    }

    /** One pass of __do_softirq(), and whether NET_RX was put off. */
    method OnePass(env: Env, test: int, inKsoftirqd: bool) returns (rxIsSet: bool)
      requires IsWord(word)
      modifies this`word, this`log, this`now
      ensures Now() == FirstPass(env, old(Now()), test, inKsoftirqd) && IsWord(word)
      ensures rxIsSet == Deferred(old(Now()), test, inKsoftirqd)
    {
      ghost var s := Now();
      MaskFits(s, test, inKsoftirqd);
      FirstPassIsWord(env, s, test, inKsoftirqd);
      var pending := word;
      rxIsSet := false;
      if test == 1 && !inKsoftirqd && Bit(pending, NET_RX) {
        pending := Xor(pending, NET_RX);
        rxIsSet := true;
        word := Or(0, NET_RX);
      } else {
        word := 0;
      }
      log := log + [Pass(s.now, s.word)];
      LetInterrupts(env);
      HandleMask(env, pending);
    }

    /** __do_softirq() */
    method DoSoftirqs(env: Env, test: int, inKsoftirqd: bool)
      requires Valid()
      modifies this
      ensures Valid() && Now() == DoSoftirq(env, old(Now()), test, inKsoftirqd, MAX_RESTART)
      ensures GoesOnOnlyWhen(env, old(Now()), Now())
    {
      ghost var before := Now();
      FurtherPasses(env, before, test, inKsoftirqd, MAX_RESTART);
      NothingLost(env, before, test, inKsoftirqd, MAX_RESTART);
      var maxRestart := MAX_RESTART;
      var again := true;
      while again
        invariant again ==> 0 < maxRestart && IsWord(word)
        invariant again ==>
          DoSoftirq(env, before, test, inKsoftirqd, MAX_RESTART) == DoSoftirq(env, Now(), test, inKsoftirqd, maxRestart)
        invariant !again ==> Now() == DoSoftirq(env, before, test, inKsoftirqd, MAX_RESTART)
        decreases again, maxRestart
      {
        var rxIsSet := OnePass(env, test, inKsoftirqd);
        again := false;
        if rxIsSet {
          woken := true;
        } else {
          if word != 0 {
            if !env.late(now) && !env.needResched(now) {
              maxRestart := maxRestart - 1;
              again := maxRestart != 0;
            }
            if !again {
              woken := true;
            }
          }
        }
      }
    }

    /** run_ksoftirqd(): everything pending is started, and exactly for what is left it is woken again. */
    method RunKsoftirqds(env: Env, test: int)
      requires Valid()
      modifies this
      ensures Valid() && Now() == RunKsoftirqd(env, old(Now()), test)
      ensures Starts(old(log)) + Vectors(old(word), 0) <= Starts(log)
      ensures woken <==> word != 0
      ensures forall v: Vector :: Waiting(log, v) ==> Bit(word, v) && woken
    {
      KsoftirqdServes(env, Now(), test);
      WakeupUsedUp(Now());
      woken := false;
      if word != 0 {
        DoSoftirqs(env, test, true);
      }
    }
  }
}
