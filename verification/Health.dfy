/** Connection health and the lossless quality fallback (sp-engine/src/health.rs) as latches on history. */
module Health {
  import opened Common

  const U32_MAX: nat := 0xFFFF_FFFF

  /** A measurement; NaN compares false with everything. */
  datatype F64 = NaN | Num(value: real)

  predicate Above(x: F64, limit: real) { x.Num? && x.value > limit }

  predicate Below(x: F64, limit: real) { x.Num? && x.value < limit }

  /** What one second counts as. */
  datatype Mark = Bad | Good | Neither

  /** Bad seconds in a row that switch on, good ones that switch off, and whether a switch clears the counters. */
  datatype Rule = Rule(enter: nat, recover: nat, clears: bool)

  const LINK := Rule(3, 5, false)
  const FALLBACK := Rule(5, 15, true)

  function LinkMark(loss: F64, jitter: F64): Mark {
    if Above(loss, 3.0) || Above(jitter, 30.0) then Bad
    else if Below(loss, 1.0) && Below(jitter, 15.0) then Good
    else Neither
  }

  function FallbackMark(loss: F64): Mark {
    if Above(loss, 2.0) then Bad else if Below(loss, 0.5) then Good else Neither
  }

  datatype State = State(active: bool, bad: nat, good: nat)

  function Inc(n: nat): nat { if n < U32_MAX then n + 1 else U32_MAX }

  /** One second. */
  function Update(r: Rule, s: State, m: Mark): State {
    var bad := if m == Bad then Inc(s.bad) else 0;
    var good := if m == Good then Inc(s.good) else 0;
    var next := if s.active then good < r.recover else bad >= r.enter;
    if r.clears && next != s.active then State(next, 0, 0) else State(next, bad, good)
  }

  function Run(r: Rule, marks: seq<Mark>): State {
    if marks == [] then State(false, 0, 0) else Update(r, Run(r, marks[..|marks| - 1]), marks[|marks| - 1])
  }

  // ---------------------------------------------------------------- the history's answer

  /** `n` marks `m` in a row end at second `i`. */
  ghost predicate Completes(marks: seq<Mark>, i: nat, m: Mark, n: nat) {
    i < |marks| && n <= i + 1 && forall j :: i + 1 - n <= j <= i ==> marks[j] == m
  }

  ghost predicate OnSince(r: Rule, marks: seq<Mark>, i: nat) {
    Completes(marks, i, Bad, r.enter) && forall j :: i < j < |marks| ==> !Completes(marks, j, Good, r.recover)
  }

  /** The last completed run, among the bad ones and the good ones, was a bad one. */
  ghost predicate Latched(r: Rule, marks: seq<Mark>) {
    exists i :: OnSince(r, marks, i)
  }

  /** How many `m` the history ends with. */
  function Streak(marks: seq<Mark>, m: Mark): nat {
    if marks == [] || marks[|marks| - 1] != m then 0 else 1 + Streak(marks[..|marks| - 1], m)
  }

  lemma {:induction false} StreakCompletes(marks: seq<Mark>, m: Mark, n: nat)
    requires n > 0 && marks != []
    ensures Completes(marks, |marks| - 1, m, n) <==> Streak(marks, m) >= n
  {
    var k := |marks| - 1;
    if marks[k] == m && n > 1 {
      var g := marks[..k];
      if g != [] {
        StreakCompletes(g, m, n - 1);
        assert forall j :: k + 1 - n <= j < k && 0 <= j ==> g[j] == marks[j];
      }
    }
  }

  lemma StreakNext(marks: seq<Mark>, x: Mark, m: Mark)
    ensures Streak(marks + [x], m) == if x == m then Streak(marks, m) + 1 else 0
  {
    assert (marks + [x])[..|marks|] == marks;
  }

  lemma CompletesStable(marks: seq<Mark>, x: Mark, i: nat, m: Mark, n: nat)
    requires i < |marks|
    ensures Completes(marks + [x], i, m, n) <==> Completes(marks, i, m, n)
  {
    var g := marks + [x];
    assert forall j :: 0 <= j <= i ==> g[j] == marks[j];
  }

  /** The latch after one more second. */
  lemma LatchedNext(r: Rule, marks: seq<Mark>, x: Mark)
    requires r.enter > 0 && r.recover > 0
    ensures Latched(r, marks + [x]) <==>
            Streak(marks + [x], Bad) >= r.enter || (Latched(r, marks) && Streak(marks + [x], Good) < r.recover)
  {
    hide Completes, Streak;
    var g, n := marks + [x], |marks|;
    StreakCompletes(g, Bad, r.enter);
    StreakCompletes(g, Good, r.recover);
    if Streak(g, Bad) >= r.enter { assert OnSince(r, g, n); }
    if i: nat :| OnSince(r, marks, i) && Streak(g, Good) < r.recover && i < n { Carry(r, marks, x, i); }
    if i: nat :| OnSince(r, g, i) && i < n { Carry(r, marks, x, i); assert OnSince(r, marks, i); }
    Bounds(r, marks);
    Bounds(r, g);
  }

  lemma Bounds(r: Rule, marks: seq<Mark>)
    ensures forall i: nat :: OnSince(r, marks, i) ==> i < |marks|
  {
  }

  lemma Carry(r: Rule, marks: seq<Mark>, x: Mark, i: nat)
    requires i < |marks|
    ensures OnSince(r, marks + [x], i) <==> OnSince(r, marks, i) && !Completes(marks + [x], |marks|, Good, r.recover)
  {
    hide Completes;
    CompletesStable(marks, x, i, Bad, r.enter);
    forall j | i < j < |marks| ensures Completes(marks + [x], j, Good, r.recover) <==> Completes(marks, j, Good, r.recover) {
      CompletesStable(marks, x, j, Good, r.recover);
    }
  }

  // ---------------------------------------------------------------- the counters

  /** The counter that matters is the streak, up to saturation. */
  ghost predicate Tracks(r: Rule, s: State, marks: seq<Mark>) {
    && (s.active <==> Latched(r, marks))
    && (if s.active then s.good == Min(Streak(marks, Good), U32_MAX) else s.bad == Min(Streak(marks, Bad), U32_MAX))
    && (s.active && Streak(marks, Good) > 0 ==> s.bad == 0)
    && (!s.active && Streak(marks, Bad) > 0 ==> s.good == 0)
  }

  lemma UpdateTracks(r: Rule, s: State, marks: seq<Mark>, x: Mark)
    requires 0 < r.enter <= U32_MAX && 0 < r.recover <= U32_MAX && Tracks(r, s, marks)
    ensures Tracks(r, Update(r, s, x), marks + [x])
  {
    hide Latched, Streak;
    LatchedNext(r, marks, x);
    StreakNext(marks, x, Bad);
    StreakNext(marks, x, Good);
  }

  /** Both detectors are the latch: active exactly when the last completed run was the bad one. That some
      rules clear their counters on a switch makes no difference. */
  lemma {:induction false} ActiveIsLatched(r: Rule, marks: seq<Mark>)
    requires 0 < r.enter <= U32_MAX && 0 < r.recover <= U32_MAX
    ensures Run(r, marks).active <==> Latched(r, marks)
  {
    AlwaysTracks(r, marks);
  }

  lemma {:induction false} AlwaysTracks(r: Rule, marks: seq<Mark>)
    requires 0 < r.enter <= U32_MAX && 0 < r.recover <= U32_MAX
    ensures Tracks(r, Run(r, marks), marks)
  {
    if marks != [] {
      hide Tracks, Update;
      var n := |marks| - 1;
      AlwaysTracks(r, marks[..n]);
      UpdateTracks(r, Run(r, marks[..n]), marks[..n], marks[n]);
      assert marks[..n] + [marks[n]] == marks;
    }
  }

  /** Clearing the counters on a switch is unobservable. */
  lemma ClearingUnobservable(enter: nat, recover: nat, marks: seq<Mark>)
    requires 0 < enter <= U32_MAX && 0 < recover <= U32_MAX
    ensures Run(Rule(enter, recover, true), marks).active == Run(Rule(enter, recover, false), marks).active
  {
    hide Run;
    var a, b := Rule(enter, recover, true), Rule(enter, recover, false);
    ActiveIsLatched(a, marks);
    ActiveIsLatched(b, marks);
    if i: nat :| OnSince(a, marks, i) { assert OnSince(b, marks, i); }
    if i: nat :| OnSince(b, marks, i) { assert OnSince(a, marks, i); }
  }

  // ---------------------------------------------------------------- in percent and milliseconds

  /** Loss in percent and jitter in milliseconds that make a second bad, and that make it good. */
  ghost predicate Lossy(s: (F64, F64)) { (s.0.Num? && s.0.value > 3.0) || (s.1.Num? && s.1.value > 30.0) }

  ghost predicate Clear(s: (F64, F64)) { s.0.Num? && s.0.value < 1.0 && s.1.Num? && s.1.value < 15.0 }

  function LinkMarks(seconds: seq<(F64, F64)>): (r: seq<Mark>)
    ensures |r| == |seconds|
  {
    seq(|seconds|, i requires 0 <= i < |seconds| => LinkMark(seconds[i].0, seconds[i].1))
  }

  function FallbackMarks(losses: seq<F64>): (r: seq<Mark>)
    ensures |r| == |losses|
  {
    seq(|losses|, i requires 0 <= i < |losses| => FallbackMark(losses[i]))
  }

  ghost predicate ThreeLossy(seconds: seq<(F64, F64)>, i: int) {
    2 <= i < |seconds| && forall j :: i - 2 <= j <= i ==> Lossy(seconds[j])
  }

  ghost predicate FiveClear(seconds: seq<(F64, F64)>, i: int) {
    4 <= i < |seconds| && forall j :: i - 4 <= j <= i ==> Clear(seconds[j])
  }

  /** Three lossy seconds in a row end at second `i`, and no five clear ones in a row since. */
  ghost predicate DegradedSince(seconds: seq<(F64, F64)>, i: nat) {
    ThreeLossy(seconds, i) && forall k :: i < k < |seconds| ==> !FiveClear(seconds, k)
  }

  ghost predicate FiveAbove(losses: seq<F64>, i: int) {
    4 <= i < |losses| && forall j :: i - 4 <= j <= i ==> losses[j].Num? && losses[j].value > 2.0
  }

  ghost predicate FifteenBelow(losses: seq<F64>, i: int) {
    14 <= i < |losses| && forall j :: i - 14 <= j <= i ==> losses[j].Num? && losses[j].value < 0.5
  }

  /** Five seconds in a row with more than 2 % loss end at second `i`, and no fifteen in a row below 0.5 % since. */
  ghost predicate FallenBackSince(losses: seq<F64>, i: nat) {
    FiveAbove(losses, i) && forall k :: i < k < |losses| ==> !FifteenBelow(losses, k)
  }

  lemma DegradedSinceIs(seconds: seq<(F64, F64)>, i: nat)
    ensures DegradedSince(seconds, i) <==> OnSince(LINK, LinkMarks(seconds), i)
  {
    var marks := LinkMarks(seconds);
    forall j | 0 <= j < |seconds| ensures (marks[j] == Bad <==> Lossy(seconds[j])) && (marks[j] == Good <==> Clear(seconds[j])) {}
    hide Lossy, Clear, LinkMarks;
    forall k: nat ensures Completes(marks, k, Good, 5) <==> FiveClear(seconds, k) {}
    assert Completes(marks, i, Bad, 3) <==> ThreeLossy(seconds, i);
    hide Completes, FiveClear, ThreeLossy;
  }

  /** The link counts as degraded exactly since some three lossy seconds in a row. */
  lemma DegradedExactly(seconds: seq<(F64, F64)>)
    ensures Run(LINK, LinkMarks(seconds)).active <==> exists i: nat :: DegradedSince(seconds, i)
  {
    hide DegradedSince, OnSince, LinkMarks;
    ActiveIsLatched(LINK, LinkMarks(seconds));
    forall i: nat ensures DegradedSince(seconds, i) <==> OnSince(LINK, LinkMarks(seconds), i) { DegradedSinceIs(seconds, i); }
    Bounds(LINK, LinkMarks(seconds));
  }

  lemma FallenBackSinceIs(losses: seq<F64>, i: nat)
    ensures FallenBackSince(losses, i) <==> OnSince(FALLBACK, FallbackMarks(losses), i)
  {
    var marks := FallbackMarks(losses);
    forall j | 0 <= j < |losses|
      ensures marks[j] == Bad <==> losses[j].Num? && losses[j].value > 2.0
      ensures marks[j] == Good <==> losses[j].Num? && losses[j].value < 0.5 {}
    hide FallbackMarks;
    forall k: nat ensures Completes(marks, k, Good, 15) <==> FifteenBelow(losses, k) {}
    assert Completes(marks, i, Bad, 5) <==> FiveAbove(losses, i);
    hide Completes, FifteenBelow, FiveAbove;
  }

  lemma FallenBackExactly(losses: seq<F64>)
    ensures Run(FALLBACK, FallbackMarks(losses)).active <==> exists i: nat :: FallenBackSince(losses, i)
  {
    hide FallenBackSince, OnSince, FallbackMarks;
    ActiveIsLatched(FALLBACK, FallbackMarks(losses));
    forall i: nat ensures FallenBackSince(losses, i) <==> OnSince(FALLBACK, FallbackMarks(losses), i) { FallenBackSinceIs(losses, i); }
    Bounds(FALLBACK, FallbackMarks(losses));
  }

  // ---------------------------------------------------------------- the objects

  class LinkHealth {
    var degraded: bool
    var badSecs: nat
    var goodSecs: nat

    ghost function Abs(): State reads this { State(degraded, badSecs, goodSecs) }

    constructor ()
      ensures Abs() == Run(LINK, [])
    {
      degraded, badSecs, goodSecs := false, 0, 0;
    }

    /** Feed one second; `seconds` is what came before. */
    method Feed(loss: F64, jitter: F64, ghost seconds: seq<(F64, F64)>) returns (changed: bool)
      requires Abs() == Run(LINK, LinkMarks(seconds))
      modifies this
      ensures Abs() == Run(LINK, LinkMarks(seconds + [(loss, jitter)]))
      ensures degraded <==> exists i: nat :: DegradedSince(seconds + [(loss, jitter)], i)
      ensures changed <==> degraded != old(degraded)
    {
      hide DegradedSince;
      ghost var marks, all := LinkMarks(seconds), LinkMarks(seconds + [(loss, jitter)]);
      DegradedExactly(seconds + [(loss, jitter)]);
      assert all[..|marks|] == marks && all[|marks|] == LinkMark(loss, jitter);
      var bad := Above(loss, 3.0) || Above(jitter, 30.0);
      var good := Below(loss, 1.0) && Below(jitter, 15.0);
      badSecs := if bad then Inc(badSecs) else 0;
      goodSecs := if good then Inc(goodSecs) else 0;
      var next := if degraded then goodSecs < 5 else badSecs >= 3;
      changed := next != degraded;
      degraded := next;
    }
  }

  class QualityFallback {
    var active: bool
    var badSecs: nat
    var goodSecs: nat

    ghost function Abs(): State reads this { State(active, badSecs, goodSecs) }

    constructor ()
      ensures Abs() == Run(FALLBACK, [])
    {
      active, badSecs, goodSecs := false, 0, 0;
    }

    /** Feed one second; `losses` is what came since the last reset. */
    method Feed(loss: F64, ghost losses: seq<F64>) returns (changed: bool)
      requires Abs() == Run(FALLBACK, FallbackMarks(losses))
      modifies this
      ensures Abs() == Run(FALLBACK, FallbackMarks(losses + [loss]))
      ensures active <==> exists i: nat :: FallenBackSince(losses + [loss], i)
      ensures changed <==> active != old(active)
    {
      hide FallenBackSince;
      ghost var marks, all := FallbackMarks(losses), FallbackMarks(losses + [loss]);
      FallenBackExactly(losses + [loss]);
      assert all[..|marks|] == marks && all[|marks|] == FallbackMark(loss);
      badSecs := if Above(loss, 2.0) then Inc(badSecs) else 0;
      goodSecs := if Below(loss, 0.5) then Inc(goodSecs) else 0;
      var next := if active then goodSecs < 15 else badSecs >= 5;
      changed := next != active;
      if changed { badSecs, goodSecs := 0, 0; }
      active := next;
    }

    method Reset()
      modifies this
      ensures Abs() == Run(FALLBACK, [])
    {
      active, badSecs, goodSecs := false, 0, 0;
    }
  }
}
