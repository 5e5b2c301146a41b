/** The drift controller (sp-media/src/drift.rs), over the reals. */
module Drift {
  import opened Common

  const MAX_CORRECTION := 0.005
  const KP := 0.000002
  const KI := 0.000000002
  const MAX_INTEGRAL := 2000000.0

  datatype State = State(integral: real, filtered: Option<real>, ratio: real)

  /** One observation of the jitter buffer, in samples. */
  datatype Level = Level(buffered: nat, target: nat)

  function Init(): State { State(0.0, None, 1.0) }

  function Clamp(x: real, limit: real): (r: real)
    requires limit >= 0.0
    ensures -limit <= r <= limit && (-limit <= x <= limit ==> r == x)
    ensures (x > limit ==> r == limit) && (x < -limit ==> r == -limit)
    ensures (x > 0.0 && limit > 0.0 ==> r > 0.0) && (x < 0.0 && limit > 0.0 ==> r < 0.0)
  {
    if x < -limit then -limit else if x > limit then limit else x
  }

  function Error(l: Level): real { l.buffered as real - l.target as real }

  function Update(s: State, l: Level): State {
    var filtered := match s.filtered
      case Some(prev) => prev + (Error(l) - prev) * 0.02
      case None => Error(l);
    var integral := Clamp(s.integral + filtered, MAX_INTEGRAL);
    State(integral, Some(filtered), 1.0 + Clamp(KP * filtered + KI * integral, MAX_CORRECTION))
  }

  function Run(levels: seq<Level>): State {
    if levels == [] then Init() else Update(Run(levels[..|levels| - 1]), levels[|levels| - 1])
  }

  /** Whatever is observed, the ratio stays within half a percent of one, so it is always positive. */
  lemma RatioBounded(levels: seq<Level>)
    ensures 0.995 <= Run(levels).ratio <= 1.005
  {
  }

  /** The buffer is at its target or off it in the direction of `sign`. */
  ghost predicate OnSide(l: Level, sign: real) { Error(l) * sign >= 0.0 }

  /** A controller that has only seen errors of the sign of `sign`. */
  ghost predicate Leans(s: State, sign: real, moved: bool) {
    && s.integral * sign >= 0.0 && (s.filtered.Some? ==> s.filtered.value * sign >= 0.0)
    && (moved ==> s.filtered.Some? && s.filtered.value * sign > 0.0)
    && (!moved ==> s.integral == 0.0 && (s.filtered.Some? ==> s.filtered.value == 0.0))
    && (s.ratio - 1.0) * sign >= 0.0 && (s.ratio == 1.0 <==> !moved)
  }

  lemma UpdateLeans(s: State, l: Level, sign: real, moved: bool)
    requires (sign == 1.0 || sign == -1.0) && Leans(s, sign, moved) && OnSide(l, sign)
    ensures Leans(Update(s, l), sign, moved || Error(l) != 0.0)
  {
    hide Error, Clamp;
    var e, t := Error(l), Update(s, l);
    assert s.filtered.Some? ==> t.filtered.value == 0.98 * s.filtered.value + 0.02 * e;
    if sign == 1.0 { assert e >= 0.0; } else { assert e <= 0.0; }
  }

  /** A buffer that is never below its target is never played slower than one, and exactly at one only
      while it has been on target throughout; and the mirror image for a buffer never above it. */
  lemma {:induction false} SteersTowardsTarget(levels: seq<Level>)
    ensures (forall i :: 0 <= i < |levels| ==> levels[i].buffered >= levels[i].target) ==>
              && Run(levels).ratio >= 1.0
              && (Run(levels).ratio == 1.0 <==> forall i :: 0 <= i < |levels| ==> levels[i].buffered == levels[i].target)
    ensures (forall i :: 0 <= i < |levels| ==> levels[i].buffered <= levels[i].target) ==>
              && Run(levels).ratio <= 1.0
              && (Run(levels).ratio == 1.0 <==> forall i :: 0 <= i < |levels| ==> levels[i].buffered == levels[i].target)
  {
    hide Run;
    if forall i :: 0 <= i < |levels| ==> levels[i].buffered >= levels[i].target {
      assert forall i :: 0 <= i < |levels| ==> OnSide(levels[i], 1.0);
      Steers(levels, 1.0);
    }
    if forall i :: 0 <= i < |levels| ==> levels[i].buffered <= levels[i].target {
      forall i | 0 <= i < |levels| ensures OnSide(levels[i], -1.0) { assert Error(levels[i]) <= 0.0; }
      Steers(levels, -1.0);
    }
  }

  /** Some observation was off target. */
  ghost predicate Moved(levels: seq<Level>) {
    exists i :: 0 <= i < |levels| && Error(levels[i]) != 0.0
  }

  lemma MovedNext(levels: seq<Level>, l: Level)
    ensures Moved(levels + [l]) <==> Moved(levels) || Error(l) != 0.0
  {
    hide Error;
    var more := levels + [l];
    assert more[|levels|] == l;
    forall i | 0 <= i < |levels| ensures more[i] == levels[i] {}
    if i :| 0 <= i < |levels| && Error(levels[i]) != 0.0 { assert Error(more[i]) != 0.0; }
  }

  lemma {:induction false} Steers(levels: seq<Level>, sign: real)
    requires sign == 1.0 || sign == -1.0
    requires forall i :: 0 <= i < |levels| ==> OnSide(levels[i], sign)
    ensures Leans(Run(levels), sign, Moved(levels))
  {
    if levels != [] {
      hide Error, OnSide, Update, Leans, Moved, Run;
      RunLast(levels);
      var n := |levels| - 1;
      assert forall i :: 0 <= i < n ==> levels[..n][i] == levels[i];
      Steers(levels[..n], sign);
      UpdateLeans(Run(levels[..n]), levels[n], sign, Moved(levels[..n]));
      MovedNext(levels[..n], levels[n]);
      assert levels == levels[..n] + [levels[n]];
    }
  }

  // ---------------------------------------------------------------- how much it steers

  function Repeated(l: Level, n: nat): (r: seq<Level>)
    ensures |r| == n && forall i :: 0 <= i < n ==> r[i] == l
  {
    seq(n, _ => l)
  }

  lemma Multiple(n: nat, e: real)
    ensures (n + 1) as real * e == n as real * e + e
  {
    assert (n + 1) as real == n as real + 1.0;
  }

  lemma {:induction false} SteadyState(l: Level, n: nat, e: real, total: real)
    requires e == l.buffered as real - l.target as real && total == (n + 1) as real * e
    ensures Run(Repeated(l, n + 1)).filtered == Some(e)
    ensures Run(Repeated(l, n + 1)).integral == Clamp(total, 2_000_000.0)
  {
    hide Clamp, Run, Update, Error;
    var all := Repeated(l, n + 1);
    RunLast(all);
    assert all[..n] == Repeated(l, n) && all[n] == l;
    if n == 0 {
      FirstUpdate(l);
      assert Repeated(l, 0) == [];
    } else {
      Multiple(n, e);
      SameSign(n, e);
      SteadyState(l, n - 1, e, total - e);
      NextUpdate(Run(Repeated(l, n)), l);
      Saturates(total - e, e);
    }
  }

  lemma FirstUpdate(l: Level)
    ensures var e := l.buffered as real - l.target as real;
            Update(Run([]), l).filtered == Some(e) && Update(Run([]), l).integral == Clamp(1 as real * e, 2_000_000.0)
  {
    hide Clamp;
  }

  lemma NextUpdate(s: State, l: Level)
    requires s.filtered == Some(l.buffered as real - l.target as real)
    ensures var e := l.buffered as real - l.target as real;
            Update(s, l).filtered == Some(e) && Update(s, l).integral == Clamp(s.integral + e, 2_000_000.0)
  {
    hide Clamp;
  }

  lemma SameSign(n: nat, e: real)
    ensures (e >= 0.0 ==> n as real * e >= 0.0) && (e <= 0.0 ==> n as real * e <= 0.0)
  {
  }

  /** Once at its bound in some direction, the sum stays there. */
  lemma Saturates(sum: real, e: real)
    requires (e >= 0.0 && sum >= 0.0) || (e <= 0.0 && sum <= 0.0)
    ensures Clamp(Clamp(sum, 2_000_000.0) + e, 2_000_000.0) == Clamp(sum + e, 2_000_000.0)
  {
  }

  /** A buffer that stays `e` samples over its target: two millionths of `e`, and two billionths more with every
      observation, while that adds up to two million sample observations at most; half a percent in all. */
  lemma SteadyResponse(l: Level, n: nat, e: real, total: real)
    requires n > 0 && e == l.buffered as real - l.target as real && total == n as real * e
    ensures var sum := if total > 2_000_000.0 then 2_000_000.0 else if total < -2_000_000.0 then -2_000_000.0 else total;
            var x := 0.000_002 * e + 0.000_000_002 * sum;
            Run(Repeated(l, n)).ratio == if x > 0.005 then 1.005 else if x < -0.005 then 0.995 else 1.0 + x
  {
    hide Run, Update, Clamp, Error;
    SteadyState(l, n - 1, e, total);
    RatioOf(Repeated(l, n));
    ResponseTo(e, total);
  }

  lemma ResponseTo(e: real, all: real)
    ensures var sum := if all > 2_000_000.0 then 2_000_000.0 else if all < -2_000_000.0 then -2_000_000.0 else all;
            var x := 0.000_002 * e + 0.000_000_002 * sum;
            1.0 + Clamp(KP * e + KI * Clamp(all, 2_000_000.0), MAX_CORRECTION)
            == if x > 0.005 then 1.005 else if x < -0.005 then 0.995 else 1.0 + x
  {
  }

  lemma RatioOf(levels: seq<Level>)
    requires levels != []
    ensures var s := Run(levels);
            s.filtered.Some? && s.ratio == 1.0 + Clamp(KP * s.filtered.value + KI * s.integral, MAX_CORRECTION)
  {
  }

  function Power(x: real, n: nat): real { if n == 0 then 1.0 else x * Power(x, n - 1) }

  /** The level is smoothed: of a jump, 0.98 to the power of `n` is still missing after `n` observations. */
  lemma {:induction false} SettlesAfterJump(a: Level, b: Level, n: nat)
    ensures var s := Run([a] + Repeated(b, n));
            s.filtered.Some?
            && s.filtered.value - (b.buffered as real - b.target as real) ==
               Power(0.98, n) * ((a.buffered as real - a.target as real) - (b.buffered as real - b.target as real))
  {
    hide Clamp, Run, Update, Error;
    var all := [a] + Repeated(b, n);
    RunLast(all);
    if n == 0 {
      assert all == [a] && all[..0] == [];
      FirstUpdate(a);
    } else {
      SettlesAfterJump(a, b, n - 1);
      assert all[..n] == [a] + Repeated(b, n - 1) && all[n] == b;
      var ea, eb := a.buffered as real - a.target as real, b.buffered as real - b.target as real;
      Moves(Run(all[..n]), b);
      Smooths(Run(all[..n]).filtered.value, eb, Power(0.98, n - 1), ea - eb);
    }
  }

  lemma Moves(s: State, l: Level)
    requires s.filtered.Some?
    ensures Update(s, l).filtered ==
            Some(s.filtered.value + ((l.buffered as real - l.target as real) - s.filtered.value) * 0.02)
  {
    hide Clamp;
  }

  lemma RunLast(levels: seq<Level>)
    requires levels != []
    ensures Run(levels) == Update(Run(levels[..|levels| - 1]), levels[|levels| - 1])
  {
  }

  lemma Smooths(f: real, e: real, p: real, d: real)
    requires f - e == p * d
    ensures f + (e - f) * 0.02 - e == 0.98 * p * d
  {
    assert 0.98 * p * d == 0.98 * (p * d);
  }

  class DriftController {
    var integral: real
    var filtered: Option<real>
    var ratio: real

    ghost function Abs(): State reads this { State(integral, filtered, ratio) }

    constructor ()
      ensures Abs() == Init()
    {
      integral, filtered, ratio := 0.0, None, 1.0;
    }

    method Observe(buffered: nat, target: nat) returns (r: real)
      modifies this
      ensures Abs() == Update(old(Abs()), Level(buffered, target)) && r == ratio
      ensures 0.995 <= r <= 1.005
    {
      var error := buffered as real - target as real;
      var smooth := error;
      if filtered.Some? { smooth := filtered.value + (error - filtered.value) * 0.02; }
      filtered := Some(smooth);
      integral := Clamp(integral + smooth, MAX_INTEGRAL);
      ratio := 1.0 + Clamp(KP * smooth + KI * integral, MAX_CORRECTION);
      r := ratio;
    }

    method Reset()
      modifies this
      ensures Abs() == Init()
    {
      integral, filtered, ratio := 0.0, None, 1.0;
    }
  }
}
