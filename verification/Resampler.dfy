/** The streaming fractional resampler and the drift controller (sp-media/src/drift.rs), over the reals. */
module Resampler {
  import opened Common

  /** One sample per channel. */
  type Frame = seq<real>

  /** The last four input frames, the read position between the second and third, and how many of the
      four have been filled. */
  datatype State = State(channels: nat, history: seq<Frame>, phase: real, primed: nat)

  ghost predicate Valid(s: State) {
    && |s.history| == 4 && (forall i :: 0 <= i < 4 ==> |s.history[i]| == s.channels)
    && s.primed <= 4 && s.phase >= 0.0
  }

  ghost predicate Wide(frames: seq<Frame>, channels: nat) {
    forall i :: 0 <= i < |frames| ==> |frames[i]| == channels
  }

  function Zero(channels: nat): (f: Frame)
    ensures |f| == channels
  {
    seq(channels, _ => 0.0)
  }

  function Init(channels: nat): (s: State)
    ensures Valid(s) && s.channels == channels
  {
    State(channels, [Zero(channels), Zero(channels), Zero(channels), Zero(channels)], 0.0, 0)
  }

  /** Cubic Hermite interpolation. */
  function Hermite(y0: real, y1: real, y2: real, y3: real, t: real): real {
    var c1 := 0.5 * (y2 - y0);
    var c2 := y0 - 2.5 * y1 + 2.0 * y2 - 0.5 * y3;
    var c3 := 0.5 * (y3 - y0) + 1.5 * (y1 - y2);
    ((c3 * t + c2) * t + c1) * t + y1
  }

  /** The output frame at position `t` of a window of four frames. */
  function Between(channels: nat, w: seq<Frame>, t: real): (f: Frame)
    requires |w| == 4 && forall i :: 0 <= i < 4 ==> |w[i]| == channels
    ensures |f| == channels
  {
    seq(channels, c requires 0 <= c < channels => Hermite(w[0][c], w[1][c], w[2][c], w[3][c], t))
  }

  // ---------------------------------------------------------------- what the loops do

  /** Output frames still to come before the read position passes 1. */
  function Steps(phase: real, ratio: real): nat
    requires ratio > 0.0
  {
    if phase >= 1.0 then 0 else
    Positive(1.0 - phase, ratio);
    ((1.0 - phase) / ratio).Floor + 1
  }

  lemma Positive(a: real, b: real)
    requires a > 0.0 && b > 0.0
    ensures a / b > 0.0
  {
  }

  lemma OneLess(phase: real, ratio: real)
    requires ratio > 0.0 && phase < 1.0
    ensures Steps(phase + ratio, ratio) < Steps(phase, ratio)
  {
    Positive(1.0 - phase, ratio);
    if phase + ratio < 1.0 {
      Positive(1.0 - (phase + ratio), ratio);
      assert (1.0 - (phase + ratio)) / ratio == (1.0 - phase) / ratio - 1.0 by { DivideLess(1.0 - phase, ratio); }
    }
  }

  lemma DivideLess(a: real, b: real)
    requires b > 0.0
    ensures (a - b) / b == a / b - 1.0
  {
    var q := a / b;
    assert q * b == a;
    assert (q - 1.0) * b == a - b;
    RealQuotient(a - b, b, q - 1.0);
  }

  lemma RealQuotient(a: real, b: real, q: real)
    requires b > 0.0 && q * b == a
    ensures a / b == q
  {
  }

  /** Emit frames while the read position lies in the window. */
  function Emit(channels: nat, w: seq<Frame>, phase: real, ratio: real): (r: (seq<Frame>, real))
    requires ratio > 0.0 && |w| == 4 && forall i :: 0 <= i < 4 ==> |w[i]| == channels
    ensures r.1 >= 1.0
    ensures forall i :: 0 <= i < |r.0| ==> |r.0[i]| == channels
    ensures phase >= 1.0 ==> r == ([], phase)
    ensures phase < 1.0 ==> r.0 != []
    decreases Steps(phase, ratio)
  {
    if phase >= 1.0 then ([], phase) else
    OneLess(phase, ratio);
    var (rest, last) := Emit(channels, w, phase + ratio, ratio);
    ([Between(channels, w, phase)] + rest, last)
  }

  /** One input frame. */
  function Step(s: State, x: Frame, ratio: real): (r: (State, seq<Frame>))
    requires ratio > 0.0 && Valid(s) && |x| == s.channels
    ensures Valid(r.0) && r.0.channels == s.channels && Wide(r.1, s.channels)
  {
    var s1 := s.(history := s.history[1..] + [x], primed := if s.primed < 4 then s.primed + 1 else 4);
    if s1.primed < 4 then (s1, []) else
    var (out, phase) := Emit(s.channels, s1.history, s.phase, ratio);
    (s1.(phase := phase - 1.0), out)
  }

  /** A whole call. */
  function Resample(s: State, xs: seq<Frame>, ratio: real): (r: (State, seq<Frame>))
    requires ratio > 0.0 && Valid(s) && Wide(xs, s.channels)
    ensures Valid(r.0) && r.0.channels == s.channels && Wide(r.1, s.channels)
  {
    if xs == [] then (s, []) else
    var n := |xs| - 1;
    var (s1, out) := Resample(s, xs[..n], ratio);
    var (s2, more) := Step(s1, xs[n], ratio);
    (s2, out + more)
  }

  // ---------------------------------------------------------------- splitting the input

  /** Processing in two calls is processing at once. */
  lemma {:induction false} SplitIrrelevant(s: State, xs: seq<Frame>, ys: seq<Frame>, ratio: real)
    requires ratio > 0.0 && Valid(s) && Wide(xs, s.channels) && Wide(ys, s.channels)
    ensures Wide(xs + ys, s.channels)
    ensures var (s1, a) := Resample(s, xs, ratio);
            var (s2, b) := Resample(s1, ys, ratio);
            Resample(s, xs + ys, ratio) == (s2, a + b)
    decreases |ys|
  {
    hide Step;
    var (s1, a) := Resample(s, xs, ratio);
    if ys == [] {
      assert xs + ys == xs && a + [] == a;
    } else {
      var n := |ys| - 1;
      SplitIrrelevant(s, xs, ys[..n], ratio);
      assert (xs + ys)[..|xs + ys| - 1] == xs + ys[..n] && (xs + ys)[|xs + ys| - 1] == ys[n];
      var (s2, b) := Resample(s1, ys[..n], ratio);
      var more := Step(s2, ys[n], ratio).1;
      assert (a + b) + more == a + (b + more);
    }
  }

  // ---------------------------------------------------------------- against the direct formula

  /** The input position of output frame `k`. */
  function Pos(k: nat, ratio: real): real { k as real * ratio }

  lemma NextPos(k: nat, ratio: real)
    ensures Pos(k + 1, ratio) == Pos(k, ratio) + ratio && Pos(0, ratio) == 0.0
  {
  }

  lemma {:induction false} PosOrder(j: nat, k: nat, ratio: real)
    requires ratio > 0.0 && j <= k
    ensures 0.0 <= Pos(j, ratio) <= Pos(k, ratio)
  {
    hide Pos;
    if k > 0 {
      NextPos(k - 1, ratio);
      PosOrder(if j < k then j else j - 1, k - 1, ratio);
      if j == k { NextPos(j - 1, ratio); }
    } else {
      NextPos(0, ratio);
    }
  }

  /** The input frame output `k` starts from. */
  ghost function Base(k: nat, ratio: real): nat
    requires ratio > 0.0
  {
    PosOrder(k, k, ratio);
    Pos(k, ratio).Floor
  }

  /** The four frames around output `k` have arrived. */
  ghost predicate Reached(k: nat, ratio: real, n: nat)
    requires ratio > 0.0
  {
    Base(k, ratio) + 4 <= n
  }

  /** Output frame `k` of resampling the whole input: the interpolation at input position `k * ratio`. */
  ghost function Reference(channels: nat, xs: seq<Frame>, ratio: real, k: nat): Frame
    requires ratio > 0.0 && Wide(xs, channels) && Reached(k, ratio, |xs|)
  {
    var i := Base(k, ratio);
    Between(channels, xs[i..i + 4], Pos(k, ratio) - i as real)
  }

  /** `n` inputs yield `count` outputs: the first position beyond the last window is number `count`. */
  ghost predicate CountFor(count: nat, ratio: real, n: nat) {
    Pos(count, ratio) >= n as real - 3.0 && (count > 0 ==> Pos(count - 1, ratio) < n as real - 3.0)
  }

  /** `f` is output frame `k`. */
  ghost predicate IsFrame(channels: nat, xs: seq<Frame>, ratio: real, k: nat, f: Frame)
    requires ratio > 0.0 && Wide(xs, channels)
  {
    Reached(k, ratio, |xs|) && f == Reference(channels, xs, ratio, k)
  }

  /** Frames `k`, `k + 1`, ... of the direct formula. */
  ghost predicate DirectFrom(channels: nat, xs: seq<Frame>, ratio: real, k: nat, out: seq<Frame>)
    requires ratio > 0.0 && Wide(xs, channels)
  {
    forall j :: 0 <= j < |out| ==> IsFrame(channels, xs, ratio, k + j, out[j])
  }

  /** The window ends with the last frames received. */
  ghost predicate Recent(h: seq<Frame>, xs: seq<Frame>) {
    var m := Min(|xs|, 4);
    |h| == 4 && h[4 - m..] == xs[|xs| - m..]
  }

  lemma RecentNone(h: seq<Frame>)
    requires |h| == 4
    ensures Recent(h, [])
  {
  }

  lemma RecentNext(h: seq<Frame>, xs: seq<Frame>, x: Frame)
    requires Recent(h, xs)
    ensures Recent(h[1..] + [x], xs + [x])
    ensures |xs| >= 3 ==> h[1..] + [x] == (xs + [x])[|xs| - 3..]
  {
    if |xs| < 4 { RecentFills(h, xs, x); } else { RecentMoves(h, xs, x); }
  }

  lemma RecentFills(h: seq<Frame>, xs: seq<Frame>, x: Frame)
    requires |xs| < 4 && |h| == 4 && h[4 - |xs|..] == xs
    ensures (h[1..] + [x])[3 - |xs|..] == xs + [x]
  {
    assert (h[1..] + [x])[3 - |xs|..] == h[4 - |xs|..] + [x];
  }

  lemma RecentMoves(h: seq<Frame>, xs: seq<Frame>, x: Frame)
    requires |xs| >= 4 && h == xs[|xs| - 4..]
    ensures h[1..] + [x] == (xs + [x])[|xs| - 3..]
  {
    assert xs[|xs| - 4..][1..] == xs[|xs| - 3..];
  }

  /** Everything the stream has produced from `xs`. */
  ghost predicate Direct(xs: seq<Frame>, ratio: real, s: State, out: seq<Frame>)
    requires ratio > 0.0 && Wide(xs, s.channels)
  {
    && s.primed == Min(|xs|, 4) && Recent(s.history, xs)
    && (if |xs| < 3 then out == [] && s.phase == 0.0
        else s.phase == Pos(|out|, ratio) - (|xs| as real - 3.0) && CountFor(|out|, ratio, |xs|))
    && DirectFrom(s.channels, xs, ratio, 0, out)
  }

  /** The current window gives output `k` while its position is inside. */
  lemma WindowIsReference(channels: nat, xs: seq<Frame>, ratio: real, k: nat)
    requires ratio > 0.0 && Wide(xs, channels) && |xs| >= 4
    requires |xs| as real - 4.0 <= Pos(k, ratio) < |xs| as real - 3.0
    ensures Reached(k, ratio, |xs|)
    ensures Reference(channels, xs, ratio, k) == Between(channels, xs[|xs| - 4..], Pos(k, ratio) - (|xs| as real - 4.0))
  {
    hide Pos, Between;
    assert Base(k, ratio) == |xs| - 4;
    assert xs[|xs| - 4..|xs|] == xs[|xs| - 4..];
  }

  lemma DirectCons(channels: nat, xs: seq<Frame>, ratio: real, k: nat, f: Frame, rest: seq<Frame>)
    requires ratio > 0.0 && Wide(xs, channels) && DirectFrom(channels, xs, ratio, k + 1, rest)
    requires IsFrame(channels, xs, ratio, k, f)
    ensures DirectFrom(channels, xs, ratio, k, [f] + rest)
  {
    hide IsFrame;
    var out := [f] + rest;
    forall j | 0 <= j < |out| ensures IsFrame(channels, xs, ratio, k + j, out[j]) {
      if j > 0 { assert out[j] == rest[j - 1] && k + j == k + 1 + (j - 1); }
    }
  }

  /** The frames emitted for one input are the next ones of the direct formula. */
  lemma {:induction false} EmitDirect(channels: nat, xs: seq<Frame>, ratio: real, k: nat)
    requires ratio > 0.0 && Wide(xs, channels) && |xs| >= 4 && Pos(k, ratio) >= |xs| as real - 4.0
    ensures var (out, last) := Emit(channels, xs[|xs| - 4..], Pos(k, ratio) - (|xs| as real - 4.0), ratio);
            && last == Pos(k + |out|, ratio) - (|xs| as real - 4.0)
            && (out != [] ==> Pos(k + |out| - 1, ratio) < |xs| as real - 3.0)
            && DirectFrom(channels, xs, ratio, k, out)
    decreases Steps(Pos(k, ratio) - (|xs| as real - 4.0), ratio)
  {
    hide Pos, Between, Reached, Reference, DirectFrom;
    var w, phase := xs[|xs| - 4..], Pos(k, ratio) - (|xs| as real - 4.0);
    if phase < 1.0 {
      OneLess(phase, ratio);
      NextPos(k, ratio);
      assert phase + ratio == Pos(k + 1, ratio) - (|xs| as real - 4.0);
      EmitDirect(channels, xs, ratio, k + 1);
      WindowIsReference(channels, xs, ratio, k);
      var rest := Emit(channels, w, phase + ratio, ratio).0;
      DirectCons(channels, xs, ratio, k, Between(channels, w, phase), rest);
      assert k + 1 + |rest| == k + |[Between(channels, w, phase)] + rest|;
    } else {
      DirectNone(channels, xs, ratio, k);
    }
  }

  lemma DirectNone(channels: nat, xs: seq<Frame>, ratio: real, k: nat)
    requires ratio > 0.0 && Wide(xs, channels)
    ensures DirectFrom(channels, xs, ratio, k, [])
  {
  }

  /** More input does not change frames already determined. */
  lemma FrameStable(channels: nat, xs: seq<Frame>, x: Frame, ratio: real, k: nat, f: Frame)
    requires ratio > 0.0 && Wide(xs, channels) && |x| == channels && IsFrame(channels, xs, ratio, k, f)
    ensures Wide(xs + [x], channels) && IsFrame(channels, xs + [x], ratio, k, f)
  {
    hide Pos, Between;
    var i := Base(k, ratio);
    assert (xs + [x])[i..i + 4] == xs[i..i + 4];
  }

  lemma DirectStable(channels: nat, xs: seq<Frame>, x: Frame, ratio: real, out: seq<Frame>)
    requires ratio > 0.0 && Wide(xs, channels) && |x| == channels && DirectFrom(channels, xs, ratio, 0, out)
    ensures Wide(xs + [x], channels) && DirectFrom(channels, xs + [x], ratio, 0, out)
  {
    hide IsFrame;
    forall j | 0 <= j < |out| ensures IsFrame(channels, xs + [x], ratio, 0 + j, out[j]) {
      FrameStable(channels, xs, x, ratio, j, out[j]);
    }
  }

  lemma DirectAppend(channels: nat, xs: seq<Frame>, ratio: real, out: seq<Frame>, more: seq<Frame>)
    requires ratio > 0.0 && Wide(xs, channels)
    requires DirectFrom(channels, xs, ratio, 0, out) && DirectFrom(channels, xs, ratio, |out|, more)
    ensures DirectFrom(channels, xs, ratio, 0, out + more)
  {
    hide IsFrame;
    var all := out + more;
    forall j | 0 <= j < |all| ensures IsFrame(channels, xs, ratio, 0 + j, all[j]) {
      if j >= |out| { assert all[j] == more[j - |out|] && |out| + (j - |out|) == 0 + j; }
      else { assert all[j] == out[j]; }
    }
  }

  lemma StepShape(s: State, x: Frame, ratio: real)
    requires ratio > 0.0 && Valid(s) && |x| == s.channels && s.primed >= 3
    ensures var w := s.history[1..] + [x];
            var (more, last) := Emit(s.channels, w, s.phase, ratio);
            Step(s, x, ratio) == (State(s.channels, w, last - 1.0, 4), more)
  {
    hide Emit;
  }

  /** The positions and counts after the frames `more`. */
  lemma CountAfter(count: nat, more: nat, ratio: real, n: nat, last: real)
    requires n >= 4 && last >= 1.0 && last == Pos(count + more, ratio) - (n as real - 4.0)
    requires more > 0 ==> Pos(count + more - 1, ratio) < n as real - 3.0
    requires more == 0 && count > 0 ==> Pos(count - 1, ratio) < n as real - 4.0
    ensures last - 1.0 == Pos(count + more, ratio) - (n as real - 3.0) && CountFor(count + more, ratio, n)
  {
    hide Pos;
  }

  lemma CountBelow(count: nat, ratio: real, n: nat)
    requires CountFor(count, ratio, n)
    ensures Pos(count, ratio) >= n as real - 3.0 && (count > 0 ==> Pos(count - 1, ratio) < n as real - 3.0)
  {
  }

  /** The frames one more input emits, after those of the inputs before. */
  lemma DirectNext(channels: nat, ys: seq<Frame>, ratio: real, out: seq<Frame>, phase: real)
    requires ratio > 0.0 && Wide(ys, channels) && |ys| >= 4
    requires DirectFrom(channels, ys, ratio, 0, out) && CountFor(|out|, ratio, |ys| - 1)
    requires phase == Pos(|out|, ratio) - (|ys| as real - 4.0)
    ensures var (more, last) := Emit(channels, ys[|ys| - 4..], phase, ratio);
            && DirectFrom(channels, ys, ratio, 0, out + more)
            && last - 1.0 == Pos(|out + more|, ratio) - (|ys| as real - 3.0)
            && CountFor(|out + more|, ratio, |ys|)
  {
    hide Pos, DirectFrom, CountFor;
    var k := |out|;
    CountBelow(k, ratio, |ys| - 1);
    EmitDirect(channels, ys, ratio, k);
    var (more, last) := Emit(channels, ys[|ys| - 4..], phase, ratio);
    CountAfter(k, |more|, ratio, |ys|, last);
    DirectAppend(channels, ys, ratio, out, more);
    assert |out + more| == k + |more|;
  }

  /** `Direct` from its parts, for a stream that has filled its window. */
  lemma DirectParts(xs: seq<Frame>, ratio: real, s: State, out: seq<Frame>)
    requires ratio > 0.0 && Wide(xs, s.channels) && |xs| >= 4 && s.primed == 4 && Recent(s.history, xs)
    requires s.phase == Pos(|out|, ratio) - (|xs| as real - 3.0) && CountFor(|out|, ratio, |xs|)
    requires DirectFrom(s.channels, xs, ratio, 0, out)
    ensures Direct(xs, ratio, s, out)
  {
    hide Pos, CountFor, DirectFrom, Recent;
  }

  /** What a stream that has three frames knows when the next one comes. */
  lemma DirectOpens(xs: seq<Frame>, x: Frame, ratio: real, s: State, out: seq<Frame>)
    requires ratio > 0.0 && Wide(xs, s.channels) && |xs| >= 3 && Direct(xs, ratio, s, out)
    ensures s.primed >= 3 && Recent(s.history, xs) && DirectFrom(s.channels, xs, ratio, 0, out)
    ensures CountFor(|out|, ratio, |xs + [x]| - 1) && s.phase == Pos(|out|, ratio) - (|xs + [x]| as real - 4.0)
  {
    hide Pos, DirectFrom, Recent, CountFor, Wide;
    assert |xs + [x]| == |xs| + 1;
  }

  /** A frame that fills the window or moves it on. */
  lemma StepMoves(xs: seq<Frame>, x: Frame, ratio: real, s: State, out: seq<Frame>)
    requires ratio > 0.0 && Valid(s) && Wide(xs, s.channels) && |x| == s.channels && Direct(xs, ratio, s, out)
    requires |xs| >= 3
    ensures Wide(xs + [x], s.channels) && Direct(xs + [x], ratio, Step(s, x, ratio).0, out + Step(s, x, ratio).1)
  {
    hide Pos, IsFrame, DirectFrom, Emit, Recent, Step, CountFor, Valid, Direct, Wide;
    var ys := xs + [x];
    DirectOpens(xs, x, ratio, s, out);
    RecentNext(s.history, xs, x);
    DirectStable(s.channels, xs, x, ratio, out);
    StepShape(s, x, ratio);
    DirectNext(s.channels, ys, ratio, out, s.phase);
    DirectParts(ys, ratio, Step(s, x, ratio).0, out + Step(s, x, ratio).1);
  }

  lemma StepDirect(xs: seq<Frame>, x: Frame, ratio: real, s: State, out: seq<Frame>)
    requires ratio > 0.0 && Valid(s) && Wide(xs, s.channels) && |x| == s.channels && Direct(xs, ratio, s, out)
    ensures Wide(xs + [x], s.channels) && Direct(xs + [x], ratio, Step(s, x, ratio).0, out + Step(s, x, ratio).1)
  {
    hide Pos, IsFrame, Emit, Recent;
    if |xs| >= 3 {
      StepMoves(xs, x, ratio, s, out);
    } else {
      RecentNext(s.history, xs, x);
      NextPos(0, ratio);
      assert out + Step(s, x, ratio).1 == [];
    }
  }

  /** The stream produces, frame for frame, the direct formula, whatever the ratio. */
  lemma {:induction false} StreamIsDirect(channels: nat, xs: seq<Frame>, ratio: real)
    requires ratio > 0.0 && Wide(xs, channels)
    ensures var (s, out) := Resample(Init(channels), xs, ratio); Direct(xs, ratio, s, out)
  {
    hide Step, Recent, IsFrame, Pos, Valid;
    if xs == [] {
      NextPos(0, ratio);
      RecentNone(Init(channels).history);
    } else {
      hide Direct;
      var n := |xs| - 1;
      StreamIsDirect(channels, xs[..n], ratio);
      var (s, out) := Resample(Init(channels), xs[..n], ratio);
      StepDirect(xs[..n], xs[n], ratio, s, out);
      assert xs[..n] + [xs[n]] == xs;
    }
  }

  // ---------------------------------------------------------------- what is interpolated

  /** The polynomial `a + b t + c t^2 + d t^3` and its slope. */
  datatype Cubic = Cubic(a: real, b: real, c: real, d: real) {
    function Value(t: real): real { a + b * t + c * t * t + d * t * t * t }

    function Slope(t: real): real { b + 2.0 * c * t + 3.0 * d * t * t }
  }

  /** It runs from the second to the third of four samples, with the slopes their neighbours suggest. */
  ghost predicate Joins(p: Cubic, y0: real, y1: real, y2: real, y3: real) {
    && p.Value(0.0) == y1 && p.Slope(0.0) == (y2 - y0) / 2.0
    && p.Value(1.0) == y2 && p.Slope(1.0) == (y3 - y1) / 2.0
  }

  /** Values and slopes at both ends determine a cubic. */
  lemma JoinsOnce(p: Cubic, q: Cubic, y0: real, y1: real, y2: real, y3: real)
    requires Joins(p, y0, y1, y2, y3) && Joins(q, y0, y1, y2, y3)
    ensures p == q
  {
  }

  lemma HermiteJoins(y0: real, y1: real, y2: real, y3: real, t: real) returns (p: Cubic)
    ensures Joins(p, y0, y1, y2, y3) && Hermite(y0, y1, y2, y3, t) == p.Value(t)
  {
    p := Cubic(y1, 0.5 * (y2 - y0), y0 - 2.5 * y1 + 2.0 * y2 - 0.5 * y3, 0.5 * (y3 - y0) + 1.5 * (y1 - y2));
    Horner(p, t);
  }

  lemma Horner(p: Cubic, t: real)
    ensures ((p.d * t + p.c) * t + p.b) * t + p.a == p.Value(t)
  {
    assert (p.d * t + p.c) * t == p.d * t * t + p.c * t;
    assert ((p.d * t + p.c) * t + p.b) * t == p.d * t * t * t + p.c * t * t + p.b * t;
  }

  /** A frame of the direct formula lies, in every channel, on the cubic that joins its four input frames. */
  lemma FrameJoins(channels: nat, xs: seq<Frame>, ratio: real, k: nat, f: Frame, c: nat) returns (i: nat, p: Cubic)
    requires ratio > 0.0 && Wide(xs, channels) && c < channels && IsFrame(channels, xs, ratio, k, f)
    ensures i as real <= k as real * ratio < i as real + 1.0 && i + 4 <= |xs|
    ensures Joins(p, xs[i][c], xs[i + 1][c], xs[i + 2][c], xs[i + 3][c])
    ensures |f| == channels && f[c] == p.Value(k as real * ratio - i as real)
  {
    hide Joins, Hermite;
    i := Base(k, ratio);
    var w, t := xs[i..i + 4], Pos(k, ratio) - i as real;
    assert w[0] == xs[i] && w[1] == xs[i + 1] && w[2] == xs[i + 2] && w[3] == xs[i + 3];
    assert f == Between(channels, w, t);
    assert f[c] == Hermite(w[0][c], w[1][c], w[2][c], w[3][c], t);
    p := HermiteJoins(w[0][c], w[1][c], w[2][c], w[3][c], t);
  }

  lemma StreamFrame(channels: nat, xs: seq<Frame>, ratio: real, k: nat)
    requires ratio > 0.0 && Wide(xs, channels) && k < |Resample(Init(channels), xs, ratio).1|
    ensures IsFrame(channels, xs, ratio, k, Resample(Init(channels), xs, ratio).1[k])
  {
    hide Resample, IsFrame, Recent, CountFor;
    StreamIsDirect(channels, xs, ratio);
    assert IsFrame(channels, xs, ratio, 0 + k, Resample(Init(channels), xs, ratio).1[k]);
  }

  /** Output frame `k` reads the input at position `k * ratio`, counted from the second frame: on the cubic
      that joins the frames on either side. */
  lemma StreamJoins(channels: nat, xs: seq<Frame>, ratio: real, k: nat, c: nat) returns (i: nat, p: Cubic)
    requires ratio > 0.0 && Wide(xs, channels) && c < channels
    requires k < |Resample(Init(channels), xs, ratio).1|
    ensures i as real <= k as real * ratio < i as real + 1.0 && i + 4 <= |xs|
    ensures Joins(p, xs[i][c], xs[i + 1][c], xs[i + 2][c], xs[i + 3][c])
    ensures |Resample(Init(channels), xs, ratio).1[k]| == channels
    ensures Resample(Init(channels), xs, ratio).1[k][c] == p.Value(k as real * ratio - i as real)
  {
    hide Resample, Joins, IsFrame;
    StreamFrame(channels, xs, ratio, k);
    i, p := FrameJoins(channels, xs, ratio, k, Resample(Init(channels), xs, ratio).1[k], c);
  }

  /** At ratio one the frames come out unchanged, from the second on. */
  lemma UnitRatioCopies(channels: nat, xs: seq<Frame>, k: nat)
    requires Wide(xs, channels) && k < |Resample(Init(channels), xs, 1.0).1|
    ensures k + 1 < |xs| && Resample(Init(channels), xs, 1.0).1[k] == xs[k + 1]
  {
    hide Resample, Joins, Reference;
    StreamFrame(channels, xs, 1.0, k);
    var out := Resample(Init(channels), xs, 1.0).1;
    assert Base(k, 1.0) == k;
    assert |out[k]| == channels by { WideFrame(channels, xs, 1.0, k, out[k]); }
    hide IsFrame;
    forall c: nat | c < channels ensures out[k][c] == xs[k + 1][c] {
      var i, p := StreamJoins(channels, xs, 1.0, k, c);
      assert i == k;
      ValueAtZero(p, xs[i][c], xs[i + 1][c], xs[i + 2][c], xs[i + 3][c]);
    }
  }

  lemma WideFrame(channels: nat, xs: seq<Frame>, ratio: real, k: nat, f: Frame)
    requires ratio > 0.0 && Wide(xs, channels) && IsFrame(channels, xs, ratio, k, f)
    ensures |f| == channels
  {
    hide Pos;
  }

  lemma ValueAtZero(p: Cubic, y0: real, y1: real, y2: real, y3: real)
    requires Joins(p, y0, y1, y2, y3)
    ensures p.Value(0.0) == y1
  {
  }

  /** `a x^2 + b x + c`. */
  function Quadratic(a: real, b: real, c: real, x: real): real { a * x * x + b * x + c }

  /** The part of a quadratic from `u` on. */
  lemma QuadraticJoins(a: real, b: real, c: real, u: real, t: real) returns (p: Cubic)
    ensures Joins(p, Quadratic(a, b, c, u - 1.0), Quadratic(a, b, c, u), Quadratic(a, b, c, u + 1.0), Quadratic(a, b, c, u + 2.0))
    ensures p.Value(t) == Quadratic(a, b, c, u + t)
  {
    p := Cubic(Quadratic(a, b, c, u), 2.0 * a * u + b, a, 0.0);
    QuadraticMoves(a, b, c, u, -1.0);
    QuadraticMoves(a, b, c, u, 1.0);
    QuadraticMoves(a, b, c, u, 2.0);
    QuadraticMoves(a, b, c, u, t);
  }

  lemma QuadraticMoves(a: real, b: real, c: real, u: real, t: real)
    ensures Quadratic(a, b, c, u + t) == Quadratic(a, b, c, u) + (2.0 * a * u + b) * t + a * t * t
  {
    assert (u + t) * (u + t) == u * u + 2.0 * u * t + t * t;
    assert a * (u + t) * (u + t) == a * ((u + t) * (u + t));
    assert (2.0 * a * u + b) * t == 2.0 * a * u * t + b * t;
  }

  /** A channel that is a quadratic of the frame number is resampled exactly. */
  lemma QuadraticsExact(channels: nat, xs: seq<Frame>, ratio: real, k: nat, c: nat, q2: real, q1: real, q0: real)
    requires ratio > 0.0 && Wide(xs, channels) && c < channels
    requires forall i: nat :: i < |xs| ==> xs[i][c] == Quadratic(q2, q1, q0, i as real)
    requires k < |Resample(Init(channels), xs, ratio).1|
    ensures |Resample(Init(channels), xs, ratio).1[k]| == channels
    ensures Resample(Init(channels), xs, ratio).1[k][c] == Quadratic(q2, q1, q0, k as real * ratio + 1.0)
  {
    hide Resample, Joins, Quadratic;
    var i, p := StreamJoins(channels, xs, ratio, k, c);
    var u := i as real + 1.0;
    var t := k as real * ratio - i as real;
    var q := QuadraticJoins(q2, q1, q0, u, t);
    assert (i + 1) as real == u && (i + 2) as real == u + 1.0 && (i + 3) as real == u + 2.0 && i as real == u - 1.0;
    JoinsOnce(p, q, xs[i][c], xs[i + 1][c], xs[i + 2][c], xs[i + 3][c]);
    assert u + t == k as real * ratio + 1.0;
  }

  // ---------------------------------------------------------------- how much comes out

  /** The smallest integer not below `x`. */
  function Ceil(x: real): int { -((-x).Floor) }

  lemma CountIsCeil(count: nat, ratio: real, n: nat)
    requires ratio > 0.0 && n >= 3 && CountFor(count, ratio, n)
    ensures count == Ceil((n as real - 3.0) / ratio)
  {
    hide Pos;
    var a := n as real - 3.0;
    PosAtLeast(count, ratio, a);
    if count > 0 { PosBelow(count - 1, ratio, a); } else { Quotient(a, ratio); }
    FloorIs(-(a / ratio), 0 - count);
  }

  lemma Quotient(a: real, b: real)
    requires b > 0.0
    ensures a / b * b == a && (a >= 0.0 ==> a / b >= 0.0)
  {
  }

  lemma PosAtLeast(k: nat, ratio: real, a: real)
    requires ratio > 0.0 && Pos(k, ratio) >= a
    ensures k as real >= a / ratio
  {
    Quotient(a, ratio);
    Compare(a / ratio, k as real, ratio);
  }

  lemma PosBelow(k: nat, ratio: real, a: real)
    requires ratio > 0.0 && Pos(k, ratio) < a
    ensures (k as real) < a / ratio
  {
    Quotient(a, ratio);
    Compare(k as real, a / ratio, ratio);
  }

  lemma FloorIs(x: real, k: int)
    requires k as real <= x < k as real + 1.0
    ensures x.Floor == k
  {
  }

  lemma Compare(x: real, y: real, ratio: real)
    requires ratio > 0.0
    ensures x * ratio <= y * ratio <==> x <= y
    ensures x * ratio < y * ratio <==> x < y
  {
  }

  /** However the input is split, exactly ceil((n - 3) / ratio) frames come out of `n >= 3` frames, and
      none of fewer. */
  lemma ExactCount(channels: nat, xs: seq<Frame>, ratio: real)
    requires ratio > 0.0 && Wide(xs, channels)
    ensures |Resample(Init(channels), xs, ratio).1| == if |xs| < 3 then 0 else Ceil((|xs| as real - 3.0) / ratio)
  {
    StreamIsDirect(channels, xs, ratio);
    if |xs| >= 3 { CountIsCeil(|Resample(Init(channels), xs, ratio).1|, ratio, |xs|); }
  }

  // ---------------------------------------------------------------- under a changing ratio

  lemma {:induction false} EmitAdvances(channels: nat, w: seq<Frame>, phase: real, ratio: real)
    requires ratio > 0.0 && |w| == 4 && forall i :: 0 <= i < 4 ==> |w[i]| == channels
    ensures var (out, last) := Emit(channels, w, phase, ratio); last == phase + Pos(|out|, ratio)
    decreases Steps(phase, ratio)
  {
    hide Pos, Between;
    NextPos(0, ratio);
    if phase < 1.0 {
      OneLess(phase, ratio);
      EmitAdvances(channels, w, phase + ratio, ratio);
      NextPos(|Emit(channels, w, phase + ratio, ratio).0|, ratio);
    }
  }

  lemma PosAdds(j: nat, k: nat, ratio: real)
    ensures Pos(j + k, ratio) == Pos(j, ratio) + Pos(k, ratio)
  {
    assert (j + k) as real == j as real + k as real;
  }

  lemma StepAdvances(s: State, x: Frame, ratio: real)
    requires ratio > 0.0 && Valid(s) && |x| == s.channels && s.primed >= 3
    ensures var (s1, out) := Step(s, x, ratio);
            s1.primed == 4 && s1.phase == s.phase + Pos(|out|, ratio) - 1.0
  {
    hide Pos, Emit;
    EmitAdvances(s.channels, s.history[1..] + [x], s.phase, ratio);
  }

  /** Once the window is full, a call moves the read position by exactly the ratio for each frame it
      emits and back by one for each frame it consumes, so a varying ratio neither drops nor repeats input. */
  lemma {:induction false} PositionConserved(s: State, xs: seq<Frame>, ratio: real)
    requires ratio > 0.0 && Valid(s) && Wide(xs, s.channels) && s.primed >= 3
    ensures var (s1, out) := Resample(s, xs, ratio);
            s1.primed >= 3 && s1.phase == s.phase + Pos(|out|, ratio) - |xs| as real
  {
    hide Pos, Step;
    if xs == [] {
      NextPos(0, ratio);
    } else {
      var n := |xs| - 1;
      PositionConserved(s, xs[..n], ratio);
      var (s1, out) := Resample(s, xs[..n], ratio);
      StepAdvances(s1, xs[n], ratio);
      PosAdds(|out|, |Step(s1, xs[n], ratio).1|, ratio);
    }
  }

  // ---------------------------------------------------------------- the objects

  /** The frames `out` have been read since position `from`. */
  ghost predicate Emitted(channels: nat, w: seq<Frame>, from: real, ratio: real, out: seq<Frame>, phase: real)
    requires ratio > 0.0 && |w| == 4 && forall i :: 0 <= i < 4 ==> |w[i]| == channels
  {
    var (rest, last) := Emit(channels, w, phase, ratio);
    Emit(channels, w, from, ratio) == (out + rest, last)
  }

  lemma EmitStart(channels: nat, w: seq<Frame>, from: real, ratio: real)
    requires ratio > 0.0 && |w| == 4 && forall i :: 0 <= i < 4 ==> |w[i]| == channels
    ensures Emitted(channels, w, from, ratio, [], from)
  {
    hide Emit;
    assert [] + Emit(channels, w, from, ratio).0 == Emit(channels, w, from, ratio).0;
  }

  lemma EmitNext(channels: nat, w: seq<Frame>, from: real, ratio: real, out: seq<Frame>, phase: real)
    requires ratio > 0.0 && |w| == 4 && forall i :: 0 <= i < 4 ==> |w[i]| == channels
    requires phase < 1.0 && Emitted(channels, w, from, ratio, out, phase)
    ensures Emitted(channels, w, from, ratio, out + [Between(channels, w, phase)], phase + ratio)
  {
    hide Between;
    var f, rest := Between(channels, w, phase), Emit(channels, w, phase + ratio, ratio).0;
    assert Emit(channels, w, phase, ratio).0 == [f] + rest;
    assert out + ([f] + rest) == out + [f] + rest;
  }

  lemma EmitDone(channels: nat, w: seq<Frame>, from: real, ratio: real, out: seq<Frame>, phase: real)
    requires ratio > 0.0 && |w| == 4 && forall i :: 0 <= i < 4 ==> |w[i]| == channels
    requires phase >= 1.0 && Emitted(channels, w, from, ratio, out, phase)
    ensures Emit(channels, w, from, ratio) == (out, phase)
  {
    assert Emit(channels, w, phase, ratio) == ([], phase);
    assert out + [] == out;
  }

  class FractionalResampler {
    const channels: nat
    var history: seq<Frame>
    var phase: real
    var primed: nat

    ghost function Abs(): State reads this { State(channels, history, phase, primed) }

    constructor (n: nat)
      ensures Abs() == Init(Max(n, 1))
    {
      channels := Max(n, 1);
      history := [Zero(Max(n, 1)), Zero(Max(n, 1)), Zero(Max(n, 1)), Zero(Max(n, 1))];
      phase, primed := 0.0, 0;
    }

    /** Resample `input`, appending to `output`. */
    method Process(input: seq<Frame>, ratio: real, output: seq<Frame>) returns (r: seq<Frame>)
      requires ratio > 0.0 && Valid(Abs()) && Wide(input, channels)
      modifies this
      ensures Valid(Abs()) && Abs() == Resample(old(Abs()), input, ratio).0
      ensures r == output + Resample(old(Abs()), input, ratio).1
    {
      r := output;
      ghost var was := Abs();
      for f := 0 to |input|
        invariant Valid(Abs()) && Resample(was, input[..f], ratio).0 == Abs()
        invariant r == output + Resample(was, input[..f], ratio).1
      {
        hide Step;
        assert input[..f + 1][..f] == input[..f] && input[..f + 1][f] == input[f];
        var more := Push(input[f], ratio);
        r := r + more;
      }
      assert input[..|input|] == input;
    }

    /** One frame into the window, and the output frames that lie in it. */
    method Push(x: Frame, ratio: real) returns (out: seq<Frame>)
      requires ratio > 0.0 && Valid(Abs()) && |x| == channels
      modifies this
      ensures Valid(Abs()) && (Abs(), out) == Step(old(Abs()), x, ratio)
    {
      hide Emit;
      history := history[1..] + [x];
      primed := Min(primed + 1, 4);
      out := [];
      if primed == 4 {
        out := EmitFrames(ratio);
        phase := phase - 1.0;
      }
    }

    /** The frames read before the position passes the third frame of the window. */
    method EmitFrames(ratio: real) returns (out: seq<Frame>)
      requires ratio > 0.0 && Valid(Abs())
      modifies `phase
      ensures (out, phase) == Emit(channels, history, old(phase), ratio)
    {
      hide Emit, Between;
      out := [];
      EmitStart(channels, history, phase, ratio);
      while phase < 1.0
        invariant Emitted(channels, history, old(phase), ratio, out, phase)
        decreases Steps(phase, ratio)
      {
        OneLess(phase, ratio);
        EmitNext(channels, history, old(phase), ratio, out, phase);
        out := out + [Between(channels, history, phase)];
        phase := phase + ratio;
      }
      EmitDone(channels, history, old(phase), ratio, out, phase);
    }

    method Reset()
      modifies this
      ensures Abs() == Init(channels)
    {
      history := [Zero(channels), Zero(channels), Zero(channels), Zero(channels)];
      phase, primed := 0.0, 0;
    }
  }
}
