/**
 The adaptive jitter buffer (sp-media/src/jitter.rs): its state and what each operation
 does to it. The in-place implementation is in JitterBuffer.dfy, the theorems in JitterTheorems.dfy.
 */
module Jitter {
  import opened Common

  /** Interleaved samples; a Rust vector is shorter than 2^64. */
  type Frame = f: seq<real> | |f| <= U64_MAX

  const MAX_FRAMES: nat := 1024
  const MAX_CONCEAL_FRAMES: nat := 5
  const WINDOW: nat := 512
  const U32_MAX: nat := 0xFFFF_FFFF
  const TWO64: nat := 0x1_0000_0000_0000_0000

  type u32 = n: int | 0 <= n <= U32_MAX

  /** Twice a frame's length fits a machine word. */
  type FrameSize = n: int | 0 <= n <= U64_MAX / 2

  datatype Config = Config(channels: u64, frameSamples: FrameSize, minDelayMs: u32, maxDelayMs: u32)

  datatype Stats = Stats(received: nat, played: nat, missing: nat, late: nat, underruns: nat, silent: nat)

  datatype Status = Played | Missing | Buffering | Silence

  /** The deviation window behind the adaptive target. */
  datatype Estimate = Estimate(lastTransit: Option<int>, deviations: seq<u32>, cursor: nat)

  datatype State = State(
    cfg: Config,
    frames: map<u64, Frame>,
    playTs: Option<u64>,
    newestEnd: u64,
    buffering: bool,
    silent: bool,
    consecutiveMissing: nat,
    target: u64,
    estimate: Estimate,
    stats: Stats)

  /** Milliseconds to samples: 48_000 * ms / 1000, which is exact at 48 kHz. */
  function MsToSamples(ms: u32): u64 { 48 * ms }

  function Channels(cfg: Config): nat { Max(cfg.channels, 1) }

  /** Samples per channel of a frame. */
  function FrameLen(cfg: Config, frame: Frame): nat { Whole(|frame|, Channels(cfg)) }

  /** Integer division, by repeated subtraction: how many groups of `d` fit in `n`. */
  function Whole(n: nat, d: nat): (q: nat)
    requires d > 0
    ensures q <= n
  {
    if n < d then 0 else 1 + Whole(n - d, d)
  }

  lemma {:induction false} WholeIsDivision(n: nat, d: nat)
    requires d > 0
    ensures Whole(n, d) == n / d
  {
    WholeRemainder(n, d);
    QuotientUnique(d, Whole(n, d), n / d, n - d * Whole(n, d), n % d);
  }

  /** A frame of `n` interleaved samples is `n` over the number of channels long; no channels count as one. */
  lemma FrameLenIs(cfg: Config, frame: Frame)
    ensures FrameLen(cfg, frame) == |frame| / if cfg.channels == 0 then 1 else cfg.channels
  {
    WholeIsDivision(|frame|, Channels(cfg));
  }

  lemma {:induction false} WholeRemainder(n: nat, d: nat)
    requires d > 0
    ensures 0 <= n - d * Whole(n, d) < d
  {
    if n >= d { WholeRemainder(n - d, d); }
  }

  function TargetMin(cfg: Config): u64 { Max(MsToSamples(cfg.minDelayMs), cfg.frameSamples) }

  function TargetMax(cfg: Config): u64 { Max(MsToSamples(cfg.maxDelayMs), TargetMin(cfg)) }

  function ClampTarget(cfg: Config, samples: u64): u64 {
    if samples < TargetMin(cfg) then TargetMin(cfg)
    else if samples > TargetMax(cfg) then TargetMax(cfg)
    else samples
  }

  /** Buffered beyond this, the receiver jumps forward. */
  function JumpLimit(cfg: Config): nat { MsToSamples(cfg.maxDelayMs) + MsToSamples(200) }

  function Init(cfg: Config): State {
    State(cfg, map[], None, 0, true, false, 0, TargetMin(cfg), Estimate(None, [], 0), Stats(0, 0, 0, 0, 0, 0))
  }

  // ---------------------------------------------------------------- jitter estimate

  /** Two's-complement wrap to 64 bits. */
  function WrapI64(x: int): (r: int)
    ensures -0x8000_0000_0000_0000 <= r < 0x8000_0000_0000_0000 && (x - r) % 0x1_0000_0000_0000_0000 == 0
  {
    var m := x % TWO64;
    if m >= TWO64 / 2 then m - TWO64 else m
  }

  function Abs(x: int): nat { if x < 0 then -x else x }

  /** Append to the deviation window until it is full, then overwrite round robin. */
  function Observe(e: Estimate, ts: u64, arrival: u64): Estimate {
    var transit := WrapI64(arrival - ts);
    if e.lastTransit.None? then e.(lastTransit := Some(transit)) else
    var d: u32 := Min(Abs(WrapI64(transit - e.lastTransit.value)), U32_MAX);
    if |e.deviations| < WINDOW then Estimate(Some(transit), e.deviations + [d], e.cursor)
    else if e.cursor < |e.deviations| then
      Estimate(Some(transit), e.deviations[e.cursor := d], (e.cursor + 1) % WINDOW)
    else e.(lastTransit := Some(transit))
  }

  function Insert(x: u32, xs: seq<u32>): seq<u32> {
    if xs == [] || x <= xs[0] then [x] + xs else [xs[0]] + Insert(x, xs[1..])
  }

  function Sorted(xs: seq<u32>): (r: seq<u32>)
    ensures |r| == |xs|
  {
    if xs == [] then [] else
    InsertLength(xs[0], Sorted(xs[1..]));
    Insert(xs[0], Sorted(xs[1..]))
  }

  lemma InsertLength(x: u32, xs: seq<u32>)
    ensures |Insert(x, xs)| == |xs| + 1
  {
  }

  /** The 98th percentile of the window: index `round(0.98 * (n - 1))` of the sorted deviations. */
  function Percentile98(xs: seq<u32>): u32 {
    if xs == [] then 0 else
    var idx := (196 * (|xs| - 1) + 100) / 200;
    Sorted(xs)[Min(idx, |xs| - 1)]
  }

  // ---------------------------------------------------------------- push

  /** At most MAX_FRAMES frames: the oldest are discarded and counted late. */
  ghost function Cap(s: State): State
    decreases |s.frames|
  {
    if |s.frames| <= MAX_FRAMES then s else
    var f := First(s.frames.Keys);
    assert (s.frames - {f}).Keys == s.frames.Keys - {f};
    Cap(s.(frames := s.frames - {f}, stats := s.stats.(late := s.stats.late + 1)))
  }

  function KeepFrom(frames: map<u64, Frame>, ts: u64): map<u64, Frame> {
    map k | k in frames && ts <= k :: frames[k]
  }

  ghost function FirstKey(frames: map<u64, Frame>): Option<u64> {
    if frames.Keys == {} then None else Some(First(frames.Keys))
  }

  ghost predicate JumpDue(s: State) {
    s.playTs.Some? && SatSub(s.newestEnd, s.playTs.value) > JumpLimit(s.cfg)
  }

  ghost function Jump(s: State): State {
    if !JumpDue(s) then s else
    var kept := KeepFrom(s.frames, SatSub(s.newestEnd, s.target));
    s.(frames := kept, playTs := FirstKey(kept))
  }

  predicate Late(s: State, ts: u64) { s.playTs.Some? && ts < s.playTs.value }

  /** Everything `push` does to a frame that is not late, before the jump. */
  ghost function Store(s: State, ts: u64, frame: Frame): State
  {
    Cap(s.(newestEnd := Max(s.newestEnd, SatAdd(ts, FrameLen(s.cfg, frame))), frames := s.frames[ts := frame]))
  }

  /** A frame arrived: counted, and its arrival time observed. */
  function Received(s: State, ts: u64, arrival: u64): State {
    s.(estimate := Observe(s.estimate, ts, arrival), stats := s.stats.(received := s.stats.received + 1))
  }

  ghost function Push(s: State, ts: u64, frame: Frame, arrival: u64): State
  {
    var s1 := Received(s, ts, arrival);
    if Late(s, ts) then s1.(stats := s1.stats.(late := s1.stats.late + 1))
    else Jump(Store(s1, ts, frame))
  }

  // ---------------------------------------------------------------- pop

  ghost function Buffered(s: State): u64 {
    match s.playTs
    case Some(play) => SatSub(s.newestEnd, play)
    case None => if s.frames.Keys == {} then 0 else SatSub(s.newestEnd, First(s.frames.Keys))
  }

  ghost predicate Waiting(s: State) {
    s.buffering && (Buffered(s) < s.target || s.frames.Keys == {})
  }

  /** Buffering ends: play from the oldest frame. */
  ghost function Unbuffer(s: State): State {
    if !s.buffering then s else
    s.(buffering := false, playTs := if s.playTs.None? then FirstKey(s.frames) else s.playTs)
  }

  /** Audio frames older than `play`, which the drop loop counts as late. */
  function StaleAudio(frames: map<u64, Frame>, play: u64): set<u64> {
    set k | k in frames && k < play && frames[k] != []
  }

  function DropOlder(s: State, play: u64): State {
    s.(frames := KeepFrom(s.frames, play),
       stats := s.stats.(late := s.stats.late + |StaleAudio(s.frames, play)|))
  }

  function PlaySilence(s: State, play: u64): State {
    s.(playTs := Some(SatAdd(play, s.cfg.frameSamples)), consecutiveMissing := 0,
       stats := s.stats.(silent := s.stats.silent + 1))
  }

  /** Conceal without advancing: the late packet can still play. */
  ghost predicate Hold(s: State) {
    Buffered(s) + s.cfg.frameSamples <= s.target && s.consecutiveMissing <= MAX_CONCEAL_FRAMES
  }

  /** Nothing at the play position and not in DTX silence. */
  ghost function PlayMissing(s: State, play: u64): (State, Status)
  {
    var s1 := s.(consecutiveMissing := s.consecutiveMissing + 1,
                 stats := s.stats.(missing := s.stats.missing + 1));
    if Hold(s1) then (s1, Missing)
    else if s1.frames.Keys == {} && s1.consecutiveMissing > MAX_CONCEAL_FRAMES then
      (s1.(target := ClampTarget(s.cfg, SatAdd(s.target, 2 * s.cfg.frameSamples)),
           buffering := true, playTs := None, consecutiveMissing := 0,
           stats := s1.stats.(underruns := s1.stats.underruns + 1)), Buffering)
    else (s1.(playTs := Some(SatAdd(play, s.cfg.frameSamples))), Missing)
  }

  /** Play position `play`, older frames already dropped. */
  ghost function PlayAt(s: State, play: u64): (State, Status)
  {
    if play in s.frames then
      var frame := s.frames[play];
      var s1 := s.(frames := s.frames - {play});
      if frame == [] then (PlaySilence(s1.(silent := true), play), Silence)
      else (s1.(silent := false, playTs := Some(SatAdd(play, FrameLen(s.cfg, frame))),
                consecutiveMissing := 0, stats := s.stats.(played := s.stats.played + 1)), Played)
    else if s.silent then (PlaySilence(s, play), Silence)
    else PlayMissing(s, play)
  }

  ghost function Pop(s: State): (State, Status)
  {
    if Waiting(s) then (s, Buffering) else
    var s1 := Unbuffer(s);
    if s1.playTs.None? then (s1, Buffering)
    else PlayAt(DropOlder(s1, s1.playTs.value), s1.playTs.value)
  }

  /** Where the next pop that does not wait plays: the play position, or the oldest frame. */
  ghost function PlaysAt(s: State): Option<u64> {
    if s.playTs.Some? then s.playTs else FirstKey(s.frames)
  }

  /** The frame `pop` hands out when it answers `Played`. */
  ghost function PlayedFrame(s: State): Frame
    requires Pop(s).1 == Played
  {
    s.frames[Unbuffer(s).playTs.value]
  }

  /** An output buffer that holds the frame, as far as either goes, and zeros after it. */
  ghost predicate Carries(out: seq<real>, frame: seq<real>) {
    forall i :: 0 <= i < |out| ==> out[i] == if i < |frame| then frame[i] else 0.0
  }

  /** A frame cut or zero-padded to `n` samples. */
  function Padded(frame: seq<real>, n: nat): (r: seq<real>)
    ensures |r| == n && Carries(r, frame)
  {
    seq(n, i requires 0 <= i < n => if i < |frame| then frame[i] else 0.0)
  }

  /** The output buffer after `pop`: the frame, zeros, or (for the caller to conceal) untouched. */
  ghost function Output(s: State, out: seq<real>): seq<real> {
    match Pop(s).1
    case Played => Padded(PlayedFrame(s), |out|)
    case Missing => out
    case _ => Padded([], |out|)
  }

  // ---------------------------------------------------------------- target

  function Adapt(s: State): State {
    var needed := ClampTarget(s.cfg, SatAdd(2 * Percentile98(s.estimate.deviations), s.cfg.frameSamples));
    s.(target := if needed > s.target then needed
                 else ClampTarget(s.cfg, Max(SatSub(s.target, MsToSamples(1)), needed)))
  }

  function SetBounds(s: State, minMs: u32, maxMs: u32): State {
    var cfg := s.cfg.(minDelayMs := minMs, maxDelayMs := Max(maxMs, minMs));
    s.(cfg := cfg, target := ClampTarget(cfg, s.target))
  }

  function Reset(s: State): State {
    s.(frames := map[], playTs := None, newestEnd := 0, buffering := true, silent := false,
       consecutiveMissing := 0, estimate := s.estimate.(lastTransit := None))
  }

  // ---------------------------------------------------------------- runs

  /** One call. `push_silence` is a push of an empty frame. */
  datatype Op =
    | PushOp(ts: u64, frame: Frame, arrival: u64)
    | PopOp
    | AdaptOp
    | SetBoundsOp(minMs: u32, maxMs: u32)
    | ResetOp

  ghost function Step(s: State, op: Op): State
  {
    match op
    case PushOp(ts, frame, arrival) => Push(s, ts, frame, arrival)
    case PopOp => Pop(s).0
    case AdaptOp => Adapt(s)
    case SetBoundsOp(minMs, maxMs) => SetBounds(s, minMs, maxMs)
    case ResetOp => Reset(s)
  }
}
