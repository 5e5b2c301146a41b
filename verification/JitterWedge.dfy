/** Runs of a new buffer that end without a play position and without buffering (sp-media/src/jitter.rs). */
module JitterWedge {
  import opened Common
  import opened Jitter
  import opened JitterTheorems

  lemma RunNext(s: State, ops: seq<Op>, op: Op)
    ensures Run(s, ops + [op]) == Step(Run(s, ops), op)
  {
    hide Step;
    assert (ops + [op])[..|ops|] == ops;
  }

  lemma {:induction false} RunJoin(s: State, a: seq<Op>, b: seq<Op>)
    ensures Run(s, a + b) == Run(Run(s, a), b)
    decreases |b|
  {
    hide Step;
    if b == [] {
      assert a + b == a;
    } else {
      var n := |b| - 1;
      RunJoin(s, a, b[..n]);
      RunNext(s, a + b[..n], b[n]);
      RunNext(Run(s, a), b[..n], b[n]);
      assert a + b[..n] + [b[n]] == a + b && b[..n] + [b[n]] == b;
    }
  }

  // ---------------------------------------------------------------- playing out

  /** Everything was played: the position is at the newest end. */
  ghost predicate PlayedOut(s: State, held: nat) {
    && !s.buffering && !s.silent && s.frames.Keys == {} && s.playTs == Some(s.newestEnd)
    && s.consecutiveMissing == held && s.cfg.frameSamples <= s.target && Accounted(s)
  }

  /** The pop holds the position. */
  lemma PopHolds(s: State, held: nat)
    requires PlayedOut(s, held) && held < MAX_CONCEAL_FRAMES
    ensures var t := Pop(s).0;
            PlayedOut(t, held + 1) && t.cfg == s.cfg && t.target == s.target && t.newestEnd == s.newestEnd
  {
    PopAccounted(s);
    hide Accounted;
    assert DropOlder(s, s.newestEnd).frames.Keys == {};
  }

  /** The sixth one in a row gives up and buffers again. */
  lemma PopUnderruns(s: State)
    requires PlayedOut(s, MAX_CONCEAL_FRAMES)
    ensures var t := Pop(s).0;
            && t.buffering && t.frames.Keys == {} && t.playTs.None? && t.cfg == s.cfg && t.newestEnd == s.newestEnd
            && t.target == ClampTarget(s.cfg, SatAdd(s.target, 2 * s.cfg.frameSamples)) && Accounted(t)
  {
    PopAccounted(s);
    hide Accounted, ClampTarget;
    assert DropOlder(s, s.newestEnd).frames.Keys == {};
  }

  lemma StepPop(s: State)
    ensures Step(s, PopOp) == Pop(s).0
  {
    hide Pop, Push, Adapt, SetBounds, Reset;
  }

  function Pops(n: nat): seq<Op> { if n == 0 then [] else Pops(n - 1) + [PopOp] }

  lemma {:induction false} PopsHold(s: State, n: nat)
    requires PlayedOut(s, 0) && n <= MAX_CONCEAL_FRAMES
    ensures var t := Run(s, Pops(n));
            PlayedOut(t, n) && t.cfg == s.cfg && t.target == s.target && t.newestEnd == s.newestEnd
  {
    hide PlayedOut, Pop, Step, Run;
    if n > 0 {
      PopsHold(s, n - 1);
      RunNext(s, Pops(n - 1), PopOp);
      StepPop(Run(s, Pops(n - 1)));
      PopHolds(Run(s, Pops(n - 1)), n - 1);
    } else {
      RunNothing(s);
    }
  }

  lemma RunNothing(s: State)
    ensures Run(s, []) == s
  {
  }

  // ---------------------------------------------------------------- a stale restart

  /** One frame at `late` is played, the sender falls silent until the buffer underruns, and starts over at `ts`. */
  ghost function StaleRun(cfg: Config, late: u64, ts: u64, a: Frame, arrival: u64): seq<Op>
    requires ts + cfg.frameSamples <= U64_MAX
  {
    [PushOp(late, a, arrival), PopOp] + Pops(MAX_CONCEAL_FRAMES + 1)
      + [PushOp(ts, a, arrival), PopOp, PushOp(ts + cfg.frameSamples, a, arrival)]
  }

  /** A new buffer is wedged by it, whenever the start over lies far enough in the past. */
  lemma {:induction false} StaleRunWedges(cfg: Config, late: u64, ts: u64, a: Frame, arrival: u64)
    requires a != [] && FrameLen(cfg, a) == cfg.frameSamples && TargetMin(cfg) == cfg.frameSamples
    requires late + cfg.frameSamples <= U64_MAX
    requires ts + 2 * cfg.frameSamples
             + Max(JumpLimit(cfg), ClampTarget(cfg, SatAdd(cfg.frameSamples, 2 * cfg.frameSamples))) < late + cfg.frameSamples
    ensures Wedged(Run(Init(cfg), StaleRun(cfg, late, ts, a, arrival)))
  {
    hide Run, Step, Pops, JumpLimit, ClampTarget;
    var start := [PushOp(late, a, arrival), PopOp];
    var again := [PushOp(ts, a, arrival), PopOp, PushOp(ts + cfg.frameSamples, a, arrival)];
    var s := Run(Init(cfg), start);
    FirstPlays(cfg, late, a, arrival);
    var t := Run(s, Pops(MAX_CONCEAL_FRAMES + 1));
    Underruns(s);
    RunJoin(Init(cfg), start, Pops(MAX_CONCEAL_FRAMES + 1));
    RunJoin(Init(cfg), start + Pops(MAX_CONCEAL_FRAMES + 1), again);
    hide PlayedOut, Accounted, Wedged, FrameLen, TargetMin, Init;
    StaleRestartWedges(t, ts, a, a, arrival);
  }

  lemma FirstPlays(cfg: Config, late: u64, a: Frame, arrival: u64)
    requires a != [] && TargetMin(cfg) <= FrameLen(cfg, a) && late + FrameLen(cfg, a) <= U64_MAX
    ensures var s := Run(Init(cfg), [PushOp(late, a, arrival), PopOp]);
            PlayedOut(s, 0) && s.cfg == cfg && s.target == TargetMin(cfg) && s.newestEnd == late + FrameLen(cfg, a)
  {
    hide Push, FrameLen, Accounted;
    var s0 := Init(cfg);
    assert Accounted(s0) by { AlwaysAccounted(cfg, []); }
    PlaysFirstFrame(s0, late, a, arrival);
    PlayedMode(Push(s0, late, a, arrival));
    hide Pop;
    var none: seq<Op> := [];
    RunNext(s0, none, PushOp(late, a, arrival));
    RunNext(s0, none + [PushOp(late, a, arrival)], PopOp);
    assert none + [PushOp(late, a, arrival)] + [PopOp] == [PushOp(late, a, arrival), PopOp];
  }

  lemma PlayedMode(s: State)
    ensures var (t, status) := Pop(s); status == Played ==> !t.buffering && !t.silent && t.consecutiveMissing == 0
  {
  }

  lemma Underruns(s: State)
    requires PlayedOut(s, 0)
    ensures var t := Run(s, Pops(MAX_CONCEAL_FRAMES + 1));
            && t.buffering && t.frames.Keys == {} && t.playTs.None? && t.cfg == s.cfg && t.newestEnd == s.newestEnd
            && t.target == ClampTarget(s.cfg, SatAdd(s.target, 2 * s.cfg.frameSamples)) && Accounted(t)
  {
    hide Accounted, ClampTarget, Pop, Step, Run;
    PopsHold(s, MAX_CONCEAL_FRAMES);
    RunNext(s, Pops(MAX_CONCEAL_FRAMES), PopOp);
    StepPop(Run(s, Pops(MAX_CONCEAL_FRAMES)));
    PopUnderruns(Run(s, Pops(MAX_CONCEAL_FRAMES)));
  }

  // ---------------------------------------------------------------- a frame longer than the target

  /** The other way there: the second frame is longer than the target and than the jump limit. */
  lemma {:induction false} LongFrameWedges(cfg: Config, ts: u64, a: Frame, long: Frame, arrival: u64)
    requires a != [] && TargetMin(cfg) <= FrameLen(cfg, a) && ts + FrameLen(cfg, a) + FrameLen(cfg, long) <= U64_MAX
    requires FrameLen(cfg, long) > JumpLimit(cfg) && FrameLen(cfg, long) > TargetMin(cfg)
    ensures Wedged(Run(Init(cfg), [PushOp(ts, a, arrival), PopOp, PushOp(ts + FrameLen(cfg, a), long, arrival)]))
  {
    hide Run, Step, FrameLen, JumpLimit, Accounted, TargetMin, Wedged;
    var start, last := [PushOp(ts, a, arrival), PopOp], PushOp(ts + FrameLen(cfg, a), long, arrival);
    var s := Run(Init(cfg), start);
    FirstPlays(cfg, ts, a, arrival);
    RunNext(Init(cfg), start, last);
    assert start + [last] == [PushOp(ts, a, arrival), PopOp, last];
    PlayingIsNotWedged(s);
    LongDiscards(s, last);
    WedgesExactly(s, last);
  }

  lemma LongDiscards(s: State, op: Op)
    requires PlayedOut(s, 0) && op.PushOp? && op.ts == s.newestEnd && op.ts + FrameLen(s.cfg, op.frame) <= U64_MAX
    requires FrameLen(s.cfg, op.frame) > JumpLimit(s.cfg) && FrameLen(s.cfg, op.frame) > s.target
    ensures DiscardsAll(s, op)
  {
    hide Accounted;
    assert NewestAfter(s, op) == op.ts + FrameLen(s.cfg, op.frame);
    assert SatSub(NewestAfter(s, op), s.playTs.value) == FrameLen(s.cfg, op.frame);
    assert s.target <= NewestAfter(s, op);
    assert op.ts < SatSub(NewestAfter(s, op), s.target);
    assert forall k :: k in s.frames ==> k in s.frames.Keys;
  }
}
