/** What every run of the jitter buffer keeps. */
module JitterTheorems {
  import opened Common
  import opened Jitter

  ghost function Run(s: State, ops: seq<Op>): State {
    if ops == [] then s else Step(Run(s, ops[..|ops| - 1]), ops[|ops| - 1])
  }

  // ---------------------------------------------------------------- maps and sizes

  lemma PutSize(m: map<u64, Frame>, k: u64, f: Frame)
    ensures |m| <= |m[k := f]| <= |m| + 1
    ensures k in m ==> |m[k := f]| == |m|
  {
    assert m[k := f].Keys == m.Keys + {k};
    if k in m { assert m.Keys + {k} == m.Keys; }
  }

  lemma RemoveSize(m: map<u64, Frame>, k: u64)
    requires k in m
    ensures |m - {k}| == |m| - 1
  {
    assert (m - {k}).Keys == m.Keys - {k};
  }

  lemma KeepSize(m: map<u64, Frame>, ts: u64)
    ensures |KeepFrom(m, ts)| + |StaleAudio(m, ts)| <= |m|
  {
    var kept, stale := KeepFrom(m, ts).Keys, StaleAudio(m, ts);
    assert kept !! stale;
    assert |kept + stale| == |kept| + |stale|;
    SubsetSize(kept + stale, m.Keys);
  }

  lemma {:induction false} SubsetSize(a: set<u64>, b: set<u64>)
    requires a <= b
    ensures |a| <= |b|
  {
    if a != {} {
      var x :| x in a;
      SubsetSize(a - {x}, b - {x});
    }
  }

  /** From a bounded buffer the overflow loop of `push` runs at most once. */
  lemma CapOnce(s: State)
    requires |s.frames| <= MAX_FRAMES + 1
    ensures |s.frames| <= MAX_FRAMES ==> Cap(s) == s
    ensures |s.frames| == MAX_FRAMES + 1 ==>
              Cap(s) == s.(frames := s.frames - {First(s.frames.Keys)},
                           stats := s.stats.(late := s.stats.late + 1))
              && |Cap(s).frames| == MAX_FRAMES
  {
    if |s.frames| == MAX_FRAMES + 1 {
      RemoveSize(s.frames, First(s.frames.Keys));
    }
  }

  // ---------------------------------------------------------------- accounting

  /** The counters, sizes and bounds that hold in every reachable state. */
  ghost predicate Accounted(s: State) {
    && s.stats.played + s.stats.late + |s.frames| <= s.stats.received
    && 6 * s.stats.underruns + s.consecutiveMissing <= s.stats.missing
    && |s.frames| <= MAX_FRAMES
    && TargetMin(s.cfg) <= s.target <= TargetMax(s.cfg)
    && (s.buffering ==> s.playTs.None?)
    && |s.estimate.deviations| <= WINDOW
    && s.estimate.cursor < WINDOW
  }

  /** Storing a frame that has been counted as received keeps the accounts. */
  lemma StoreAccounted(s: State, ts: u64, frame: Frame)
    requires Accounted(s) && s.stats.played + s.stats.late + |s.frames| < s.stats.received
    ensures Accounted(Jump(Store(s, ts, frame)))
  {
    PutSize(s.frames, ts, frame);
    CapOnce(s.(newestEnd := Max(s.newestEnd, SatAdd(ts, FrameLen(s.cfg, frame))), frames := s.frames[ts := frame]));
    var s1 := Store(s, ts, frame);
    KeepSize(s1.frames, SatSub(s1.newestEnd, s1.target));
  }

  lemma ObserveBounded(e: Estimate, ts: u64, arrival: u64)
    requires |e.deviations| <= WINDOW && e.cursor < WINDOW
    ensures |Observe(e, ts, arrival).deviations| <= WINDOW && Observe(e, ts, arrival).cursor < WINDOW
  {
  }

  lemma PushAccounted(s: State, ts: u64, frame: Frame, arrival: u64)
    requires Accounted(s)
    ensures Accounted(Push(s, ts, frame, arrival))
  {
    ObserveBounded(s.estimate, ts, arrival);
    if !Late(s, ts) {
      StoreAccounted(Received(s, ts, arrival), ts, frame);
    }
  }

  lemma DropAccounted(s: State, play: u64)
    requires Accounted(s)
    ensures Accounted(DropOlder(s, play))
  {
    KeepSize(s.frames, play);
  }

  lemma PlayAccounted(s: State, play: u64)
    requires Accounted(s) && !s.buffering
    ensures Accounted(PlayAt(s, play).0)
  {
    if play in s.frames { RemoveSize(s.frames, play); }
  }

  lemma PopAccounted(s: State)
    requires Accounted(s)
    ensures Accounted(Pop(s).0)
  {
    hide DropOlder, PlayAt;
    var s1 := Unbuffer(s);
    if !Waiting(s) && s1.playTs.Some? {
      var play := s1.playTs.value;
      DropAccounted(s1, play);
      assert !DropOlder(s1, play).buffering by { DropKeepsMode(s1, play); }
      PlayAccounted(DropOlder(s1, play), play);
    }
  }

  lemma DropKeepsMode(s: State, play: u64)
    ensures DropOlder(s, play).buffering == s.buffering
  {
  }

  lemma StepAccounted(s: State, op: Op)
    requires Accounted(s)
    ensures Accounted(Step(s, op))
  {
    match op
    case PushOp(ts, frame, arrival) => PushAccounted(s, ts, frame, arrival);
    case PopOp => PopAccounted(s);
    case _ =>
  }

  /** Jitter accounting holds in every reachable state. */
  lemma {:induction false} AlwaysAccounted(cfg: Config, ops: seq<Op>)
    ensures Accounted(Run(Init(cfg), ops))
  {
    if ops != [] {
      AlwaysAccounted(cfg, ops[..|ops| - 1]);
      StepAccounted(Run(Init(cfg), ops[..|ops| - 1]), ops[|ops| - 1]);
    }
  }

  ghost predicate NoneHeard(s: State, ops: seq<Op>) {
    forall i :: 0 <= i < |ops| ==> !ops[i].ResetOp? && (ops[i].PopOp? ==> Pop(Run(s, ops[..i])).1 != Played)
  }

  lemma NoneHeardPrefix(s: State, ops: seq<Op>)
    requires ops != [] && NoneHeard(s, ops)
    ensures NoneHeard(s, ops[..|ops| - 1])
  {
    var front := ops[..|ops| - 1];
    forall i | 0 <= i < |front|
      ensures !front[i].ResetOp? && (front[i].PopOp? ==> Pop(Run(s, front[..i])).1 != Played)
    {
      assert front[..i] == ops[..i];
    }
  }

  /** Storing a frame changes no mode flag and no loss counter. */
  lemma {:induction false} CapKeeps(s: State)
    ensures Cap(s) == s.(frames := Cap(s).frames, stats := s.stats.(late := Cap(s).stats.late))
    ensures Cap(s).frames.Keys <= s.frames.Keys
    decreases |s.frames|
  {
    if |s.frames| > MAX_FRAMES {
      var f := First(s.frames.Keys);
      RemoveSize(s.frames, f);
      CapKeeps(s.(frames := s.frames - {f}, stats := s.stats.(late := s.stats.late + 1)));
    }
  }

  lemma StoreKeeps(s: State, ts: u64, frame: Frame)
    ensures var t := Jump(Store(s, ts, frame));
            && t.silent == s.silent && t.buffering == s.buffering && t.cfg == s.cfg && t.target == s.target
            && t.consecutiveMissing == s.consecutiveMissing
            && t.stats.missing == s.stats.missing && t.stats.underruns == s.stats.underruns
  {
    CapKeeps(s.(newestEnd := Max(s.newestEnd, SatAdd(ts, FrameLen(s.cfg, frame))), frames := s.frames[ts := frame]));
  }

  /** After a DTX marker, nothing is counted as loss or underrun until audio plays again. */
  lemma {:induction false} SilenceIsNotLoss(s: State, ops: seq<Op>)
    requires s.silent && NoneHeard(s, ops)
    ensures Run(s, ops).silent
    ensures Run(s, ops).stats.missing == s.stats.missing
    ensures Run(s, ops).stats.underruns == s.stats.underruns
  {
    if ops != [] {
      var last := ops[|ops| - 1];
      NoneHeardPrefix(s, ops);
      SilenceIsNotLoss(s, ops[..|ops| - 1]);
      var s1 := Run(s, ops[..|ops| - 1]);
      assert last.PopOp? ==> Pop(s1).1 != Played;
      if last.PushOp? { StoreKeeps(Received(s1, last.ts, last.arrival), last.ts, last.frame); }
    }
  }

  /** A pop is silent exactly at a marker, or past one where no frame is stored; it leaves the buffer in silence,
      until a frame plays. */
  lemma SilenceLasts(s: State)
    requires !Waiting(s) && PlaysAt(s).Some? && !Wedged(s)
    ensures var (t, status) := Pop(s);
            var play := PlaysAt(s).value;
            && (status == Silence <==> if play in s.frames then s.frames[play] == [] else s.silent)
            && (status == Played <==> play in s.frames && s.frames[play] != [])
            && (t.silent <==> status == Silence)
  {
  }

  /** Neither buffering nor playing: `pop` can only answer `Buffering`. */
  ghost predicate Wedged(s: State) { !s.buffering && s.playTs.None? }

  /** Only `reset` leaves the wedged state. */
  lemma {:induction false} WedgedForever(s: State, ops: seq<Op>)
    requires Wedged(s) && forall i :: 0 <= i < |ops| ==> !ops[i].ResetOp?
    ensures Wedged(Run(s, ops)) && Pop(Run(s, ops)).1 == Buffering
  {
    if ops != [] {
      WedgedForever(s, ops[..|ops| - 1]);
      var s1, last := Run(s, ops[..|ops| - 1]), ops[|ops| - 1];
      if last.PushOp? {
        var s2 := Received(s1, last.ts, last.arrival);
        CapKeeps(s2.(newestEnd := Max(s2.newestEnd, SatAdd(last.ts, FrameLen(s2.cfg, last.frame))),
                     frames := s2.frames[last.ts := last.frame]));
      }
    }
  }

  ghost function NewestAfter(s: State, op: Op): u64
    requires op.PushOp?
  {
    Max(s.newestEnd, SatAdd(op.ts, FrameLen(s.cfg, op.frame)))
  }

  /** The jump fires and every buffered frame, the new one included, lies before the new play position. */
  ghost predicate DiscardsAll(s: State, op: Op) {
    && op.PushOp? && s.playTs.Some? && s.playTs.value <= op.ts
    && SatSub(NewestAfter(s, op), s.playTs.value) > JumpLimit(s.cfg)
    && (forall k :: k in s.frames || k == op.ts ==> k < SatSub(NewestAfter(s, op), s.target))
  }

  /** A jump keeps some frame exactly when one was at or after the bound, whatever overflow dropped. */
  lemma KeptExactly(s: State, ts: u64, frame: Frame, bound: u64)
    requires |s.frames| <= MAX_FRAMES
    ensures var s1 := Store(s, ts, frame);
            && (KeepFrom(s1.frames, bound).Keys == {} <==> forall k :: k in s.frames || k == ts ==> k < bound)
            && s1 == s.(newestEnd := Max(s.newestEnd, SatAdd(ts, FrameLen(s.cfg, frame))),
                        frames := s1.frames, stats := s1.stats)
  {
    var s0 := s.(newestEnd := Max(s.newestEnd, SatAdd(ts, FrameLen(s.cfg, frame))), frames := s.frames[ts := frame]);
    var s1 := Store(s, ts, frame);
    PutSize(s.frames, ts, frame);
    CapOnce(s0);
    CapKeeps(s0);
    if k :| (k in s.frames || k == ts) && bound <= k {
      assert k in s0.frames;
      if k in s1.frames { assert k in KeepFrom(s1.frames, bound); }
      else {
        assert s1.frames.Keys != {};
        var j :| j in s1.frames;
        assert j in KeepFrom(s1.frames, bound);
      }
    } else {
      assert KeepFrom(s1.frames, bound).Keys == {};
    }
  }

  /** One call wedges a buffer exactly when it is a push whose jump discards every frame. */
  lemma WedgesExactly(s: State, op: Op)
    requires Accounted(s) && !Wedged(s)
    ensures Wedged(Step(s, op)) <==> DiscardsAll(s, op)
  {
    if op.PushOp? && !Late(s, op.ts) {
      var s1 := Received(s, op.ts, op.arrival);
      KeptExactly(s1, op.ts, op.frame, SatSub(NewestAfter(s, op), s.target));
      StoreKeeps(s1, op.ts, op.frame);
    }
  }

  /** The frames the sender contract allows: DTX markers and full frames, and no restart in the past. */
  ghost predicate Regular(s: State, op: Op) {
    op.PushOp? ==>
      && (op.frame == [] || FrameLen(s.cfg, op.frame) == s.cfg.frameSamples)
      && (s.playTs.None? && s.frames.Keys == {} ==> s.newestEnd <= op.ts + s.cfg.frameSamples)
  }

  /** Why a jump always keeps a frame: the newest audio is buffered, or nearly played, or gone with the position. */
  ghost predicate Anchored(s: State) {
    || (exists k :: k in s.frames && s.newestEnd <= k + s.cfg.frameSamples)
    || (s.playTs.Some? && s.newestEnd <= s.playTs.value + s.cfg.frameSamples)
    || (s.playTs.None? && s.frames.Keys == {})
  }

  /** Some frame buffered after the push starts within one frame of the newest audio, or the
      position is already that close and no jump is due. */
  lemma NewestIsNear(s: State, op: Op) returns (near: Option<u64>)
    requires op.PushOp? && Accounted(s) && Anchored(s) && Regular(s, op) && !Late(s, op.ts)
    ensures match near
            case Some(k) => (k in s.frames || k == op.ts) && NewestAfter(s, op) <= k + s.cfg.frameSamples
            case None => s.playTs.Some? && NewestAfter(s, op) <= s.playTs.value + s.cfg.frameSamples
  {
    hide Accounted;
    if NewestAfter(s, op) != s.newestEnd {
      near := Some(op.ts);
    } else if k :| k in s.frames && s.newestEnd <= k + s.cfg.frameSamples {
      near := Some(k);
    } else if s.playTs.Some? && s.newestEnd <= s.playTs.value + s.cfg.frameSamples {
      near := None;
    } else {
      near := Some(op.ts);
    }
  }

  lemma PushKeepsFrame(s: State, op: Op)
    requires op.PushOp? && Accounted(s) && Anchored(s) && Regular(s, op)
    requires s.cfg.frameSamples <= MsToSamples(200)
    ensures !DiscardsAll(s, op)
  {
    if !Late(s, op.ts) {
      var near := NewestIsNear(s, op);
      match near
      case Some(k) => assert (k in s.frames || k == op.ts) && !(k < SatSub(NewestAfter(s, op), s.target));
      case None => assert !(SatSub(NewestAfter(s, op), s.playTs.value) > JumpLimit(s.cfg));
    }
  }

  lemma JumpAnchored(s: State, k: u64)
    requires k in s.frames && s.newestEnd <= k + s.cfg.frameSamples && s.cfg.frameSamples <= s.target
    ensures Anchored(Jump(s))
  {
    if JumpDue(s) { assert k in KeepFrom(s.frames, SatSub(s.newestEnd, s.target)); }
  }

  lemma PushAnchored(s: State, op: Op)
    requires op.PushOp? && Accounted(s) && Anchored(s) && Regular(s, op)
    requires s.cfg.frameSamples <= MsToSamples(200)
    ensures Anchored(Step(s, op))
  {
    if !Late(s, op.ts) {
      var near := NewestIsNear(s, op);
      var s1, bound := Received(s, op.ts, op.arrival), SatSub(NewestAfter(s, op), s.cfg.frameSamples);
      var s2 := Store(s1, op.ts, op.frame);
      KeptExactly(s1, op.ts, op.frame, bound);
      var kept := KeepFrom(s2.frames, bound).Keys;
      if kept != {} {
        var k :| k in kept;
        JumpAnchored(s2, k);
      }
    }
  }

  lemma PlayAnchored(s: State, play: u64, k: u64)
    requires s.playTs == Some(play)
    requires s.newestEnd <= k + s.cfg.frameSamples && (k in s.frames || k <= play)
    ensures Anchored(PlayAt(s, play).0)
  {
    if k in s.frames && k != play { assert k in PlayAt(s, play).0.frames; }
  }

  lemma PopAnchored(s: State)
    requires Accounted(s) && Anchored(s) && !Wedged(s)
    ensures Anchored(Pop(s).0)
  {
    var s1 := Unbuffer(s);
    if !Waiting(s) {
      var play := s1.playTs.value;
      if k :| k in s.frames && s.newestEnd <= k + s.cfg.frameSamples { PlayAnchored(DropOlder(s1, play), play, k); }
      else { PlayAnchored(DropOlder(s1, play), play, play); }
    }
    hide PlayAt;
  }

  ghost predicate RegularRun(cfg: Config, ops: seq<Op>) {
    forall i :: 0 <= i < |ops| ==> Regular(Run(Init(cfg), ops[..i]), ops[i])
  }

  lemma RegularPrefix(cfg: Config, ops: seq<Op>)
    requires ops != [] && RegularRun(cfg, ops)
    ensures RegularRun(cfg, ops[..|ops| - 1])
  {
    var front := ops[..|ops| - 1];
    forall i | 0 <= i < |front| ensures Regular(Run(Init(cfg), front[..i]), front[i]) {
      assert front[..i] == ops[..i];
    }
  }

  lemma FrameSizeFixed(s: State, op: Op)
    ensures Step(s, op).cfg.frameSamples == s.cfg.frameSamples && Step(s, op).cfg.channels == s.cfg.channels
  {
    if op.PushOp? { StoreKeeps(Received(s, op.ts, op.arrival), op.ts, op.frame); }
  }

  /** With regular frames of at most 200 ms the buffer never wedges. */
  lemma {:induction false} NeverWedges(cfg: Config, ops: seq<Op>)
    requires cfg.frameSamples <= MsToSamples(200) && RegularRun(cfg, ops)
    ensures var s := Run(Init(cfg), ops); !Wedged(s) && Anchored(s) && s.cfg.frameSamples == cfg.frameSamples
  {
    if ops != [] {
      var front, last := ops[..|ops| - 1], ops[|ops| - 1];
      RegularPrefix(cfg, ops);
      NeverWedges(cfg, front);
      AlwaysAccounted(cfg, front);
      var s := Run(Init(cfg), front);
      assert Regular(s, last);
      FrameSizeFixed(s, last);
      WedgesExactly(s, last);
      match last
      case PushOp(_, _, _) => PushKeepsFrame(s, last); PushAnchored(s, last);
      case PopOp => PopAnchored(s);
      case _ =>
    }
  }

  /** A frame stored into an empty buffer with no play position, and the pop that plays it. */
  lemma PlaysFirstFrame(s: State, ts: u64, a: Frame, arrival: u64)
    requires Accounted(s) && s.buffering && s.frames.Keys == {} && a != []
    requires s.target <= SatSub(Max(s.newestEnd, SatAdd(ts, FrameLen(s.cfg, a))), ts)
    ensures var (t, status) := Pop(Push(s, ts, a, arrival));
            && status == Played && t.frames.Keys == {} && t.playTs == Some(SatAdd(ts, FrameLen(s.cfg, a)))
            && t.newestEnd == Max(s.newestEnd, SatAdd(ts, FrameLen(s.cfg, a)))
            && t.cfg == s.cfg && t.target == s.target && Accounted(t)
  {
    var s0 := Received(s, ts, arrival);
    var s1 := Push(s, ts, a, arrival);
    CapOnce(s0.(newestEnd := s1.newestEnd, frames := s0.frames[ts := a]));
    assert s1.frames.Keys == {ts};
    assert First(s1.frames.Keys) == ts;
    assert KeepFrom(s1.frames, ts) == s1.frames;
    PushAccounted(s, ts, a, arrival);
    PopAccounted(s1);
  }

  /** Why the restart rule is needed: after an underrun a sender that starts over far in the past
      wedges the buffer with its second frame. */
  lemma StaleRestartWedges(s: State, ts: u64, a: Frame, b: Frame, arrival: u64)
    requires Accounted(s) && s.buffering && s.frames.Keys == {} && a != []
    requires FrameLen(s.cfg, a) == FrameLen(s.cfg, b) == s.cfg.frameSamples
    requires ts + s.cfg.frameSamples + Max(JumpLimit(s.cfg), s.target) + s.cfg.frameSamples < s.newestEnd
    ensures Wedged(Run(s, [PushOp(ts, a, arrival), PopOp, PushOp(ts + s.cfg.frameSamples, b, arrival)]))
  {
    hide Push, Pop, Run, FrameLen, JumpLimit, Accounted, Wedged;
    var ops := [PushOp(ts, a, arrival), PopOp, PushOp(ts + s.cfg.frameSamples, b, arrival)];
    PlaysFirstFrame(s, ts, a, arrival);
    var s2 := Pop(Push(s, ts, a, arrival)).0;
    StaleDiscards(s2, ops[2]);
    assert !Wedged(s2) by { PlayingIsNotWedged(s2); }
    WedgesExactly(s2, ops[2]);
    ThreeSteps(s, ops);
  }

  lemma StaleDiscards(s: State, op: Op)
    requires op.PushOp? && s.frames.Keys == {} && s.playTs == Some(op.ts)
    requires FrameLen(s.cfg, op.frame) == s.cfg.frameSamples
    requires op.ts + Max(JumpLimit(s.cfg), s.target) + s.cfg.frameSamples < s.newestEnd
    ensures DiscardsAll(s, op)
  {
    assert NewestAfter(s, op) == s.newestEnd;
    assert SatSub(s.newestEnd, op.ts) > JumpLimit(s.cfg);
    assert op.ts < SatSub(s.newestEnd, s.target);
    forall k | k in s.frames || k == op.ts ensures k < SatSub(NewestAfter(s, op), s.target) {
      assert k in s.frames ==> k in s.frames.Keys;
    }
  }

  lemma PlayingIsNotWedged(s: State)
    requires s.playTs.Some?
    ensures !Wedged(s)
  {
  }

  lemma ThreeSteps(s: State, ops: seq<Op>)
    requires |ops| == 3
    ensures Run(s, ops) == Step(Step(Step(s, ops[0]), ops[1]), ops[2])
  {
    assert ops[..2][..1] == ops[..1] && ops[..1][..0] == [];
    assert Run(s, ops[..0]) == s;
    assert Run(s, ops[..1]) == Step(s, ops[0]);
    assert Run(s, ops[..2]) == Step(Run(s, ops[..1]), ops[1]);
  }

  // ---------------------------------------------------------------- the play position

  /** The jump limit leaves room for the target: it does whenever max >= min and frames are at most 200 ms. */
  ghost predicate Roomy(cfg: Config) {
    cfg.minDelayMs <= cfg.maxDelayMs && cfg.frameSamples <= MsToSamples(200)
  }

  /** Every buffered audio frame has a length, and its end does not overflow. */
  ghost predicate Proper(cfg: Config, ts: u64, frame: Frame) {
    frame == [] || (1 <= FrameLen(cfg, frame) && ts + FrameLen(cfg, frame) <= U64_MAX)
  }

  ghost predicate AllProper(s: State) {
    Roomy(s.cfg) && forall k :: k in s.frames ==> Proper(s.cfg, k, s.frames[k])
  }

  /** A call adds no frame but the one it pushes. */
  lemma FramesFrom(s: State, op: Op, k: u64)
    requires Accounted(s) && k in Step(s, op).frames
    ensures || (k in s.frames && Step(s, op).frames[k] == s.frames[k])
            || (op.PushOp? && k == op.ts && Step(s, op).frames[k] == op.frame)
  {
    if op.PushOp? {
      var s1 := Received(s, op.ts, op.arrival);
      PutSize(s.frames, op.ts, op.frame);
      CapOnce(s1.(newestEnd := NewestAfter(s, op), frames := s.frames[op.ts := op.frame]));
    }
  }

  lemma StepProper(s: State, op: Op)
    requires Accounted(s) && AllProper(s) && (op.PushOp? ==> Proper(s.cfg, op.ts, op.frame))
    ensures AllProper(Step(s, op))
  {
    var t := Step(s, op);
    FrameSizeFixed(s, op);
    assert Roomy(t.cfg) by {
      if op.PushOp? { StoreKeeps(Received(s, op.ts, op.arrival), op.ts, op.frame); }
    }
    forall k | k in t.frames ensures Proper(t.cfg, k, t.frames[k]) {
      FramesFrom(s, op, k);
    }
  }

  /** A push that makes the receiver jump leaves no position or moves it strictly forward, onto the first
      frame still stored; any other push leaves it. */
  lemma JumpsForward(s: State, op: Op)
    requires Accounted(s) && Roomy(s.cfg) && op.PushOp? && s.playTs.Some?
    ensures var t := Step(s, op);
            if !Late(s, op.ts) && SatSub(NewestAfter(s, op), s.playTs.value) > 48 * s.cfg.maxDelayMs + 9_600
            then
              && (forall k :: k in t.frames ==> NewestAfter(s, op) <= k + s.target)
              && (forall k :: k in s.frames && NewestAfter(s, op) <= k + s.target && |s.frames| < MAX_FRAMES ==> k in t.frames)
              && (|| t.playTs.None?
                  || (s.playTs.value < t.playTs.value && t.playTs.value in t.frames
                      && forall k :: k in t.frames ==> t.playTs.value <= k))
            else t.playTs == s.playTs
  {
    if !Late(s, op.ts) {
      var s1 := Received(s, op.ts, op.arrival);
      KeptExactly(s1, op.ts, op.frame, SatSub(NewestAfter(s, op), s.target));
    }
  }

  /** No single call moves the play position back. */
  lemma NeverBack(s: State, op: Op)
    requires Accounted(s) && Roomy(s.cfg) && s.playTs.Some? && Step(s, op).playTs.Some?
    ensures s.playTs.value <= Step(s, op).playTs.value
  {
    if op.PushOp? { JumpsForward(s, op); }
  }

  /** The pop that ends buffering plays a frame or a DTX marker. */
  lemma BufferingEndsWithFrame(s: State)
    requires Accounted(s) && s.buffering && !Pop(s).0.buffering
    ensures Pop(s).1 == Played || Pop(s).1 == Silence
  {
  }

  ghost predicate Rebuffers(s: State, op: Op) {
    op.ResetOp? || (op.PopOp? && !s.buffering && Step(s, op).buffering)
  }

  ghost function HeardAfter(s: State, before: seq<u64>, op: Op): seq<u64> {
    if Rebuffers(s, op) then []
    else if op.PopOp? && Pop(s).1 == Played then before + [Unbuffer(s).playTs.value]
    else before
  }

  /** The timestamps played since the last rebuffer, in the order they were played. */
  ghost function Heard(s: State, ops: seq<Op>): seq<u64> {
    if ops == [] then []
    else HeardAfter(Run(s, ops[..|ops| - 1]), Heard(s, ops[..|ops| - 1]), ops[|ops| - 1])
  }

  ghost predicate Increasing(xs: seq<u64>) {
    forall i, j :: 0 <= i < j < |xs| ==> xs[i] < xs[j]
  }

  ghost predicate ProperRun(cfg: Config, ops: seq<Op>) {
    Roomy(cfg) && forall i :: 0 <= i < |ops| && ops[i].PushOp? ==> Proper(cfg, ops[i].ts, ops[i].frame)
  }

  lemma {:induction false} RunProper(cfg: Config, ops: seq<Op>)
    requires ProperRun(cfg, ops)
    ensures var s := Run(Init(cfg), ops);
            AllProper(s) && s.cfg.channels == cfg.channels && s.cfg.frameSamples == cfg.frameSamples
  {
    if ops != [] {
      var front, last := ops[..|ops| - 1], ops[|ops| - 1];
      RunProper(cfg, front);
      AlwaysAccounted(cfg, front);
      var s := Run(Init(cfg), front);
      FrameSizeFixed(s, last);
      StepProper(s, last);
    }
  }

  ghost predicate Ordered(s: State, heard: seq<u64>) {
    && Increasing(heard)
    && (s.buffering ==> heard == [])
    && (s.playTs.Some? ==> forall i :: 0 <= i < |heard| ==> heard[i] < s.playTs.value)
  }

  lemma PushOrdered(s: State, heard: seq<u64>, op: Op)
    requires Accounted(s) && AllProper(s) && Ordered(s, heard) && op.PushOp?
    ensures Ordered(Step(s, op), HeardAfter(s, heard, op))
  {
    StoreKeeps(Received(s, op.ts, op.arrival), op.ts, op.frame);
    if s.playTs.Some? { JumpsForward(s, op); }
    else { NoJumpWithoutPosition(s, op); }
    hide Push;
  }

  lemma NoJumpWithoutPosition(s: State, op: Op)
    requires op.PushOp? && s.playTs.None?
    ensures Step(s, op).playTs.None?
  {
    var s1 := Received(s, op.ts, op.arrival);
    CapKeeps(s1.(newestEnd := NewestAfter(s, op), frames := s.frames[op.ts := op.frame]));
  }

  /** The position a pop plays from is kept or moved on, and moved past what it played. */
  lemma PopMoves(s: State)
    requires Accounted(s) && AllProper(s) && Pop(s).0.playTs.Some?
    ensures var play := Unbuffer(s).playTs;
            && play.Some? && (s.playTs.Some? ==> play == s.playTs)
            && play.value <= Pop(s).0.playTs.value
            && (Pop(s).1 == Played ==> play.value < Pop(s).0.playTs.value)
  {
    var play := Unbuffer(s).playTs;
    if play.Some? { assert play.value in s.frames ==> Proper(s.cfg, play.value, s.frames[play.value]); }
  }

  lemma PopOrdered(s: State, heard: seq<u64>)
    requires Accounted(s) && AllProper(s) && Ordered(s, heard) && !Rebuffers(s, PopOp)
    ensures Ordered(Pop(s).0, HeardAfter(s, heard, PopOp))
  {
    if Pop(s).0.playTs.Some? { PopMoves(s); }
    PopModes(s);
    hide Pop, AllProper, Accounted;
  }

  lemma PopModes(s: State)
    requires Accounted(s)
    ensures Pop(s).0.buffering ==> Rebuffers(s, PopOp) || s.buffering
    ensures Pop(s).1 == Played ==> Pop(s).0.playTs.Some? && !Pop(s).0.buffering
    ensures s.buffering && Pop(s).0.buffering ==> Pop(s).0 == s
  {
  }

  /** Between rebuffers every timestamp is played at most once, in strictly increasing order,
      and the play position is beyond all of them. */
  lemma {:induction false} PlaysInOrder(cfg: Config, ops: seq<Op>)
    requires ProperRun(cfg, ops)
    ensures Ordered(Run(Init(cfg), ops), Heard(Init(cfg), ops))
  {
    if ops != [] {
      var front, last := ops[..|ops| - 1], ops[|ops| - 1];
      PlaysInOrder(cfg, front);
      RunProper(cfg, front);
      AlwaysAccounted(cfg, front);
      var s, before := Run(Init(cfg), front), Heard(Init(cfg), front);
      if last.PushOp? { PushOrdered(s, before, last); }
      else if last.PopOp? && !Rebuffers(s, last) { PopOrdered(s, before); }
      hide Pop, Push, AllProper, Accounted;
    }
  }

  /** Consecutive pops that answered something other than `Buffering` and left the position where it was. */
  ghost function Stuck(s: State, ops: seq<Op>): nat {
    if ops == [] then 0 else
    var before, s1, op := Stuck(s, ops[..|ops| - 1]), Run(s, ops[..|ops| - 1]), ops[|ops| - 1];
    if Step(s1, op).playTs != s1.playTs || op.ResetOp? then 0
    else if op.PopOp? then (if Pop(s1).1 == Buffering then 0 else before + 1)
    else before
  }

  /** The play position can still advance by a frame. */
  ghost predicate BelowLimit(s: State) {
    s.playTs.Some? ==> s.playTs.value + s.cfg.frameSamples <= U64_MAX
  }

  lemma PopMovesOrHolds(s: State)
    requires Accounted(s) && AllProper(s) && BelowLimit(s) && 1 <= s.cfg.frameSamples
    requires Pop(s).1 != Buffering && Pop(s).0.playTs == s.playTs
    ensures Pop(s).0.consecutiveMissing == s.consecutiveMissing + 1 <= MAX_CONCEAL_FRAMES
  {
    var play := Unbuffer(s).playTs.value;
    assert play in s.frames ==> Proper(s.cfg, play, s.frames[play]);
  }

  /** At most five pops in a row conceal without advancing. */
  lemma {:induction false} HoldsAtMostFive(cfg: Config, ops: seq<Op>)
    requires ProperRun(cfg, ops) && 1 <= cfg.frameSamples
    requires forall i :: 0 <= i <= |ops| ==> BelowLimit(Run(Init(cfg), ops[..i]))
    ensures Stuck(Init(cfg), ops) <= Run(Init(cfg), ops).consecutiveMissing
    ensures Stuck(Init(cfg), ops) <= MAX_CONCEAL_FRAMES
  {
    if ops != [] {
      var front, last := ops[..|ops| - 1], ops[|ops| - 1];
      forall i | 0 <= i <= |front| ensures BelowLimit(Run(Init(cfg), front[..i])) {
        assert front[..i] == ops[..i];
      }
      HoldsAtMostFive(cfg, front);
      RunProper(cfg, front);
      AlwaysAccounted(cfg, front);
      assert front == front[..|front|];
      var s := Run(Init(cfg), front);
      match last
      case PushOp(_, _, _) => StoreKeeps(Received(s, last.ts, last.arrival), last.ts, last.frame);
      case PopOp => if Pop(s).1 != Buffering && Pop(s).0.playTs == s.playTs { PopMovesOrHolds(s); }
      case _ =>
    }
  }
}
