/** What the counters of the jitter buffer count. */
module JitterCounts {
  import opened Common
  import opened Jitter
  import opened JitterTheorems

  /** The answers of the pops of a run, in order. */
  ghost function Answers(s: State, ops: seq<Op>): seq<Status> {
    if ops == [] then [] else
    var front := ops[..|ops| - 1];
    Answers(s, front) + if ops[|ops| - 1].PopOp? then [Pop(Run(s, front)).1] else []
  }

  function Times(xs: seq<Status>, x: Status): nat {
    if xs == [] then 0 else Times(xs[..|xs| - 1], x) + if xs[|xs| - 1] == x then 1 else 0
  }

  lemma TimesNext(xs: seq<Status>, y: Status, x: Status)
    ensures Times(xs + [y], x) == Times(xs, x) + if y == x then 1 else 0
  {
    assert (xs + [y])[..|xs|] == xs;
  }

  function Pushes(ops: seq<Op>): nat {
    if ops == [] then 0 else Pushes(ops[..|ops| - 1]) + if ops[|ops| - 1].PushOp? then 1 else 0
  }

  /** What one call adds to the counters. */
  ghost predicate Counts(s: State, t: State, status: Status) {
    && t.stats.received == s.stats.received
    && t.stats.played == s.stats.played + (if status == Played then 1 else 0)
    && t.stats.silent == s.stats.silent + (if status == Silence then 1 else 0)
    && t.stats.missing - t.stats.underruns == s.stats.missing - s.stats.underruns + (if status == Missing then 1 else 0)
    && t.stats.underruns == s.stats.underruns + (if t.buffering && !s.buffering then 1 else 0)
    && (status == Missing ==> t.consecutiveMissing == s.consecutiveMissing + 1)
    && (status == Played || status == Silence ==> t.consecutiveMissing == 0)
  }

  lemma PlayCounts(s: State, play: u64)
    requires !s.buffering
    ensures Counts(s, PlayAt(s, play).0, PlayAt(s, play).1)
  {
  }

  /** One pop counts its answer; one that falls back to buffering counts as missing and as an underrun. */
  lemma PopCounts(s: State)
    requires s.buffering ==> s.playTs.None?
    ensures Counts(s, Pop(s).0, Pop(s).1)
  {
    hide PlayAt;
    var s1 := Unbuffer(s);
    if !Waiting(s) && s1.playTs.Some? {
      var play := s1.playTs.value;
      PlayCounts(DropOlder(s1, play), play);
      if s.buffering { PlaysOldest(DropOlder(s1, play), play); }
    }
  }

  /** The pop that ends buffering does not begin it again. */
  lemma PlaysOldest(s: State, play: u64)
    requires play in s.frames && !s.buffering
    ensures !PlayAt(s, play).0.buffering
  {
  }

  lemma {:induction false} CapCounts(s: State)
    ensures Cap(s).stats == s.stats.(late := Cap(s).stats.late)
    ensures Cap(s).stats.late + |Cap(s).frames| == s.stats.late + |s.frames|
    decreases |s.frames|
  {
    hide Cap;
    if |s.frames| <= MAX_FRAMES {
      CapRest(s);
    } else {
      var f := First(s.frames.Keys);
      RemoveSize(s.frames, f);
      CapCounts(s.(frames := s.frames - {f}, stats := s.stats.(late := s.stats.late + 1)));
      CapNext(s, f);
    }
  }

  /** One round of the overflow loop. */
  lemma CapNext(s: State, f: u64)
    requires |s.frames| > MAX_FRAMES && f == First(s.frames.Keys)
    ensures Cap(s) == Cap(s.(frames := s.frames - {f}, stats := s.stats.(late := s.stats.late + 1)))
  {
  }

  lemma CapRest(s: State)
    requires |s.frames| <= MAX_FRAMES
    ensures Cap(s) == s
  {
  }

  lemma PushCounts(s: State, ts: u64, frame: Frame, arrival: u64)
    ensures var t := Push(s, ts, frame, arrival);
            t.stats == s.stats.(received := s.stats.received + 1, late := t.stats.late)
  {
    hide Cap;
    CapCounts(Received(s, ts, arrival).(newestEnd := Max(s.newestEnd, SatAdd(ts, FrameLen(s.cfg, frame))), frames := s.frames[ts := frame]));
  }

  /** The counters are the pushes and the answers. */
  ghost predicate Counted(stats: Stats, pushes: nat, answers: seq<Status>) {
    && stats.received == pushes
    && stats.played == Times(answers, Played)
    && stats.silent == Times(answers, Silence)
    && stats.missing == Times(answers, Missing) + stats.underruns
  }

  lemma PopCounted(s: State, pushes: nat, answers: seq<Status>)
    requires Counted(s.stats, pushes, answers) && (s.buffering ==> s.playTs.None?)
    ensures Counted(Step(s, PopOp).stats, pushes, answers + [Pop(s).1])
  {
    hide Pop, Times;
    PopCounts(s);
    TimesNext(answers, Pop(s).1, Played);
    TimesNext(answers, Pop(s).1, Silence);
    TimesNext(answers, Pop(s).1, Missing);
  }

  lemma StepCounted(s: State, op: Op, pushes: nat, answers: seq<Status>)
    requires !op.PopOp? && Counted(s.stats, pushes, answers)
    ensures Counted(Step(s, op).stats, pushes + (if op.PushOp? then 1 else 0), answers)
  {
    hide Push;
    if op.PushOp? { PushCounts(s, op.ts, op.frame, op.arrival); }
  }

  /** In every run from a new buffer. */
  lemma {:induction false} CountersCount(cfg: Config, ops: seq<Op>)
    ensures Counted(Run(Init(cfg), ops).stats, Pushes(ops), Answers(Init(cfg), ops))
  {
    if ops != [] {
      hide Pop, Step, Counted, Times, Accounted;
      var front, op := ops[..|ops| - 1], ops[|ops| - 1];
      var s, answers := Run(Init(cfg), front), Answers(Init(cfg), front);
      CountersCount(cfg, front);
      AccountedMode(cfg, front);
      if op.PopOp? { PopCounted(s, Pushes(front), answers); } else { StepCounted(s, op, Pushes(front), answers); }
      assert answers + [] == answers;
    }
  }

  lemma AccountedMode(cfg: Config, ops: seq<Op>)
    ensures Run(Init(cfg), ops).buffering ==> Run(Init(cfg), ops).playTs.None?
  {
    AlwaysAccounted(cfg, ops);
  }

  // ---------------------------------------------------------------- where every frame went

  /** Audio with a timestamp that is not stored, which brings on no jump; and no reset. */
  ghost predicate Plain(s: State, op: Op) {
    match op
    case PushOp(ts, frame, _) =>
      frame != [] && ts !in s.frames
      && (s.playTs.Some? ==> SatSub(NewestAfter(s, op), s.playTs.value) <= JumpLimit(s.cfg))
    case ResetOp => false
    case _ => true
  }

  ghost predicate PlainRun(s: State, ops: seq<Op>) {
    forall i :: 0 <= i < |ops| ==> Plain(Run(s, ops[..i]), ops[i])
  }

  ghost predicate Audio(s: State) { forall k :: k in s.frames ==> s.frames[k] != [] }

  /** Every received frame was played, counted late, or is stored. */
  ghost predicate Balanced(s: State) { s.stats.received == s.stats.played + s.stats.late + |s.frames| }

  lemma PushBalances(s: State, op: Op)
    requires op.PushOp? && Plain(s, op) && Balanced(s) && Audio(s)
    ensures Balanced(Step(s, op)) && Audio(Step(s, op))
  {
    if Late(s, op.ts) {
    } else {
      hide Cap;
      var s0 := Received(s, op.ts, op.arrival).(newestEnd := NewestAfter(s, op), frames := s.frames[op.ts := op.frame]);
      assert s0.frames.Keys == s.frames.Keys + {op.ts};
      CapCounts(s0);
      CapKeepsAudio(s0);
      assert !JumpDue(Cap(s0)) by { CapShape(s0); }
    }
  }

  lemma {:induction false} CapKeepsAudio(s: State)
    requires Audio(s)
    ensures Audio(Cap(s))
    decreases |s.frames|
  {
    if |s.frames| > MAX_FRAMES {
      var f := First(s.frames.Keys);
      assert (s.frames - {f}).Keys == s.frames.Keys - {f};
      CapKeepsAudio(s.(frames := s.frames - {f}, stats := s.stats.(late := s.stats.late + 1)));
    }
  }

  lemma {:induction false} CapShape(s: State)
    ensures Cap(s) == s.(frames := Cap(s).frames, stats := Cap(s).stats)
    decreases |s.frames|
  {
    if |s.frames| > MAX_FRAMES {
      var f := First(s.frames.Keys);
      assert (s.frames - {f}).Keys == s.frames.Keys - {f};
      CapShape(s.(frames := s.frames - {f}, stats := s.stats.(late := s.stats.late + 1)));
    }
  }

  lemma DropBalances(s: State, play: u64)
    requires Audio(s)
    ensures |DropOlder(s, play).frames| + DropOlder(s, play).stats.late == |s.frames| + s.stats.late
    ensures Audio(DropOlder(s, play))
  {
    var kept, stale := KeepFrom(s.frames, play), StaleAudio(s.frames, play);
    assert kept.Keys !! stale && s.frames.Keys == kept.Keys + stale;
    assert |s.frames.Keys| == |kept.Keys| + |stale|;
  }

  lemma PopBalances(s: State)
    requires Balanced(s) && Audio(s)
    ensures Balanced(Pop(s).0) && Audio(Pop(s).0)
  {
    if !Waiting(s) && Unbuffer(s).playTs.Some? {
      var play := Unbuffer(s).playTs.value;
      DropBalances(Unbuffer(s), play);
      PlayBalances(DropOlder(Unbuffer(s), play), play);
    }
  }

  lemma PlayBalances(s: State, play: u64)
    requires Balanced(s) && Audio(s)
    ensures Balanced(PlayAt(s, play).0) && Audio(PlayAt(s, play).0)
  {
    if play in s.frames { RemoveSize(s.frames, play); }
  }

  /** In every such run from a new buffer no received frame is lost sight of. */
  lemma {:induction false} AccountsBalance(cfg: Config, ops: seq<Op>)
    requires PlainRun(Init(cfg), ops)
    ensures Balanced(Run(Init(cfg), ops)) && Audio(Run(Init(cfg), ops))
  {
    if ops != [] {
      hide Balanced, Audio, Plain, Push, Pop;
      var n := |ops| - 1;
      assert forall i :: 0 <= i < n ==> ops[..n][..i] == ops[..i];
      AccountsBalance(cfg, ops[..n]);
      var s, op := Run(Init(cfg), ops[..n]), ops[n];
      if op.PushOp? { PushBalances(s, op); } else if op.PopOp? { PopBalances(s); } else { OtherBalances(s, op); }
    } else {
      NewBalances(cfg);
    }
  }

  lemma NewBalances(cfg: Config)
    ensures Balanced(Init(cfg)) && Audio(Init(cfg))
  {
  }

  lemma OtherBalances(s: State, op: Op)
    requires !op.PushOp? && !op.PopOp? && Plain(s, op) && Balanced(s) && Audio(s)
    ensures Balanced(Step(s, op)) && Audio(Step(s, op))
  {
  }
}
