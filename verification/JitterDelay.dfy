/** How long the jitter buffer waits: the target delay, and what it is compared with. */
module JitterDelay {
  import opened Common
  import opened Jitter
  import opened JitterTheorems
  import opened JitterQueue

  // ---------------------------------------------------------------- the start of playback

  /** The end of the latest of these frames. */
  ghost predicate Latest(st: Stream, arrived: set<nat>, end: nat) {
    && (forall i :: i in arrived ==> st.Ts(i) + st.length <= end)
    && (if arrived == {} then end == 0 else exists i :: i in arrived && st.Ts(i) + st.length == end)
  }

  /** The newest end is that of the latest frame to have arrived, and playback has begun exactly if a frame was
      taken. */
  ghost predicate Reaches(st: Stream, x: Session) {
    && (x.s.buffering <==> x.taken == 0)
    && (forall i: nat :: i < x.taken ==> i in x.arrived)
    && Latest(st, x.arrived, x.s.newestEnd)
  }

  lemma ArriveReaches(st: Stream, x: Session, e: Event)
    requires Holds(st, x) && Reaches(st, x) && e.Arrive? && InTime(st, x, e)
    ensures Reaches(st, Next(st, x, e))
  {
    hide QueueAnswers, Contents, Latest, Push;
    ArrivalEnds(st, x, e);
    if e.i in x.arrived { assert x.arrived + {e.i} == x.arrived; }
    LatestNext(st, x.arrived, e.i, x.s.newestEnd);
  }

  /** What an arrival does to the newest end. */
  lemma ArrivalEnds(st: Stream, x: Session, e: Event)
    requires Holds(st, x) && Reaches(st, x) && e.Arrive? && InTime(st, x, e)
    ensures var t := Step(x.s, OpOf(st, e));
            && t.buffering == x.s.buffering
            && t.newestEnd == if e.i < x.taken then x.s.newestEnd else Max(x.s.newestEnd, st.Ts(e.i) + st.length)
    ensures e.i < x.taken ==> st.Ts(e.i) + st.length <= x.s.newestEnd
  {
    hide QueueAnswers, Contents;
    var ts, frame := st.Ts(e.i), st.sent(e.i);
    if e.i < x.taken {
      assert e.i in x.arrived;
      TsOrder(st, e.i, x.taken);
      LateStays(x.s, ts, frame, e.at);
    } else {
      if x.taken < e.i { TsOrder(st, x.taken, e.i); }
      hide Push;
      StoredPlainly(x.s, ts, frame, e.at);
      NewestEnds(x.s, ts, frame, e.at);
    }
  }

  lemma LateStays(s: State, ts: u64, frame: Frame, at: u64)
    requires Late(s, ts)
    ensures Push(s, ts, frame, at).newestEnd == s.newestEnd && Push(s, ts, frame, at).buffering == s.buffering
  {
  }

  lemma NewestEnds(s: State, ts: u64, frame: Frame, at: u64)
    requires |s.frames| <= MAX_FRAMES && !Late(s, ts) && (ts in s.frames || |s.frames| < MAX_FRAMES)
    ensures Push(s, ts, frame, at).newestEnd == Max(s.newestEnd, SatAdd(ts, FrameLen(s.cfg, frame)))
  {
    PutSize(s.frames, ts, frame);
  }

  lemma LatestNext(st: Stream, arrived: set<nat>, i: nat, end: nat)
    requires Latest(st, arrived, end)
    ensures Latest(st, arrived + {i}, Max(end, st.Ts(i) + st.length))
  {
    if arrived != {} && end > st.Ts(i) + st.length {
      var j :| j in arrived && st.Ts(j) + st.length == end;
      assert j in arrived + {i};
    } else {
      assert i in arrived + {i};
    }
  }

  lemma TakeReaches(st: Stream, x: Session, out: seq<real>)
    requires Holds(st, x) && Reaches(st, x) && InTime(st, x, Take(out))
    ensures Reaches(st, Next(st, x, Take(out)))
  {
    hide QueueAnswers, Contents, Latest, Pop, Unbuffer;
    PopKeepsNewest(x.s);
    if Waiting(x.s) { WaitingPop(x.s); } else { PopTakes(st, x); }
  }

  lemma WaitingPop(s: State)
    requires Waiting(s)
    ensures Pop(s) == (s, Buffering)
  {
  }

  /** A pop that does not wait takes the next frame. */
  lemma PopTakes(st: Stream, x: Session)
    requires Holds(st, x) && !Waiting(x.s) && x.taken in x.arrived
    ensures Pop(x.s).1 == Played && !Pop(x.s).0.buffering
  {
    hide QueueAnswers;
    TakeFinds(st, x);
    assert Proper1(st, x.s.cfg, x.taken);
    PopPlays(x.s, st.Ts(x.taken));
  }

  lemma PopKeepsNewest(s: State)
    ensures Pop(s).0.newestEnd == s.newestEnd
  {
  }

  lemma {:induction false} PlayReaches(st: Stream, x: Session, es: seq<Event>)
    requires Holds(st, x) && Reaches(st, x) && InTimeRun(st, x, es)
    ensures Holds(st, Play(st, x, es)) && Reaches(st, Play(st, x, es))
    decreases |es|
  {
    if es != [] {
      hide Holds, Reaches, Next, InTime;
      NextHolds(st, x, es[0]);
      NextReaches(st, x, es[0]);
      PlayReaches(st, Next(st, x, es[0]), es[1..]);
    }
  }

  lemma NextReaches(st: Stream, x: Session, e: Event)
    requires Holds(st, x) && Reaches(st, x) && InTime(st, x, e)
    ensures Reaches(st, Next(st, x, e))
  {
    hide Holds, QueueAnswers, Contents, Latest;
    match e
    case Arrive(_, _) => ArriveReaches(st, x, e);
    case Take(out) => TakeReaches(st, x, out);
    case Tune =>
  }

  /** Before anything has been played, a pop waits exactly while what arrived, from the first frame to the end of
      the last, is shorter than the target delay; afterwards no pop waits. */
  lemma WaitsForTarget(cfg: Config, st: Stream, es: seq<Event>, first: nat, last: nat)
    requires st.length >= 1 && InTimeRun(st, Session(Init(cfg), {}, 0, []), es)
    ensures var x := Play(st, Session(Init(cfg), {}, 0, []), es);
            && (x.taken == 0 && x.arrived == {} ==> Pop(x.s).1 == Buffering)
            && (x.taken == 0 && first in x.arrived && last in x.arrived && (forall i :: i in x.arrived ==> first <= i <= last) ==>
                  (Pop(x.s).1 == Buffering <==> st.Ts(last) + st.length - st.Ts(first) < x.s.target))
            && (x.taken > 0 && x.taken in x.arrived ==> Pop(x.s).1 == Played)
  {
    hide Play, InTimeRun;
    var x := Play(st, Session(Init(cfg), {}, 0, []), es);
    PlayReaches(st, Session(Init(cfg), {}, 0, []), es);
    if x.taken == 0 && first in x.arrived && last in x.arrived && (forall i :: i in x.arrived ==> first <= i <= last) {
      Depth(st, x, first, last);
    }
    if x.taken == 0 && x.arrived == {} { assert x.s.frames.Keys == {}; }
    if x.taken > 0 && x.taken in x.arrived { PopTakes(st, x); }
  }

  lemma Depth(st: Stream, x: Session, first: nat, last: nat)
    requires Holds(st, x) && Reaches(st, x) && x.taken == 0 && first in x.arrived && last in x.arrived
    requires forall i :: i in x.arrived ==> first <= i <= last
    ensures Pop(x.s).1 == Buffering <==> st.Ts(last) + st.length - st.Ts(first) < x.s.target
  {
    hide QueueAnswers, Contents, Pop, Unbuffer;
    Edges(st, x.arrived, first, last, x.s.newestEnd);
    FirstStored(st, x, first);
    if Waiting(x.s) { WaitingPop(x.s); } else { PopsFirst(x.s, st.Ts(first)); }
  }

  lemma Between(st: Stream, first: nat, i: nat, last: nat)
    requires first <= i <= last
    ensures st.Ts(first) <= st.Ts(i) <= st.Ts(last)
  {
    if first < i { TsOrder(st, first, i); }
    if i < last { TsOrder(st, i, last); }
  }

  lemma Edges(st: Stream, arrived: set<nat>, first: nat, last: nat, end: nat)
    requires Latest(st, arrived, end) && last in arrived && forall i :: i in arrived ==> first <= i <= last
    ensures end == st.Ts(last) + st.length
  {
    var j :| j in arrived && st.Ts(j) + st.length == end;
    Between(st, first, j, last);
  }

  lemma FirstStored(st: Stream, x: Session, first: nat)
    requires Holds(st, x) && x.taken == 0 && first in x.arrived && forall i :: i in x.arrived ==> first <= i
    ensures st.Ts(first) <= U64_MAX && st.Ts(first) in x.s.frames && First(x.s.frames.Keys) == st.Ts(first)
    ensures x.s.frames[st.Ts(first)] != []
  {
    hide QueueAnswers;
    assert Proper1(st, x.s.cfg, first);
    forall k | k in x.s.frames ensures st.Ts(first) <= k {
      var i :| i in x.arrived && x.taken <= i && k == st.Ts(i);
      Between(st, first, i, i);
    }
  }

  lemma PopsFirst(s: State, play: u64)
    requires !Waiting(s) && s.buffering && s.playTs.None? && play in s.frames && First(s.frames.Keys) == play && s.frames[play] != []
    ensures Pop(s).1 == Played
  {
  }

  // ---------------------------------------------------------------- the target

  /** What the measured jitter asks for: twice its 98th percentile and one frame, within the delay bounds. */
  ghost function Needed(s: State): nat {
    var least := Max(48 * s.cfg.minDelayMs, s.cfg.frameSamples);
    var most := Max(48 * s.cfg.maxDelayMs, least);
    Max(least, Min(most, 2 * Percentile98(s.estimate.deviations) + s.cfg.frameSamples))
  }

  ghost function Adapted(s: State, n: nat): State { if n == 0 then s else Adapt(Adapted(s, n - 1)) }

  lemma AdaptOnce(s: State)
    requires Max(48 * s.cfg.minDelayMs, s.cfg.frameSamples) <= s.target
    requires s.target <= Max(48 * s.cfg.maxDelayMs, Max(48 * s.cfg.minDelayMs, s.cfg.frameSamples))
    ensures Adapt(s) == s.(target := if s.target <= Needed(s) then Needed(s) else Max(Needed(s), s.target - 48))
  {
    hide Percentile98;
  }

  /** Without new packets the target rises to what is needed at once, and falls to it by 1 ms a call. */
  lemma {:induction false} AdaptSettles(s: State, n: nat)
    requires n > 0 && Max(48 * s.cfg.minDelayMs, s.cfg.frameSamples) <= s.target
    requires s.target <= Max(48 * s.cfg.maxDelayMs, Max(48 * s.cfg.minDelayMs, s.cfg.frameSamples))
    ensures Adapted(s, n) == s.(target := if s.target <= Needed(s) then Needed(s) else Max(Needed(s), s.target - 48 * n))
  {
    hide Adapt, Percentile98;
    if n > 1 {
      AdaptSettles(s, n - 1);
      AdaptOnce(Adapted(s, n - 1));
    } else {
      AdaptOnce(s);
      assert Adapted(s, 0) == s;
    }
  }

  /** New delay bounds move the target only as far as they force it to. */
  lemma BoundsMoveTarget(s: State, minMs: u32, maxMs: u32)
    ensures var t := SetBounds(s, minMs, maxMs);
            var least := Max(48 * minMs, s.cfg.frameSamples);
            var most := Max(least, 48 * maxMs);
            && t == s.(cfg := s.cfg.(minDelayMs := minMs, maxDelayMs := if maxMs < minMs then minMs else maxMs), target := t.target)
            && t.target == if s.target < least then least else if s.target > most then most else s.target
  {
  }

  /** A reset buffer is a new one, but for the target delay, the measured jitter and the counters. */
  lemma ResetIsNew(s: State)
    ensures Reset(s) == Init(s.cfg).(target := s.target, estimate := Estimate(None, s.estimate.deviations, s.estimate.cursor), stats := s.stats)
  {
  }

  // ---------------------------------------------------------------- a missing frame

  /** Nothing is stored at the position of a playing buffer that is not in silence. */
  ghost predicate MissingAt(s: State, play: u64) {
    !s.buffering && s.playTs == Some(play) && play !in s.frames && !s.silent
  }

  /** The frame is still worth waiting for: what is buffered and a frame do not exceed the target, and the last five
      pops have not all waited. */
  ghost predicate WorthWaiting(s: State, play: u64) {
    SatSub(s.newestEnd, play) + s.cfg.frameSamples <= s.target && s.consecutiveMissing < 5
  }

  /** A missing frame that is worth waiting for plays when it does arrive before the next pop. */
  lemma WaitsForFrame(s: State, play: u64, frame: Frame, arrival: u64)
    requires MissingAt(s, play) && WorthWaiting(s, play) && (forall k :: k in s.frames ==> play < k)
    requires frame != [] && |s.frames| < MAX_FRAMES
    requires SatSub(Max(s.newestEnd, SatAdd(play, FrameLen(s.cfg, frame))), play) <= 48 * s.cfg.maxDelayMs + 9_600
    ensures var (t, status) := Pop(s);
            var v := Push(t, play, frame, arrival);
            && status == Missing && t.playTs == Some(play) && t.consecutiveMissing == s.consecutiveMissing + 1
            && Pop(v).1 == Played && PlayedFrame(v) == frame
  {
    hide FrameLen, Pop, Push, PlayMissing;
    PopMisses(s, play);
    var t := Pop(s).0;
    HoldsPosition(s, play);
    StoredPlainly(t, play, frame, arrival);
    var v := Push(t, play, frame, arrival);
    assert KeepFrom(v.frames, play) == v.frames;
    PopPlays(v, play);
  }

  lemma HoldsPosition(s: State, play: u64)
    requires MissingAt(s, play) && WorthWaiting(s, play)
    ensures PlayMissing(s, play) ==
            (s.(consecutiveMissing := s.consecutiveMissing + 1, stats := s.stats.(missing := s.stats.missing + 1)), Missing)
  {
  }

  /** One that is not is passed over by a frame, and late when it arrives; after six pops with nothing stored the
      buffer fills up again instead, towards a target raised by two frames within its bounds. */
  lemma PassesFrame(s: State, play: u64, frame: Frame, arrival: u64)
    requires MissingAt(s, play) && !WorthWaiting(s, play) && (forall k :: k in s.frames ==> play < k)
    requires 0 < s.cfg.frameSamples && play + s.cfg.frameSamples <= U64_MAX
    requires Max(48 * s.cfg.minDelayMs, s.cfg.frameSamples) <= s.target
    ensures var (t, status) := Pop(s);
            && t.stats.missing == s.stats.missing + 1
            && if s.frames == map[] && s.consecutiveMissing >= 5 then
                 && status == Buffering && t.buffering && t.playTs == None
                 && t.stats.underruns == s.stats.underruns + 1
                 && t.target == Min(s.target + 2 * s.cfg.frameSamples,
                                    Max(48 * s.cfg.maxDelayMs, Max(48 * s.cfg.minDelayMs, s.cfg.frameSamples)))
               else
                 && status == Missing && t.playTs == Some(play + s.cfg.frameSamples)
                 && Push(t, play, frame, arrival).frames == t.frames
  {
    hide FrameLen, Pop;
    PopMisses(s, play);
  }

  lemma PopMisses(s: State, play: u64)
    requires MissingAt(s, play) && forall k :: k in s.frames ==> play < k
    ensures Pop(s) == PlayMissing(s, play)
  {
    assert KeepFrom(s.frames, play) == s.frames && StaleAudio(s.frames, play) == {};
  }
}
