/** The jitter buffer refines an ordered queue for a sender that loses nothing in time. */
module JitterQueue {
  import opened Common
  import opened Jitter
  import opened JitterTheorems

  /** A stream of contiguous frames: frame `i` starts `i` lengths after `base`. */
  datatype Stream = Stream(base: u64, length: nat, sent: nat -> Frame) {
    ghost function Ts(i: nat): nat { if i == 0 then base else Ts(i - 1) + length }
  }

  /** What happens at the receiver: frame `i` arrives (in any order, any number of times), a frame
      is taken into an output buffer, or the target is adapted. */
  datatype Event = Arrive(i: nat, at: u64) | Take(out: seq<real>) | Tune

  ghost predicate Fits(st: Stream, e: Event) { e.Arrive? ==> st.Ts(e.i) + st.length <= U64_MAX }

  ghost function OpOf(st: Stream, e: Event): Op
    requires Fits(st, e)
  {
    match e
    case Arrive(i, at) => PushOp(st.Ts(i), st.sent(i), at)
    case Take(_) => PopOp
    case Tune => AdaptOp
  }

  /** The buffer, which frames have arrived, how many were taken, and what every `pop` answered and left in
      its output buffer. */
  datatype Session = Session(s: State, arrived: set<nat>, taken: nat, answers: seq<(Status, seq<real>)>)

  ghost function Next(st: Stream, x: Session, e: Event): Session
    requires Fits(st, e)
  {
    var s1 := Step(x.s, OpOf(st, e));
    match e
    case Arrive(i, _) => x.(s := s1, arrived := x.arrived + {i})
    case Tune => x.(s := s1)
    case Take(out) =>
      var status := Pop(x.s).1;
      Session(s1, x.arrived, if status == Buffering then x.taken else x.taken + 1, x.answers + [(status, Output(x.s, out))])
  }

  /** The sender's frames are full, and every frame arrives before the pop that reaches it, within
      the jump limit and the frame cap. */
  ghost predicate InTime(st: Stream, x: Session, e: Event) {
    match e
    case Tune => true
    case Take(_) => Waiting(x.s) || x.taken in x.arrived
    case Arrive(i, _) =>
      && Fits(st, e)
      && st.sent(i) != [] && FrameLen(x.s.cfg, st.sent(i)) == st.length
      && (st.Ts(i) in x.s.frames || |x.s.frames| < MAX_FRAMES)
      && Max(x.s.newestEnd, st.Ts(i) + st.length) <= st.Ts(x.taken) + JumpLimit(x.s.cfg)
  }

  ghost predicate InTimeRun(st: Stream, x: Session, es: seq<Event>)
    decreases |es|
  {
    es == [] || (InTime(st, x, es[0]) && InTimeRun(st, Next(st, x, es[0]), es[1..]))
  }

  ghost function Play(st: Stream, x: Session, es: seq<Event>): Session
    requires InTimeRun(st, x, es)
    decreases |es|
  {
    if es == [] then x else Play(st, Next(st, x, es[0]), es[1..])
  }

  /** The queue: some number of `Buffering` answers with silence, then the sent frames from the first on. */
  ghost predicate QueueAnswers(st: Stream, answers: seq<(Status, seq<real>)>, taken: nat) {
    && taken <= |answers|
    && (forall k :: 0 <= k < |answers| - taken ==> answers[k].0 == Buffering && Carries(answers[k].1, []))
    && (forall k :: |answers| - taken <= k < |answers| ==>
          answers[k].0 == Played && Carries(answers[k].1, st.sent(k - (|answers| - taken))))
  }

  /** `frames` holds exactly the arrived frames from number `taken` on. */
  ghost predicate Contents(st: Stream, frames: map<u64, Frame>, arrived: set<nat>, taken: nat) {
    && (forall i :: i in arrived && taken <= i ==> st.Ts(i) in frames && frames[st.Ts(i)] == st.sent(i))
    && (forall k :: k in frames ==> exists i :: i in arrived && taken <= i && k == st.Ts(i))
  }

  /** The buffer state that stands for a queue from which `taken` frames have been taken. */
  ghost predicate Holds(st: Stream, x: Session) {
    && st.length >= 1
    && Contents(st, x.s.frames, x.arrived, x.taken)
    && (forall i :: i in x.arrived ==> Proper1(st, x.s.cfg, i))
    && |x.s.frames| <= MAX_FRAMES
    && (if x.s.buffering then x.s.playTs.None? && x.taken == 0 else x.s.playTs == Some(st.Ts(x.taken)))
    && QueueAnswers(st, x.answers, x.taken)
  }

  ghost predicate Proper1(st: Stream, cfg: Config, i: nat) {
    st.sent(i) != [] && FrameLen(cfg, st.sent(i)) == st.length && st.Ts(i) + st.length <= U64_MAX
  }

  lemma {:induction false} TsOrder(st: Stream, i: nat, j: nat)
    requires i < j
    ensures st.Ts(i) + st.length <= st.Ts(j)
  {
    if i < j - 1 { TsOrder(st, i, j - 1); }
  }

  lemma ContentsPut(st: Stream, frames: map<u64, Frame>, arrived: set<nat>, taken: nat, i: nat)
    requires st.length >= 1 && Contents(st, frames, arrived, taken) && taken <= i && st.Ts(i) <= U64_MAX
    ensures Contents(st, frames[st.Ts(i) := st.sent(i)], arrived + {i}, taken)
  {
    forall j | j in arrived && taken <= j && j != i ensures st.Ts(j) != st.Ts(i) {
      if j < i { TsOrder(st, j, i); } else { TsOrder(st, i, j); }
    }
    forall k | k in frames ensures exists j :: j in arrived + {i} && taken <= j && k == st.Ts(j) {
      var j :| j in arrived && taken <= j && k == st.Ts(j);
      assert j in arrived + {i};
    }
    assert i in arrived + {i};
  }

  lemma ContentsTake(st: Stream, frames: map<u64, Frame>, arrived: set<nat>, taken: nat)
    requires st.length >= 1 && Contents(st, frames, arrived, taken) && taken in arrived
    ensures Contents(st, frames - {st.Ts(taken)}, arrived, taken + 1)
  {
    forall j | j in arrived && taken < j ensures st.Ts(j) != st.Ts(taken) {
      TsOrder(st, taken, j);
    }
    forall k | k in frames - {st.Ts(taken)} ensures exists j :: j in arrived && taken + 1 <= j && k == st.Ts(j) {
      var j :| j in arrived && taken <= j && k == st.Ts(j);
      assert j != taken;
    }
  }

  /** A frame in time is stored and nothing else happens. */
  lemma StoredPlainly(s: State, ts: u64, frame: Frame, at: u64)
    requires |s.frames| <= MAX_FRAMES && !Late(s, ts) && (ts in s.frames || |s.frames| < MAX_FRAMES)
    requires s.playTs.Some? ==> SatSub(Max(s.newestEnd, SatAdd(ts, FrameLen(s.cfg, frame))), s.playTs.value) <= JumpLimit(s.cfg)
    ensures var t := Push(s, ts, frame, at);
            && t.frames == s.frames[ts := frame] && t.playTs == s.playTs && t.buffering == s.buffering
            && t.cfg == s.cfg && |t.frames| <= MAX_FRAMES
  {
    var s1 := Received(s, ts, at);
    PutSize(s.frames, ts, frame);
    CapOnce(s1.(newestEnd := Max(s.newestEnd, SatAdd(ts, FrameLen(s.cfg, frame))), frames := s.frames[ts := frame]));
  }

  lemma ArriveHolds(st: Stream, x: Session, e: Event)
    requires Holds(st, x) && e.Arrive? && InTime(st, x, e)
    ensures Holds(st, Next(st, x, e))
  {
    hide QueueAnswers;
    var ts, frame := st.Ts(e.i), st.sent(e.i);
    assert Proper1(st, x.s.cfg, e.i);
    if e.i < x.taken {
      TsOrder(st, e.i, x.taken);
      assert Late(x.s, ts);
    } else {
      if x.taken < e.i { TsOrder(st, x.taken, e.i); }
      StoredPlainly(x.s, ts, frame, e.at);
      ContentsPut(st, x.s.frames, x.arrived, x.taken, e.i);
    }
  }

  /** The frame at the play position is buffered, and nothing buffered is older. */
  lemma TakeFinds(st: Stream, x: Session)
    requires Holds(st, x) && !Waiting(x.s) && x.taken in x.arrived
    ensures Unbuffer(x.s).playTs == Some(st.Ts(x.taken))
    ensures KeepFrom(x.s.frames, st.Ts(x.taken)) == x.s.frames
    ensures StaleAudio(x.s.frames, st.Ts(x.taken)) == {}
  {
    var play: u64 := st.Ts(x.taken);
    forall k | k in x.s.frames ensures play <= k {
      var i :| i in x.arrived && x.taken <= i && k == st.Ts(i);
      if x.taken < i { TsOrder(st, x.taken, i); }
    }
    assert play in x.s.frames;
    assert First(x.s.frames.Keys) == play;
  }

  /** Popping with an audio frame at the play position and nothing older. */
  lemma PopPlays(s: State, play: u64)
    requires !Waiting(s) && Unbuffer(s).playTs == Some(play) && play in s.frames && s.frames[play] != []
    requires KeepFrom(s.frames, play) == s.frames
    ensures var (t, status) := Pop(s);
            && status == Played && PlayedFrame(s) == s.frames[play] && t.frames == s.frames - {play}
            && t.playTs == Some(SatAdd(play, FrameLen(s.cfg, s.frames[play]))) && !t.buffering && t.cfg == s.cfg
  {
  }

  lemma NextTaken(st: Stream, x: Session, play: u64, out: seq<real>) returns (t: State, heard: seq<real>)
    requires !Waiting(x.s) && Unbuffer(x.s).playTs == Some(play) && play in x.s.frames && x.s.frames[play] != []
    requires KeepFrom(x.s.frames, play) == x.s.frames
    ensures t.frames == x.s.frames - {play} && t.cfg == x.s.cfg && !t.buffering
    ensures t.playTs == Some(SatAdd(play, FrameLen(x.s.cfg, x.s.frames[play])))
    ensures Carries(heard, x.s.frames[play])
    ensures Next(st, x, Take(out)) == Session(t, x.arrived, x.taken + 1, x.answers + [(Played, heard)])
  {
    PopPlays(x.s, play);
    t := Pop(x.s).0;
    heard := Output(x.s, out);
  }

  lemma AnswersGrow(st: Stream, answers: seq<(Status, seq<real>)>, taken: nat, heard: seq<real>)
    requires QueueAnswers(st, answers, taken) && Carries(heard, st.sent(taken))
    ensures QueueAnswers(st, answers + [(Played, heard)], taken + 1)
  {
    hide Carries;
    var more := answers + [(Played, heard)];
    assert |more| - (taken + 1) == |answers| - taken;
  }

  /** Handing out the next frame of the queue. */
  lemma TakenHolds(st: Stream, x: Session, t: State, heard: seq<real>)
    requires Holds(st, x) && x.taken in x.arrived && st.Ts(x.taken) in x.s.frames
    requires t.frames == x.s.frames - {st.Ts(x.taken)} && t.cfg == x.s.cfg && !t.buffering
    requires t.playTs == Some(st.Ts(x.taken + 1)) && Carries(heard, st.sent(x.taken))
    ensures Holds(st, Session(t, x.arrived, x.taken + 1, x.answers + [(Played, heard)]))
  {
    hide Contents, QueueAnswers, Carries;
    RemoveSize(x.s.frames, st.Ts(x.taken));
    ContentsTake(st, x.s.frames, x.arrived, x.taken);
    AnswersGrow(st, x.answers, x.taken, heard);
  }

  lemma WaitHolds(st: Stream, x: Session, heard: seq<real>)
    requires Holds(st, x) && x.s.buffering && Carries(heard, [])
    ensures Holds(st, Session(x.s, x.arrived, x.taken, x.answers + [(Buffering, heard)]))
  {
    hide Carries, Contents;
  }

  lemma TakeHolds(st: Stream, x: Session, out: seq<real>)
    requires Holds(st, x) && InTime(st, x, Take(out))
    ensures Holds(st, Next(st, x, Take(out)))
  {
    if Waiting(x.s) {
      WaitHolds(st, x, Output(x.s, out));
    } else {
      TakePlays(st, x, out);
    }
  }

  lemma TakePlays(st: Stream, x: Session, out: seq<real>)
    requires Holds(st, x) && !Waiting(x.s) && x.taken in x.arrived
    ensures Holds(st, Next(st, x, Take(out)))
  {
    TakeFinds(st, x);
    assert Proper1(st, x.s.cfg, x.taken);
    var t, heard := NextTaken(st, x, st.Ts(x.taken), out);
    TakenHolds(st, x, t, heard);
  }

  lemma NextHolds(st: Stream, x: Session, e: Event)
    requires Holds(st, x) && InTime(st, x, e)
    ensures Holds(st, Next(st, x, e))
  {
    match e
    case Arrive(_, _) => ArriveHolds(st, x, e);
    case Take(out) => TakeHolds(st, x, out);
    case Tune =>
  }

  lemma {:induction false} PlayHolds(st: Stream, x: Session, es: seq<Event>)
    requires Holds(st, x) && InTimeRun(st, x, es)
    ensures Holds(st, Play(st, x, es))
    decreases |es|
  {
    if es != [] {
      NextHolds(st, x, es[0]);
      PlayHolds(st, Next(st, x, es[0]), es[1..]);
    }
  }

  /** Arrivals in any order and with any duplicates come out as the sent frames in timestamp order,
      all `Played` and sample for sample in the output buffers, once the target is reached. */
  lemma RefinesQueue(cfg: Config, st: Stream, es: seq<Event>)
    requires st.length >= 1 && InTimeRun(st, Session(Init(cfg), {}, 0, []), es)
    ensures var x := Play(st, Session(Init(cfg), {}, 0, []), es); QueueAnswers(st, x.answers, x.taken)
  {
    PlayHolds(st, Session(Init(cfg), {}, 0, []), es);
  }

  // ---------------------------------------------------------------- the sound

  /** The first `n` frames sent, one after the other. */
  ghost function Sound(st: Stream, n: nat): seq<real> { if n == 0 then [] else Sound(st, n - 1) + st.sent(n - 1) }

  /** What the device hears: the buffers of the pops that played. */
  ghost function Heard(answers: seq<(Status, seq<real>)>): seq<real> {
    if answers == [] then [] else
    var last := answers[|answers| - 1];
    Heard(answers[..|answers| - 1]) + if last.0 == Played then last.1 else []
  }

  /** Every buffer a frame is played into is as long as the frame. */
  ghost predicate Fitting(st: Stream, answers: seq<(Status, seq<real>)>, taken: nat)
    requires taken <= |answers|
  {
    forall k :: |answers| - taken <= k < |answers| ==> |answers[k].1| == |st.sent(k - (|answers| - taken))|
  }

  lemma {:induction false} NothingHeard(answers: seq<(Status, seq<real>)>)
    requires forall j :: 0 <= j < |answers| ==> answers[j].0 == Buffering
    ensures Heard(answers) == []
  {
    if answers != [] { NothingHeard(answers[..|answers| - 1]); }
  }

  lemma {:induction false} HeardIsSound(st: Stream, answers: seq<(Status, seq<real>)>, taken: nat)
    requires QueueAnswers(st, answers, taken) && Fitting(st, answers, taken)
    ensures Heard(answers) == Sound(st, taken)
    decreases taken
  {
    if taken == 0 {
      NothingHeard(answers);
    } else {
      var n := |answers| - 1;
      var front, last := answers[..n], answers[n];
      assert |front| - (taken - 1) == |answers| - taken;
      HeardIsSound(st, front, taken - 1);
      assert last.1 == st.sent(taken - 1);
    }
  }

  /** With output buffers one frame long, what is heard is what was sent, from the first sample on. */
  lemma HearsWhatWasSent(cfg: Config, st: Stream, es: seq<Event>)
    requires st.length >= 1 && InTimeRun(st, Session(Init(cfg), {}, 0, []), es)
    ensures var x := Play(st, Session(Init(cfg), {}, 0, []), es);
            x.taken <= |x.answers| && (Fitting(st, x.answers, x.taken) ==> Heard(x.answers) == Sound(st, x.taken))
  {
    RefinesQueue(cfg, st, es);
    var x := Play(st, Session(Init(cfg), {}, 0, []), es);
    if Fitting(st, x.answers, x.taken) { HeardIsSound(st, x.answers, x.taken); }
  }
}
