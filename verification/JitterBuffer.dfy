/** The jitter buffer as the program keeps it: one object whose methods update its fields. */
module JitterBuffers {
  import opened Common
  import opened Jitter

  /** The oldest buffered frame, as an ordered map gives it. */
  method FirstOf(frames: map<u64, Frame>) returns (first: Option<u64>)
    ensures first == FirstKey(frames)
  {
    first := None;
    var keys := frames.Keys;
    while keys != {}
      invariant keys <= frames.Keys
      invariant first.None? ==> keys == frames.Keys
      invariant first.Some? ==>
                  && first.value in frames
                  && forall k :: k in frames && k !in keys ==> first.value <= k
      decreases |keys|
    {
      var k :| k in keys;
      keys := keys - {k};
      if first.None? || k < first.value { first := Some(k); }
    }
  }

  lemma CapNone(s: State)
    requires |s.frames| <= MAX_FRAMES
    ensures Cap(s) == s
  {
  }

  /** What one round of the overflow loop leaves to do. */
  lemma CapOne(s: State)
    requires |s.frames| > MAX_FRAMES
    ensures var rest := s.frames - {First(s.frames.Keys)};
            && |rest| < |s.frames|
            && Cap(s) == Cap(s.(frames := rest, stats := s.stats.(late := s.stats.late + 1)))
  {
    var f := First(s.frames.Keys);
    assert (s.frames - {f}).Keys == s.frames.Keys - {f};
  }

  /** What one round of the drop loop leaves to do. */
  lemma DropOne(s: State, f: u64, play: u64)
    requires f in s.frames && f < play
    ensures DropOlder(s, play) ==
            DropOlder(s.(frames := s.frames - {f},
                         stats := if s.frames[f] != [] then s.stats.(late := s.stats.late + 1) else s.stats), play)
  {
    var rest := s.frames - {f};
    assert KeepFrom(rest, play) == KeepFrom(s.frames, play);
    assert StaleAudio(rest, play) == StaleAudio(s.frames, play) - {f};
  }

  lemma DropKeepsFrame(s: State, play: u64)
    ensures DropOlder(s, play).playTs == s.playTs
    ensures play in DropOlder(s, play).frames <==> play in s.frames
    ensures play in s.frames ==> DropOlder(s, play).frames[play] == s.frames[play]
  {
  }

  lemma DropNone(s: State, play: u64)
    requires forall k :: k in s.frames ==> play <= k
    ensures DropOlder(s, play) == s
  {
    assert KeepFrom(s.frames, play) == s.frames;
    assert StaleAudio(s.frames, play) == {};
  }

  class JitterBuffer {
    var cfg: Config
    var frames: map<u64, Frame>
    var playTs: Option<u64>
    var newestEnd: u64
    var buffering: bool
    var silent: bool
    var consecutiveMissing: nat
    var target: u64
    var estimate: Estimate
    var stats: Stats

    ghost function Abs(): State
      reads this
    {
      State(cfg, frames, playTs, newestEnd, buffering, silent, consecutiveMissing, target, estimate, stats)
    }

    constructor (config: Config)
      ensures Abs() == Init(config)
    {
      cfg := config;
      frames, playTs, newestEnd := map[], None, 0;
      buffering, silent, consecutiveMissing := true, false, 0;
      target := Max(MsToSamples(config.minDelayMs), config.frameSamples);
      estimate := Estimate(None, [], 0);
      stats := Stats(0, 0, 0, 0, 0, 0);
    }

    method SetDelayBounds(minMs: u32, maxMs: u32)
      modifies this
      ensures Abs() == SetBounds(old(Abs()), minMs, maxMs)
    {
      cfg := cfg.(minDelayMs := minMs);
      cfg := cfg.(maxDelayMs := if maxMs < minMs then minMs else maxMs);
      target := ClampTarget(cfg, target);
    }

    method PushFrame(ts: u64, samples: Frame, arrival: u64)
      modifies this
      ensures Abs() == Push(old(Abs()), ts, samples, arrival)
    {
      stats := stats.(received := stats.received + 1);
      estimate := Observe(estimate, ts, arrival);
      if playTs.Some? && ts < playTs.value {
        stats := stats.(late := stats.late + 1);
        return;
      }
      StoreFrame(ts, samples);
      JumpForward();
    }

    /** Insert, then bound the number of buffered frames. */
    method StoreFrame(ts: u64, samples: Frame)
      modifies this
      ensures Abs() == Store(old(Abs()), ts, samples)
    {
      newestEnd := Max(newestEnd, SatAdd(ts, FrameLen(cfg, samples)));
      frames := frames[ts := samples];
      BoundFrames();
    }

    method BoundFrames()
      modifies this`frames, this`stats
      ensures Abs() == Cap(old(Abs()))
    {
      hide Cap;
      while |frames| > MAX_FRAMES
        invariant Cap(Abs()) == Cap(old(Abs()))
        decreases |frames|
      {
        var first := FirstOf(frames);
        CapOne(Abs());
        frames := frames - {first.value};
        stats := stats.(late := stats.late + 1);
      }
      CapNone(Abs());
    }

    /** Far too much buffered: continue from the target delay. */
    method JumpForward()
      modifies this
      ensures Abs() == Jump(old(Abs()))
    {
      var limit := MsToSamples(cfg.maxDelayMs) + MsToSamples(200);
      if playTs.Some? && SatSub(newestEnd, playTs.value) > limit {
        var newPlay := SatSub(newestEnd, target);
        frames := map k | k in frames && newPlay <= k :: frames[k];
        playTs := FirstOf(frames);
      }
    }

    method PushSilence(ts: u64, arrival: u64)
      modifies this
      ensures Abs() == Push(old(Abs()), ts, [], arrival)
    {
      PushFrame(ts, [], arrival);
    }

    /** A frame at `ts` is buffered or can no longer be played. */
    method Has(ts: u64) returns (r: bool)
      ensures r <==> ts in frames || Late(Abs(), ts)
    {
      r := ts in frames || (playTs.Some? && ts < playTs.value);
    }

    method BufferedSamples() returns (n: u64)
      ensures n == Buffered(Abs())
      ensures n == match PlaysAt(Abs())
                   case Some(play) => if newestEnd < play then 0 else newestEnd - play
                   case None => 0
    {
      if playTs.Some? { return SatSub(newestEnd, playTs.value); }
      var first := FirstOf(frames);
      n := if first.Some? then SatSub(newestEnd, first.value) else 0;
    }

    method PopInto(out: array<real>) returns (status: Status)
      modifies this, out
      ensures (Abs(), status) == Pop(old(Abs()))
      ensures out[..] == Output(old(Abs()), old(out[..]))
      ensures status == Played ==>
                var play := old(PlaysAt(Abs()));
                && play.Some? && play.value in old(frames)
                && forall i :: 0 <= i < out.Length ==>
                     out[i] == if i < |old(frames)[play.value]| then old(frames)[play.value][i] else 0.0
      ensures status == Silence || status == Buffering ==> forall i :: 0 <= i < out.Length ==> out[i] == 0.0
      ensures status == Missing ==> out[..] == old(out[..])
    {
      hide PlayAt, DropOlder;
      if buffering {
        var buffered := BufferedSamples();
        if buffered < target || frames == map[] {
          Fill(out, 0);
          return Buffering;
        }
        buffering := false;
        if playTs.None? { playTs := FirstOf(frames); }
      }
      if playTs.None? {
        Fill(out, 0);
        return Buffering;
      }
      var play := playTs.value;
      assert Abs() == Unbuffer(old(Abs()));
      DropKeepsFrame(Abs(), play);
      DropBefore(play);
      status := PlayFrom(play, out);
    }

    /** Drop anything older than the play position. */
    method DropBefore(play: u64)
      modifies this
      ensures Abs() == DropOlder(old(Abs()), play)
    {
      var first := FirstOf(frames);
      while first.Some? && first.value < play
        invariant DropOlder(Abs(), play) == DropOlder(old(Abs()), play)
        invariant first == FirstKey(frames)
        decreases |frames|
      {
        DropOne(Abs(), first.value, play);
        assert (frames - {first.value}).Keys == frames.Keys - {first.value};
        if frames[first.value] != [] { stats := stats.(late := stats.late + 1); }
        frames := frames - {first.value};
        first := FirstOf(frames);
      }
      DropNone(Abs(), play);
    }

    method PlayFrom(play: u64, out: array<real>) returns (status: Status)
      requires playTs == Some(play)
      modifies this, out
      ensures (Abs(), status) == PlayAt(old(Abs()), play)
      ensures status == Played ==> play in old(frames) && Carries(out[..], old(frames)[play])
      ensures status == Missing ==> out[..] == old(out[..])
      ensures status == Silence || status == Buffering ==> Carries(out[..], [])
    {
      if play in frames {
        var frame := frames[play];
        frames := frames - {play};
        if frame == [] {
          silent := true;
          PlaySilent(play, out);
          return Silence;
        }
        silent := false;
        CopyFrame(frame, out);
        playTs := Some(SatAdd(play, FrameLen(cfg, frame)));
        consecutiveMissing := 0;
        stats := stats.(played := stats.played + 1);
        return Played;
      }
      if silent {
        PlaySilent(play, out);
        return Silence;
      }
      status := Conceal(play, out);
    }

    /** The frame is missing: hold, underrun, or move on. */
    method Conceal(play: u64, out: array<real>) returns (status: Status)
      requires playTs == Some(play)
      modifies this, out
      ensures (Abs(), status) == PlayMissing(old(Abs()), play)
      ensures status == Missing ==> out[..] == old(out[..])
      ensures status != Missing ==> status == Buffering && Carries(out[..], [])
    {
      var advance := cfg.frameSamples;
      stats := stats.(missing := stats.missing + 1);
      consecutiveMissing := consecutiveMissing + 1;
      var haveFuture := frames != map[];
      var buffered := BufferedSamples();
      if buffered + advance <= target && consecutiveMissing <= MAX_CONCEAL_FRAMES {
        return Missing;
      }
      if !haveFuture && consecutiveMissing > MAX_CONCEAL_FRAMES {
        stats := stats.(underruns := stats.underruns + 1);
        target := ClampTarget(cfg, SatAdd(target, 2 * advance));
        buffering := true;
        playTs := None;
        consecutiveMissing := 0;
        Fill(out, 0);
        return Buffering;
      }
      playTs := Some(SatAdd(play, advance));
      return Missing;
    }

    method PlaySilent(play: u64, out: array<real>)
      modifies this, out
      ensures Abs() == PlaySilence(old(Abs()), play)
      ensures Carries(out[..], [])
    {
      Fill(out, 0);
      playTs := Some(SatAdd(play, cfg.frameSamples));
      consecutiveMissing := 0;
      stats := stats.(silent := stats.silent + 1);
    }

    method AdaptTarget()
      modifies this
      ensures Abs() == Adapt(old(Abs()))
    {
      var needed := ClampTarget(cfg, SatAdd(2 * Percentile98(estimate.deviations), cfg.frameSamples));
      if needed > target {
        target := needed;
      } else {
        target := ClampTarget(cfg, Max(SatSub(target, MsToSamples(1)), needed));
      }
    }

    method Clear()
      modifies this
      ensures Abs() == Reset(old(Abs()))
    {
      frames, playTs, newestEnd := map[], None, 0;
      buffering, silent, consecutiveMissing := true, false, 0;
      estimate := estimate.(lastTransit := None);
    }
  }

  /** Zeros from index `from` on. */
  method Fill(out: array<real>, from: nat)
    requires from <= out.Length
    modifies out
    ensures Carries(out[..], old(out[..from]))
  {
    for i := from to out.Length
      invariant forall j :: from <= j < i ==> out[j] == 0.0
      invariant forall j :: 0 <= j < from ==> out[j] == old(out[j])
    {
      out[i] := 0.0;
    }
  }

  /** The frame, cut to the buffer or followed by zeros. */
  method CopyFrame(frame: Frame, out: array<real>)
    modifies out
    ensures Carries(out[..], frame)
  {
    var n := Min(|frame|, out.Length);
    for i := 0 to n
      invariant forall j :: 0 <= j < i ==> out[j] == frame[j]
    {
      out[i] := frame[i];
    }
    Fill(out, n);
  }
}
