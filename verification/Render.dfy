/** Turning 10 ms pipeline blocks into device buffers (sp-audio-io/src/convert.rs). */
module Render {
  import opened Common
  import R = Resampler

  type Frame = R.Frame

  const BLOCK: nat := 480

  // ---------------------------------------------------------------- channels

  /** One frame in the device's channel layout. */
  function MapFrame(f: Frame, d: nat): (r: Frame)
    ensures |r| == d
  {
    if |f| == d then f
    else if |f| == 1 then seq(d, _ => f[0])
    else if |f| == 2 && d == 1 then [(f[0] + f[1]) * 0.5]
    else if |f| == 2 && d >= 2 then [f[0], f[1]] + seq(d - 2, _ => 0.0)
    else seq(d, _ => 0.0)
  }

  /** What a device frame is, channel by channel: the frame itself, its one channel everywhere, the mean of its two,
      or its two and silence. */
  ghost predicate Mapped(src: Frame, dst: Frame) {
    && (|src| == |dst| ==> dst == src)
    && (|src| == 1 ==> forall c :: 0 <= c < |dst| ==> dst[c] == src[0])
    && (|src| == 2 && |dst| == 1 ==> dst[0] == (src[0] + src[1]) / 2.0)
    && (|src| == 2 && |dst| > 2 ==> dst[0] == src[0] && dst[1] == src[1] && forall c :: 2 <= c < |dst| ==> dst[c] == 0.0)
    && (|src| > 2 && |src| != |dst| ==> forall c :: 0 <= c < |dst| ==> dst[c] == 0.0)
  }

  lemma MapSample(f: Frame, d: nat, c: nat)
    requires c < d
    ensures MapFrame(f, d)[c] ==
            if |f| == d then f[c] else if |f| == 1 then f[0] else if |f| == 2 && d == 1 then (f[0] + f[1]) * 0.5
            else if |f| == 2 && c < 2 then f[c] else 0.0
  {
  }

  lemma MapsChannels(f: Frame, d: nat)
    ensures Mapped(f, MapFrame(f, d))
  {
  }

  /** Interleaved device samples of `frames`. */
  ghost function Interleaved(frames: seq<Frame>, d: nat): seq<real> {
    if frames == [] then []
    else Interleaved(frames[..|frames| - 1], d) + MapFrame(frames[|frames| - 1], d)
  }

  lemma InterleavedNext(a: seq<Frame>, f: Frame, d: nat)
    ensures Interleaved(a + [f], d) == Interleaved(a, d) + MapFrame(f, d)
  {
    hide MapFrame;
    assert (a + [f])[..|a|] == a;
  }

  lemma {:induction false} InterleavedAdds(a: seq<Frame>, b: seq<Frame>, d: nat)
    ensures Interleaved(a + b, d) == Interleaved(a, d) + Interleaved(b, d)
    decreases |b|
  {
    hide MapFrame;
    if b == [] {
      assert a + b == a;
    } else {
      hide Interleaved;
      var c, f := b[..|b| - 1], b[|b| - 1];
      InterleavedAdds(a, c, d);
      InterleavedNext(a + c, f, d);
      InterleavedNext(c, f, d);
      assert a + b == a + c + [f] && b == c + [f];
    }
  }

  /** Samples in `n` frames. */
  function Samples(n: nat, d: nat): nat { if n == 0 then 0 else Samples(n - 1, d) + d }

  lemma {:induction false} SamplesAdd(m: nat, n: nat, d: nat)
    ensures Samples(m + n, d) == Samples(m, d) + Samples(n, d)
  {
    if n > 0 { SamplesAdd(m, n - 1, d); }
  }

  lemma {:induction false} SamplesProduct(n: nat, d: nat)
    ensures Samples(n, d) == n * d
  {
    if n > 0 {
      SamplesProduct(n - 1, d);
      assert (n - 1) * d + d == n * d;
    }
  }

  /** Dividing by the channel count gives the frames back. */
  lemma FramesOf(n: nat, d: nat)
    requires d > 0
    ensures Samples(n, d) / d == n
  {
    SamplesProduct(n, d);
    QuotientUnique(d, n, n * d / d, 0, n * d % d);
  }

  lemma WholeFrames(len: nat, d: nat)
    requires d > 0 && len % d == 0
    ensures Samples(len / d, d) == len
  {
    SamplesProduct(len / d, d);
  }

  // ---------------------------------------------------------------- the converted stream

  /** What the pipeline delivers: block after block. */
  ghost predicate Source(pull: nat -> seq<Frame>, channels: nat) {
    forall k :: |pull(k)| == BLOCK && R.Wide(pull(k), channels)
  }

  /** The first `k` blocks. */
  ghost function Blocks(pull: nat -> seq<Frame>, channels: nat, k: nat): (xs: seq<Frame>)
    requires Source(pull, channels)
    ensures R.Wide(xs, channels)
  {
    if k == 0 then [] else Blocks(pull, channels, k - 1) + pull(k - 1)
  }

  /** The resampler after `k` blocks and everything it has produced; no ratio means the device runs at
      the pipeline's rate. */
  ghost function Converted(pull: nat -> seq<Frame>, channels: nat, ratio: Option<real>, k: nat): (r: (R.State, seq<Frame>))
    requires Source(pull, channels) && (ratio.Some? ==> ratio.value > 0.0)
    ensures R.Valid(r.0) && r.0.channels == channels
  {
    match ratio
    case None => (R.Init(channels), Blocks(pull, channels, k))
    case Some(r) => R.Resample(R.Init(channels), Blocks(pull, channels, k), r)
  }

  /** One block more. */
  lemma ConvertedNext(pull: nat -> seq<Frame>, channels: nat, ratio: Option<real>, k: nat)
    requires Source(pull, channels) && (ratio.Some? ==> ratio.value > 0.0)
    ensures var (s, out) := Converted(pull, channels, ratio, k);
            Converted(pull, channels, ratio, k + 1) ==
            match ratio
            case None => (s, out + pull(k))
            case Some(r) => (R.Resample(s, pull(k), r).0, out + R.Resample(s, pull(k), r).1)
  {
    hide R.Resample;
    if ratio.Some? {
      R.SplitIrrelevant(R.Init(channels), Blocks(pull, channels, k), pull(k), ratio.value);
    }
  }

  /** Pulling more only appends. */
  lemma {:induction false} StreamGrows(pull: nat -> seq<Frame>, channels: nat, ratio: Option<real>, j: nat, k: nat)
    requires Source(pull, channels) && (ratio.Some? ==> ratio.value > 0.0) && j <= k
    ensures Converted(pull, channels, ratio, j).1 <= Converted(pull, channels, ratio, k).1
    decreases k
  {
    hide Converted, R.Resample;
    if j < k {
      StreamGrows(pull, channels, ratio, j, k - 1);
      ConvertedNext(pull, channels, ratio, k - 1);
    }
  }

  /** The first `m` frames of what `k` blocks give, as device samples. */
  ghost function Played(pull: nat -> seq<Frame>, channels: nat, ratio: Option<real>, d: nat, k: nat, m: nat): seq<real>
    requires Source(pull, channels) && (ratio.Some? ==> ratio.value > 0.0)
    requires m <= |Converted(pull, channels, ratio, k).1|
  {
    Interleaved(Converted(pull, channels, ratio, k).1[..m], d)
  }

  lemma {:induction false} InterleavedLength(frames: seq<Frame>, d: nat)
    ensures |Interleaved(frames, d)| == Samples(|frames|, d)
  {
    hide MapFrame;
    if frames != [] { InterleavedLength(frames[..|frames| - 1], d); }
  }

  /** Sample `c` of frame `j`. */
  lemma InterleavedSample(frames: seq<Frame>, d: nat, j: nat, c: nat)
    requires j < |frames| && c < d
    ensures Samples(j, d) + c < |Interleaved(frames, d)|
    ensures Interleaved(frames, d)[Samples(j, d) + c] == MapFrame(frames[j], d)[c]
  {
    hide MapFrame, Interleaved, Samples;
    var front, rest := frames[..j + 1], frames[j + 1..];
    InterleavedAdds(front, rest, d);
    InterleavedNext(frames[..j], frames[j], d);
    InterleavedLength(frames[..j], d);
    assert frames == front + rest && front == frames[..j] + [frames[j]];
  }

  lemma {:induction false} ConvertedWide(pull: nat -> seq<Frame>, channels: nat, ratio: Option<real>, k: nat)
    requires Source(pull, channels) && (ratio.Some? ==> ratio.value > 0.0)
    ensures R.Wide(Converted(pull, channels, ratio, k).1, channels)
  {
    hide R.Resample;
  }

  /** Which sample of the converted stream each device channel gets: sample `j * d + c` of everything written
      is channel `c` of the device's frame `j`. */
  lemma DeviceSamples(pull: nat -> seq<Frame>, channels: nat, ratio: Option<real>, d: nat, k: nat, m: nat, j: nat, c: nat)
    requires 1 <= channels <= 2 && Source(pull, channels) && (ratio.Some? ==> ratio.value > 0.0)
    requires m <= |Converted(pull, channels, ratio, k).1| && j < m && c < d
    ensures |Played(pull, channels, ratio, d, k, m)| == m * d && 0 <= j * d + c < m * d
    ensures var src := Converted(pull, channels, ratio, k).1[j];
            && |src| == channels
            && Played(pull, channels, ratio, d, k, m)[j * d + c] ==
               (if channels == d then src[c]
                else if channels == 1 then src[0]
                else if d == 1 then (src[0] + src[1]) / 2.0
                else if c < 2 then src[c]
                else 0.0)
  {
    hide Converted, Interleaved, Samples;
    var stream := Converted(pull, channels, ratio, k).1;
    ConvertedWide(pull, channels, ratio, k);
    InterleavedSample(stream[..m], d, j, c);
    InterleavedLength(stream[..m], d);
    SamplesProduct(j, d);
    SamplesProduct(m, d);
  }

  /** A mono stream on a stereo device, heard in mono again. */
  lemma MonoComesBack(x: real)
    ensures MapFrame(MapFrame([x], 2), 1) == [x]
  {
  }

  /** Two converters of one stream, however their device buffers were sized and however far they have
      pulled, have written the same samples as far as both got. */
  lemma BufferSizesIrrelevant(pull: nat -> seq<Frame>, channels: nat, ratio: Option<real>, d: nat,
                              k: nat, m: nat, k': nat, m': nat)
    requires Source(pull, channels) && (ratio.Some? ==> ratio.value > 0.0)
    requires m <= |Converted(pull, channels, ratio, k).1| && m' <= |Converted(pull, channels, ratio, k').1|
    requires m <= m'
    ensures Played(pull, channels, ratio, d, k, m) <= Played(pull, channels, ratio, d, k', m')
  {
    hide Converted, Interleaved;
    var a, b := Converted(pull, channels, ratio, k).1, Converted(pull, channels, ratio, k').1;
    if k <= k' { StreamGrows(pull, channels, ratio, k, k'); } else { StreamGrows(pull, channels, ratio, k', k); }
    assert a[..m] == b[..m] && b[..m'] == b[..m] + b[m..m'];
    InterleavedAdds(b[..m], b[m..m'], d);
  }

  lemma {:induction false} BlocksLength(pull: nat -> seq<Frame>, channels: nat, k: nat)
    requires Source(pull, channels)
    ensures |Blocks(pull, channels, k)| == BLOCK * k
  {
    if k > 0 { BlocksLength(pull, channels, k - 1); }
  }

  /** Exactly how many device frames `k` blocks give, and what each of them is. */
  lemma BlocksYield(pull: nat -> seq<Frame>, channels: nat, ratio: Option<real>, k: nat)
    requires Source(pull, channels) && (ratio.Some? ==> ratio.value > 0.0)
    ensures var out := Converted(pull, channels, ratio, k).1;
            match ratio
            case None => out == Blocks(pull, channels, k) && |out| == BLOCK * k
            case Some(r) =>
              && |out| == (if k == 0 then 0 else R.Ceil(((BLOCK * k) as real - 3.0) / r))
              && R.DirectFrom(channels, Blocks(pull, channels, k), r, 0, out)
  {
    BlocksLength(pull, channels, k);
    if ratio.Some? {
      hide R.Resample, R.DirectFrom, R.Ceil;
      R.StreamIsDirect(channels, Blocks(pull, channels, k), ratio.value);
      R.ExactCount(channels, Blocks(pull, channels, k), ratio.value);
    }
  }

  // ---------------------------------------------------------------- progress

  /** A block that produces nothing moves the read position closer, because at least its last frame was
      consumed from a full window. */
  lemma {:induction false} EmptyMeansCloser(s: R.State, xs: seq<Frame>, ratio: real)
    requires ratio > 0.0 && R.Valid(s) && R.Wide(xs, s.channels)
    ensures var (s1, out) := R.Resample(s, xs, ratio);
            && s1.primed == Min(s.primed + |xs|, 4)
            && (out == [] && |xs| >= 4 ==> s1.phase <= s.phase - 1.0)
            && (out == [] ==> s1.phase <= s.phase)
  {
    hide R.Step;
    if xs != [] {
      var n := |xs| - 1;
      EmptyMeansCloser(s, xs[..n], ratio);
      var (s1, out) := R.Resample(s, xs[..n], ratio);
      StepCloser(s1, xs[n], ratio);
    }
  }

  lemma StepCloser(s: R.State, x: Frame, ratio: real)
    requires ratio > 0.0 && R.Valid(s) && |x| == s.channels
    ensures var (s1, out) := R.Step(s, x, ratio);
            && s1.primed == Min(s.primed + 1, 4)
            && (out == [] ==> s1.phase == if s.primed >= 3 then s.phase - 1.0 else s.phase)
  {
    hide R.Step, R.Pos;
    if s.primed >= 3 {
      R.StepAdvances(s, x, ratio);
      R.NextPos(0, ratio);
    } else {
      Filling(s, x, ratio);
    }
  }

  lemma Filling(s: R.State, x: Frame, ratio: real)
    requires ratio > 0.0 && R.Valid(s) && |x| == s.channels && s.primed < 3
    ensures R.Step(s, x, ratio).0.primed == s.primed + 1 && R.Step(s, x, ratio).0.phase == s.phase
  {
  }

  // ---------------------------------------------------------------- the object

  /** Write one frame at `at`. */
  method MapChannels(src: Frame, out: array<real>, at: nat, d: nat)
    requires at + d <= out.Length
    modifies out
    ensures out[..at + d] == old(out[..at]) + MapFrame(src, d) && out[at + d..] == old(out[at + d..])
    ensures Mapped(src, out[at..at + d])
  {
    hide MapFrame;
    var n := |src|;
    for c := 0 to d
      invariant out[..at] == old(out[..at]) && out[at + d..] == old(out[at + d..])
      invariant forall j :: 0 <= j < c ==> out[at + j] == MapFrame(src, d)[j]
    {
      MapSample(src, d, c);
      out[at + c] :=
        if n == d then src[c]
        else if n == 1 then src[0]
        else if n == 2 && d == 1 then (src[0] + src[1]) * 0.5
        else if n == 2 && c < 2 then src[c]
        else 0.0;
    }
    MapsChannels(src, d);
    hide Mapped;
    assert out[at..at + d] == MapFrame(src, d);
    assert out[..at + d] == out[..at] + out[at..at + d];
  }

  lemma CopyRoom(f: nat, n: nat, d: nat)
    requires f < n
    ensures Samples(f, d) + d == Samples(f + 1, d) <= Samples(n, d)
  {
    SamplesAdd(f + 1, n - f - 1, d);
  }

  /** Write `frames` from `at` on. */
  method Copy(frames: seq<Frame>, out: array<real>, at: nat, d: nat)
    requires at + Samples(|frames|, d) <= out.Length
    modifies out
    ensures out[..at + Samples(|frames|, d)] == old(out[..at]) + Interleaved(frames, d)
  {
    hide MapFrame, Interleaved;
    NothingInterleaved(d);
    var end := at;
    assert frames[..0] == [] && Samples(0, d) == 0;
    hide Samples;
    for f := 0 to |frames|
      invariant end == at + Samples(f, d) <= out.Length
      invariant out[..end] == old(out[..at]) + Interleaved(frames[..f], d)
    {
      CopyRoom(f, |frames|, d);
      ghost var before := out[..end];
      MapChannels(frames[f], out, end, d);
      InterleavedNext(frames[..f], frames[f], d);
      assert frames[..f] + [frames[f]] == frames[..f + 1];
      assert out[..end + d] == before + MapFrame(frames[f], d);
      end := end + d;
    }
    assert frames[..|frames|] == frames;
  }

  lemma NothingInterleaved(d: nat)
    ensures Interleaved([], d) == []
  {
  }

  lemma Continue(stream: seq<Frame>, delivered: nat, pending: seq<Frame>, pos: nat, frames: nat, d: nat)
    requires delivered <= |stream| && pos + frames <= |pending| && pending[pos..] == stream[delivered..]
    ensures delivered + frames <= |stream| && pending[pos + frames..] == stream[delivered + frames..]
    ensures Interleaved(stream[..delivered + frames], d)
         == Interleaved(stream[..delivered], d) + Interleaved(pending[pos..pos + frames], d)
  {
    hide Interleaved;
    assert |stream| - delivered == |pending| - pos;
    assert pending[pos + frames..] == pending[pos..][frames..] && stream[delivered + frames..] == stream[delivered..][frames..];
    assert pending[pos..pos + frames] == pending[pos..][..frames];
    assert stream[..delivered + frames] == stream[..delivered] + stream[delivered..][..frames];
    InterleavedAdds(stream[..delivered], pending[pos..pos + frames], d);
  }

  /** How far a converter has got. */
  datatype Progress = Progress(pending: seq<Frame>, pos: nat, pulled: nat, delivered: nat, played: seq<real>)

  /** Everything played so far is the start of the converted stream, and what is pending is its
      continuation; the last block was not pulled before all earlier ones were delivered. */
  ghost predicate OnTrack(pull: nat -> seq<Frame>, channels: nat, ratio: Option<real>, d: nat, p: Progress)
    requires Source(pull, channels) && (ratio.Some? ==> ratio.value > 0.0)
  {
    var stream := Converted(pull, channels, ratio, p.pulled).1;
    && p.delivered <= |stream| && p.pos <= |p.pending|
    && p.pending[p.pos..] == stream[p.delivered..]
    && p.played == Played(pull, channels, ratio, d, p.pulled, p.delivered)
    && p.delivered == p.pos + (if p.pulled == 0 then 0 else |Converted(pull, channels, ratio, p.pulled - 1).1|)
  }

  lemma StartsOnTrack(pull: nat -> seq<Frame>, channels: nat, ratio: Option<real>, d: nat)
    requires Source(pull, channels) && (ratio.Some? ==> ratio.value > 0.0)
    ensures OnTrack(pull, channels, ratio, d, Progress([], 0, 0, 0, []))
    ensures Converted(pull, channels, ratio, 0).0 == R.Init(channels)
  {
  }

  lemma OnTrackAfterRefill(pull: nat -> seq<Frame>, channels: nat, ratio: Option<real>, d: nat, p: Progress, more: seq<Frame>)
    requires Source(pull, channels) && (ratio.Some? ==> ratio.value > 0.0)
    requires OnTrack(pull, channels, ratio, d, p) && p.pos == |p.pending|
    requires Converted(pull, channels, ratio, p.pulled + 1).1 == Converted(pull, channels, ratio, p.pulled).1 + more
    ensures OnTrack(pull, channels, ratio, d, Progress(more, 0, p.pulled + 1, p.delivered, p.played))
  {
    hide Converted, Interleaved;
    var before := Converted(pull, channels, ratio, p.pulled).1;
    assert |before| == p.delivered;
    assert (before + more)[..p.delivered] == before[..p.delivered];
    assert more[0..] == (before + more)[p.delivered..];
  }

  lemma OnTrackAfterCopy(pull: nat -> seq<Frame>, channels: nat, ratio: Option<real>, d: nat, p: Progress, frames: nat)
    requires Source(pull, channels) && (ratio.Some? ==> ratio.value > 0.0)
    ensures OnTrack(pull, channels, ratio, d, p) && p.pos + frames <= |p.pending| ==>
              OnTrack(pull, channels, ratio, d,
                Progress(p.pending, p.pos + frames, p.pulled, p.delivered + frames,
                         p.played + Interleaved(p.pending[p.pos..p.pos + frames], d)))
  {
    hide Converted, Interleaved;
    if OnTrack(pull, channels, ratio, d, p) && p.pos + frames <= |p.pending| {
      Continue(Converted(pull, channels, ratio, p.pulled).1, p.delivered, p.pending, p.pos, frames, d);
    }
  }

  lemma OnTrackBasics(pull: nat -> seq<Frame>, channels: nat, ratio: Option<real>, d: nat, p: Progress)
    requires Source(pull, channels) && (ratio.Some? ==> ratio.value > 0.0)
    ensures Converted(pull, channels, ratio, p.pulled).0.phase >= 0.0
    ensures OnTrack(pull, channels, ratio, d, p) ==>
              && p.pos <= |p.pending|
              && (p.pulled > 0 && p.pos > 0 ==> |Converted(pull, channels, ratio, p.pulled - 1).1| < p.delivered)
  {
    hide Interleaved;
  }

  class RenderConverter {
    const deviceChannels: nat
    const inChannels: nat
    const ratio: Option<real>
    const resampler: R.FractionalResampler
    var pending: seq<Frame>
    var pos: nat
    var pulled: nat
    ghost var delivered: nat
    ghost var played: seq<real>

    ghost predicate Sound(pull: nat -> seq<Frame>) {
      && deviceChannels >= 1 && 1 <= inChannels <= 2 && Source(pull, inChannels)
      && (ratio.Some? ==> ratio.value > 0.0) && resampler.channels == inChannels
    }

    ghost function Now(): Progress reads this { Progress(pending, pos, pulled, delivered, played) }

    ghost predicate Valid(pull: nat -> seq<Frame>)
      reads this, resampler
    {
      && Sound(pull)
      && resampler.Abs() == Converted(pull, inChannels, ratio, pulled).0
      && OnTrack(pull, inChannels, ratio, deviceChannels, Now())
    }

    constructor (deviceRate: nat, devChannels: nat, channels: nat, ghost pull: nat -> seq<Frame>)
      requires deviceRate > 0 && Source(pull, Min(Max(channels, 1), 2))
      ensures Valid(pull) && played == [] && pulled == 0 && fresh(resampler)
      ensures deviceChannels == Max(devChannels, 1) && inChannels == Min(Max(channels, 1), 2)
      ensures ratio == if deviceRate == 48000 then None else Some(48000.0 / deviceRate as real)
    {
      deviceChannels := Max(devChannels, 1);
      inChannels := Min(Max(channels, 1), 2);
      ratio := if deviceRate == 48000 then None else Some(48000.0 / deviceRate as real);
      resampler := new R.FractionalResampler(Min(Max(channels, 1), 2));
      pending, pos, pulled, delivered, played := [], 0, 0, 0, [];
      new;
      hide OnTrack, Converted;
      StartsOnTrack(pull, inChannels, ratio, deviceChannels);
    }

    /** Convert the next block. */
    method Refill(pull: nat -> seq<Frame>)
      requires Valid(pull) && pos == |pending|
      modifies this, resampler
      ensures Valid(pull) && delivered == old(delivered) && played == old(played) && pos == 0
      ensures pulled == old(pulled) + 1
      ensures pending == [] ==> resampler.phase <= old(resampler.phase) - 1.0
    {
      hide R.Resample, Converted, OnTrack;
      ghost var was := Now();
      ConvertedNext(pull, inChannels, ratio, pulled);
      var block := pull(pulled);
      match ratio {
        case None =>
          pending := block;
        case Some(r) =>
          EmptyMeansCloser(resampler.Abs(), block, r);
          pending := resampler.Process(block, r, []);
      }
      pos, pulled := 0, pulled + 1;
      OnTrackAfterRefill(pull, inChannels, ratio, deviceChannels, was, pending);
    }

    /** Hand over the next `frames` pending frames at `written`. */
    method Deliver(pull: nat -> seq<Frame>, out: array<real>, written: nat, frames: nat)
      requires Valid(pull) && pos + frames <= |pending| && written + Samples(frames, deviceChannels) <= out.Length
      modifies `pos, `delivered, `played, out
      ensures Valid(pull) && pos == old(pos) + frames && delivered == old(delivered) + frames
      ensures old(out[..written]) <= out[..written + Samples(frames, deviceChannels)]
      ensures played == old(played) + out[..written + Samples(frames, deviceChannels)][written..]
    {
      hide Converted, OnTrack, Interleaved, Source, Samples;
      OnTrackAfterCopy(pull, inChannels, ratio, deviceChannels, Now(), frames);
      Copy(pending[pos..pos + frames], out, written, deviceChannels);
      played := played + Interleaved(pending[pos..pos + frames], deviceChannels);
      pos, delivered := pos + frames, delivered + frames;
    }

    /** Fill a whole device buffer. */
    method Fill(out: array<real>, pull: nat -> seq<Frame>)
      requires Valid(pull) && out.Length % deviceChannels == 0
      modifies this, resampler, out
      ensures Valid(pull) && delivered == old(delivered) + out.Length / deviceChannels
      ensures played == old(played) + out[..]
      ensures pulled >= old(pulled)
      ensures pulled > old(pulled) ==> |Converted(pull, inChannels, ratio, pulled - 1).1| < delivered
    {
      hide Converted, OnTrack, Source, Samples;
      var written := 0;
      ghost var done, n, d := 0, out.Length / deviceChannels, deviceChannels;
      Bounds(out.Length, d);
      while written < out.Length
        invariant Valid(pull) && done <= n && written == Samples(done, d) <= out.Length
        invariant delivered == old(delivered) + done && played == old(played) + out[..written]
        invariant pulled >= old(pulled) && (pulled == old(pulled) || pos > 0 || done < n)
        decreases n - done, if pos < |pending| then 0 else 1 + resampler.phase.Floor
      {
        OnTrackBasics(pull, inChannels, ratio, deviceChannels, Now());
        Room(done, n, d);
        var available := |pending| - pos;
        if available == 0 {
          Refill(pull);
          OnTrackBasics(pull, inChannels, ratio, deviceChannels, Now());
          continue;
        }
        var wanted := (out.Length - written) / deviceChannels;
        var frames := Min(available, Max(wanted, 1));
        SamplesAdd(done, frames, d);
        Room(done + frames, n, d);
        ghost var before := out[..written];
        Deliver(pull, out, written, frames);
        written := written + Samples(frames, deviceChannels);
        done := done + frames;
        assert out[..written] == before + out[..written][|before|..];
      }
      OnTrackBasics(pull, inChannels, ratio, deviceChannels, Now());
      Room(done, n, d);
      assert out[..written] == out[..];
    }
  }

  lemma Bounds(len: nat, d: nat)
    requires d > 0 && len % d == 0
    ensures Samples(len / d, d) == len && Samples(0, d) == 0 && 0 <= len / d
  {
    WholeFrames(len, d);
  }

  /** `done` of `n` frames: what is left is the other frames. */
  lemma Room(done: nat, n: nat, d: nat)
    requires d > 0 && done <= n
    ensures Samples(done, d) <= Samples(n, d) && (Samples(n, d) - Samples(done, d)) / d == n - done
    ensures Samples(done, d) < Samples(n, d) <==> done < n
  {
    SamplesAdd(done, n - done, d);
    var left := Samples(n - done, d);
    assert done < n ==> left > 0;
    hide Samples;
    FramesOf(n - done, d);
    assert Samples(n, d) - Samples(done, d) == left;
  }
}
