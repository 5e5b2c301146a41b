/** The deviation window behind the adaptive target (sp-media/src/jitter.rs). */
module JitterWindow {
  import opened Common
  import opened Jitter
  import opened JitterTheorems

  // ---------------------------------------------------------------- the percentile

  ghost predicate Ascending(xs: seq<u32>) {
    forall i, j :: 0 <= i < j < |xs| ==> xs[i] <= xs[j]
  }

  lemma {:induction false} InsertContents(x: u32, xs: seq<u32>)
    ensures multiset(Insert(x, xs)) == multiset(xs) + multiset{x}
  {
    if xs != [] && x > xs[0] {
      InsertContents(x, xs[1..]);
      assert xs == [xs[0]] + xs[1..];
    }
  }

  lemma Prepend(x: u32, xs: seq<u32>)
    requires Ascending(xs) && forall y :: y in multiset(xs) ==> x <= y
    ensures Ascending([x] + xs)
  {
    forall i | 0 <= i < |xs| ensures x <= xs[i] { assert xs[i] in multiset(xs); }
  }

  lemma {:induction false} InsertSorts(x: u32, xs: seq<u32>)
    requires Ascending(xs)
    ensures Ascending(Insert(x, xs))
  {
    if xs == [] {
    } else if x <= xs[0] {
      Prepend(x, xs);
    } else {
      InsertSorts(x, xs[1..]);
      InsertContents(x, xs[1..]);
      forall y | y in multiset(xs[1..]) ensures xs[0] <= y { assert y in xs[1..]; }
      Prepend(xs[0], Insert(x, xs[1..]));
    }
  }

  lemma {:induction false} SortedSorts(xs: seq<u32>)
    ensures Ascending(Sorted(xs)) && multiset(Sorted(xs)) == multiset(xs)
  {
    if xs != [] {
      SortedSorts(xs[1..]);
      InsertSorts(xs[0], Sorted(xs[1..]));
      InsertContents(xs[0], Sorted(xs[1..]));
      assert xs == [xs[0]] + xs[1..];
    }
  }

  // ---------------------------------------------------------------- the ring

  /** Packets as timestamp and arrival. */
  type Packet = (u64, u64)

  function Observed(packets: seq<Packet>): Estimate {
    if packets == [] then Estimate(None, [], 0)
    else var (ts, arrival) := packets[|packets| - 1]; Observe(Observed(packets[..|packets| - 1]), ts, arrival)
  }

  /** Arrival minus timestamp, in 64 bits. */
  function Transit(ts: u64, arrival: u64): int { WrapI64(arrival - ts) }

  /** How far a packet strayed from its predecessor. */
  function Deviation(a: Packet, b: Packet): u32 {
    Min(Abs(WrapI64(Transit(b.0, b.1) - Transit(a.0, a.1))), U32_MAX)
  }

  lemma WrapsOnce(x: int, y: int)
    requires -0x8000_0000_0000_0000 <= y < 0x8000_0000_0000_0000 && (x - y) % 0x1_0000_0000_0000_0000 == 0
    ensures WrapI64(x) == y
  {
    var r := WrapI64(x);
    assert (r - y) % 0x1_0000_0000_0000_0000 == 0;
  }

  /** With clocks that are not absurdly far apart: by how much one packet travelled longer than the other. */
  lemma DeviationExact(a: Packet, b: Packet)
    requires var d := (b.1 - b.0) - (a.1 - a.0); -0x8000_0000_0000_0000 <= d < 0x8000_0000_0000_0000
    ensures var d := (b.1 - b.0) - (a.1 - a.0);
            Deviation(a, b) == if d > 0xFFFF_FFFF || -d > 0xFFFF_FFFF then 0xFFFF_FFFF else if d < 0 then -d else d
  {
    hide WrapI64;
    var x, y := Transit(b.0, b.1), Transit(a.0, a.1);
    assert (b.1 - b.0 - x) % 0x1_0000_0000_0000_0000 == 0 && (a.1 - a.0 - y) % 0x1_0000_0000_0000_0000 == 0;
    WrapsOnce(x - y, (b.1 - b.0) - (a.1 - a.0));
  }

  /** Every deviation, oldest first. */
  function Deviations(packets: seq<Packet>): seq<u32> {
    if |packets| < 2 then [] else
    Deviations(packets[..|packets| - 1]) + [Deviation(packets[|packets| - 2], packets[|packets| - 1])]
  }

  function Newest(xs: seq<u32>, n: nat): seq<u32> { if |xs| <= n then xs else xs[|xs| - n..] }

  /** The ring read from its cursor on. */
  ghost function Unrolled(e: Estimate): seq<u32>
    requires e.cursor <= |e.deviations|
  {
    e.deviations[e.cursor..] + e.deviations[..e.cursor]
  }

  ghost predicate Tracks(e: Estimate, all: seq<u32>) {
    && e.cursor < WINDOW && |e.deviations| <= WINDOW && (|e.deviations| < WINDOW ==> e.cursor == 0)
    && Unrolled(e) == Newest(all, WINDOW)
  }

  lemma NewestNext(all: seq<u32>, d: u32)
    ensures Newest(all + [d], WINDOW) ==
            if |all| < WINDOW then Newest(all, WINDOW) + [d] else Newest(all, WINDOW)[1..] + [d]
  {
  }

  /** Replacing the oldest element of a full ring. */
  lemma Turned(xs: seq<u32>, c: nat, d: u32)
    requires c + 1 < |xs|
    ensures xs[c := d][c + 1..] + xs[c := d][..c + 1] == (xs[c..] + xs[..c])[1..] + [d]
  {
    var ys := xs[c := d];
    assert (xs[c..] + xs[..c])[1..] == xs[c + 1..] + xs[..c];
    assert ys[c + 1..] == xs[c + 1..] && ys[..c + 1] == xs[..c] + [d];
  }

  lemma TurnedLast(xs: seq<u32>, d: u32)
    requires |xs| > 0
    ensures var ys, c := xs[|xs| - 1 := d], |xs| - 1;
            ys[0..] + ys[..0] == (xs[c..] + xs[..c])[1..] + [d]
  {
    var ys, c := xs[|xs| - 1 := d], |xs| - 1;
    assert (xs[c..] + xs[..c])[1..] == xs[..c];
    assert ys == xs[..c] + [d];
  }

  lemma TurnsOne(xs: seq<u32>, c: nat, d: u32)
    requires |xs| == WINDOW && c < WINDOW
    ensures var ys, next := xs[c := d], (c + 1) % WINDOW;
            ys[next..] + ys[..next] == (xs[c..] + xs[..c])[1..] + [d]
  {
    CursorTurns(c);
    if c + 1 == |xs| {
      TurnedLast(xs, d);
    } else {
      Turned(xs, c, d);
    }
  }

  lemma CursorTurns(c: nat)
    requires c < WINDOW
    ensures (c + 1) % WINDOW == if c + 1 == WINDOW then 0 else c + 1
  {
  }

  lemma Overwrites(e: Estimate, all: seq<u32>, d: u32, t: int)
    requires Tracks(e, all) && |e.deviations| == WINDOW
    ensures Tracks(Estimate(Some(t), e.deviations[e.cursor := d], (e.cursor + 1) % WINDOW), all + [d])
  {
    TurnsOne(e.deviations, e.cursor, d);
    NewestNext(all, d);
    assert |Unrolled(e)| == WINDOW;
    hide Newest;
  }

  lemma Appends(e: Estimate, all: seq<u32>, d: u32, t: int)
    requires Tracks(e, all) && |e.deviations| < WINDOW
    ensures Tracks(Estimate(Some(t), e.deviations + [d], e.cursor), all + [d])
  {
    NewestNext(all, d);
    assert Unrolled(e) == e.deviations;
    assert |Newest(all, WINDOW)| < WINDOW;
  }

  lemma {:induction false} ObservedTracks(packets: seq<Packet>)
    ensures Tracks(Observed(packets), Deviations(packets))
    ensures Observed(packets).lastTransit ==
            if packets == [] then None else Some(Transit(packets[|packets| - 1].0, packets[|packets| - 1].1))
  {
    hide Tracks, WrapI64, Abs;
    if |packets| < 2 {
      FirstTracks(packets);
    } else {
      var g, p := packets[..|packets| - 1], packets[|packets| - 1];
      ObservedTracks(g);
      var e, d := Observed(g), Deviation(g[|g| - 1], p);
      RingBounds(e, Deviations(g));
      if |e.deviations| < WINDOW {
        Appends(e, Deviations(g), d, Transit(p.0, p.1));
      } else {
        Overwrites(e, Deviations(g), d, Transit(p.0, p.1));
      }
    }
  }

  lemma RingBounds(e: Estimate, all: seq<u32>)
    requires Tracks(e, all)
    ensures e.cursor < WINDOW && |e.deviations| <= WINDOW
  {
  }

  lemma FirstTracks(packets: seq<Packet>)
    requires |packets| < 2
    ensures Tracks(Observed(packets), Deviations(packets))
    ensures Observed(packets).lastTransit ==
            if packets == [] then None else Some(Transit(packets[|packets| - 1].0, packets[|packets| - 1].1))
  {
    hide WrapI64;
    if |packets| == 1 { assert packets[..0] == []; assert Observed([]) == Estimate(None, [], 0); }
  }

  /** The window holds the newest 512 deviations and no others. */
  lemma {:induction false} WindowIsNewest(packets: seq<Packet>)
    ensures multiset(Observed(packets).deviations) == multiset(Newest(Deviations(packets), WINDOW))
  {
    hide Observed, Deviations, Newest;
    ObservedTracks(packets);
    var e := Observed(packets);
    assert e.deviations == e.deviations[..e.cursor] + e.deviations[e.cursor..];
  }

  /** The percentile is element round(0.98 (n - 1)) of the window in ascending order. */
  lemma PercentileRank(window: seq<u32>)
    ensures window == [] ==> Percentile98(window) == 0
    ensures window != [] ==>
              exists xs: seq<u32> ::
                && Ascending(xs) && multiset(xs) == multiset(window) && |xs| == |window|
                && Percentile98(window) == xs[Min((196 * (|xs| - 1) + 100) / 200, |xs| - 1)]
  {
    SortedSorts(window);
    hide Sorted;
    var xs := Sorted(window);
    if window != [] { assert Percentile98(window) == xs[Min((196 * (|xs| - 1) + 100) / 200, |xs| - 1)]; }
  }

  // ---------------------------------------------------------------- what the buffer observes

  /** The packets pushed, late ones too. */
  function Packets(ops: seq<Op>): seq<Packet> {
    if ops == [] then [] else
    var op := ops[|ops| - 1];
    Packets(ops[..|ops| - 1]) + if op.PushOp? then [(op.ts, op.arrival)] else []
  }

  lemma StepObserves(s: State, op: Op)
    requires !op.ResetOp?
    ensures Step(s, op).estimate == if op.PushOp? then Observe(s.estimate, op.ts, op.arrival) else s.estimate
  {
    hide Observe, Percentile98;
    if op.PushOp? {
      CapObserves(Received(s, op.ts, op.arrival).(newestEnd := Max(s.newestEnd, SatAdd(op.ts, FrameLen(s.cfg, op.frame))),
                                                  frames := s.frames[op.ts := op.frame]));
      hide Cap;
    }
  }

  lemma {:induction false} CapObserves(s: State)
    ensures Cap(s).estimate == s.estimate
    decreases |s.frames|
  {
    if |s.frames| > MAX_FRAMES {
      var f := First(s.frames.Keys);
      assert (s.frames - {f}).Keys == s.frames.Keys - {f};
      CapObserves(s.(frames := s.frames - {f}, stats := s.stats.(late := s.stats.late + 1)));
    }
  }

  /** Until a reset the estimate of a buffer is that of all packets pushed into it. */
  lemma {:induction false} EveryPushObserved(cfg: Config, ops: seq<Op>)
    requires forall i :: 0 <= i < |ops| ==> !ops[i].ResetOp?
    ensures Run(Init(cfg), ops).estimate == Observed(Packets(ops))
  {
    if ops != [] {
      hide Step, Observe;
      var front, op := ops[..|ops| - 1], ops[|ops| - 1];
      EveryPushObserved(cfg, front);
      StepObserves(Run(Init(cfg), front), op);
      if op.PushOp? {
        var packets := Packets(front) + [(op.ts, op.arrival)];
        assert packets[..|packets| - 1] == Packets(front);
      } else {
        assert Packets(front) + [] == Packets(front);
      }
    }
  }
}
