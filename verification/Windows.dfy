/** Time windows over a history of instants, shared by the pairing limiter and the flap detector. */
module Windows {
  const SECOND: nat := 1_000_000_000

  /** Nanoseconds on the monotonic clock. */
  type Instant = nat

  predicate Within(t: Instant, now: Instant, width: nat) { now < t + width }

  /** The instants less than `width` before `now`. */
  function Window(times: seq<Instant>, now: Instant, width: nat): (w: seq<Instant>)
    ensures |w| <= |times|
  {
    if times == [] then [] else
    var n := |times| - 1;
    Window(times[..n], now, width) + (if Within(times[n], now, width) then [times[n]] else [])
  }

  /** An instant counts while less than `width` has passed since. */
  lemma {:induction false} WindowMembers(times: seq<Instant>, now: Instant, width: nat, t: Instant)
    ensures t in Window(times, now, width) <==> t in times && now - t < width
  {
    if times != [] { WindowMembers(times[..|times| - 1], now, width, t); }
  }

  ghost predicate Sorted(times: seq<Instant>, clock: Instant) {
    && (forall i, j :: 0 <= i < j < |times| ==> times[i] <= times[j])
    && forall i :: 0 <= i < |times| ==> times[i] <= clock
  }

  lemma WindowNext(times: seq<Instant>, t: Instant, now: Instant, width: nat)
    ensures Window(times + [t], now, width) == Window(times, now, width) + if Within(t, now, width) then [t] else []
  {
    assert (times + [t])[..|times|] == times;
  }

  /** Looking again later loses nothing that still counts. */
  lemma {:induction false} WindowTwice(times: seq<Instant>, before: Instant, now: Instant, width: nat)
    requires before <= now
    ensures Window(Window(times, before, width), now, width) == Window(times, now, width)
  {
    if times != [] {
      var n := |times| - 1;
      WindowTwice(times[..n], before, now, width);
      var w := Window(times[..n], before, width);
      if Within(times[n], before, width) {
        WindowNext(w, times[n], now, width);
      } else {
        assert w + [] == w;
      }
    }
  }

  /** If exactly the instants from index `k` on count, they are the window. */
  lemma {:induction false} WindowIs(times: seq<Instant>, now: Instant, width: nat, k: nat)
    requires k <= |times|
    requires forall i :: 0 <= i < k ==> !Within(times[i], now, width)
    requires forall i :: k <= i < |times| ==> Within(times[i], now, width)
    ensures Window(times, now, width) == times[k..]
  {
    if times != [] {
      hide Window, Within;
      var n := |times| - 1;
      var g, t := times[..n], times[n];
      assert times == g + [t];
      WindowNext(g, t, now, width);
      if k <= n {
        WindowIs(g, now, width, k);
        assert g[k..] + [t] == times[k..];
      } else {
        WindowIs(g, now, width, n);
        assert g[n..] + [] == times[k..];
      }
    }
  }

  /** The first index that counts. */
  lemma {:induction false} Cut(times: seq<Instant>, now: Instant, width: nat) returns (k: nat)
    requires Sorted(times, now)
    ensures k <= |times| && Window(times, now, width) == times[k..]
    ensures forall i :: 0 <= i < k ==> !Within(times[i], now, width)
    ensures forall i :: k <= i < |times| ==> Within(times[i], now, width)
  {
    k := |times|;
    while k > 0 && Within(times[k - 1], now, width)
      invariant k <= |times| && forall i :: k <= i < |times| ==> Within(times[i], now, width)
    {
      k := k - 1;
    }
    forall i | 0 <= i < k ensures !Within(times[i], now, width) { assert times[i] <= times[k - 1]; }
    WindowIs(times, now, width, k);
  }

  lemma {:induction false} WindowWithin(times: seq<Instant>, now: Instant, width: nat)
    ensures forall t :: t in Window(times, now, width) ==> Within(t, now, width) && t in times
  {
    if times != [] { WindowWithin(times[..|times| - 1], now, width); }
  }

  /** If the newest instant has left the window, all have. */
  lemma WindowEmpty(times: seq<Instant>, now: Instant, width: nat)
    requires Sorted(times, now) && (times != [] ==> !Within(times[|times| - 1], now, width))
    ensures Window(times, now, width) == []
  {
    forall i | 0 <= i < |times| ensures !Within(times[i], now, width) { assert times[i] <= times[|times| - 1]; }
    WindowIs(times, now, width, |times|);
  }

  lemma WindowSorted(times: seq<Instant>, now: Instant, width: nat)
    requires Sorted(times, now)
    ensures Sorted(Window(times, now, width), now)
  {
    var k := Cut(times, now, width);
  }
}

/** The flap detector (sp-engine/src/reconnect.rs). */
module Flaps {
  import opened Windows

  const WINDOW: nat := 120 * SECOND
  const LIMIT: nat := 5

  /** The newest `n` elements. */
  function Newest(times: seq<Instant>, n: nat): seq<Instant> {
    if |times| <= n then times else times[|times| - n..]
  }

  /** What a call does to the stored events. */
  function Record(events: seq<Instant>, now: Instant): seq<Instant> {
    var kept := Window(events, now, WINDOW) + [now];
    if |kept| > LIMIT + 1 then kept[1..] else kept
  }

  function Run(times: seq<Instant>): seq<Instant> {
    if times == [] then [] else Record(Run(times[..|times| - 1]), times[|times| - 1])
  }

  ghost predicate Ordered(times: seq<Instant>) {
    forall i, j :: 0 <= i < j < |times| ==> times[i] <= times[j]
  }

  lemma NewestOfWindow(times: seq<Instant>, now: Instant, n: nat)
    requires Sorted(times, now)
    ensures Window(Newest(times, n), now, WINDOW) == Newest(Window(times, now, WINDOW), n)
  {
    var k := Cut(times, now, WINDOW);
    var m := if |times| <= n then 0 else |times| - n;
    hide Window, Newest, Within, Sorted;
    NewestIsSuffix(times, n, m);
    if k <= m { AllNewestCount(times, now, n, k, m); } else { SomeNewestCount(times, now, n, k, m); }
  }

  lemma AllNewestCount(times: seq<Instant>, now: Instant, n: nat, k: nat, m: nat)
    requires k <= m <= |times| && (m > 0 ==> |times| - m == n) && (m == 0 ==> |times| <= n)
    requires forall i :: k <= i < |times| ==> Within(times[i], now, WINDOW)
    ensures Window(times[m..], now, WINDOW) == Newest(times[k..], n)
  {
    hide Window, Newest, Within;
    SuffixOfSuffix(times, k, m);
    SuffixWindow(times, now, m, 0);
    NewestIsSuffix(times[k..], n, m - k);
  }

  lemma SuffixOfSuffix(times: seq<Instant>, k: nat, m: nat)
    requires k <= m <= |times|
    ensures times[k..][m - k..] == times[m..]
  {
  }

  lemma SomeNewestCount(times: seq<Instant>, now: Instant, n: nat, k: nat, m: nat)
    requires m < k <= |times| && (m > 0 ==> |times| - m == n) && (m == 0 ==> |times| <= n)
    requires forall i :: 0 <= i < k ==> !Within(times[i], now, WINDOW)
    requires forall i :: k <= i < |times| ==> Within(times[i], now, WINDOW)
    ensures Window(times[m..], now, WINDOW) == Newest(times[k..], n)
  {
    hide Window, Newest, Within;
    SuffixWindow(times, now, m, k - m);
    NewestIsSuffix(times[k..], n, 0);
  }

  lemma NewestIsSuffix(times: seq<Instant>, n: nat, m: nat)
    requires m <= |times| && (m > 0 ==> |times| - m == n) && (m == 0 ==> |times| <= n)
    ensures Newest(times, n) == times[m..]
  {
  }

  lemma SuffixWindow(times: seq<Instant>, now: Instant, m: nat, k: nat)
    requires m + k <= |times|
    requires forall i :: m <= i < m + k ==> !Within(times[i], now, WINDOW)
    requires forall i :: m + k <= i < |times| ==> Within(times[i], now, WINDOW)
    ensures Window(times[m..], now, WINDOW) == times[m + k..]
  {
    hide Within;
    var s := times[m..];
    forall i | 0 <= i < |s| ensures s[i] == times[m + i] {}
    WindowIs(s, now, WINDOW, k);
    assert s[k..] == times[m + k..];
  }

  lemma NewestNext(w: seq<Instant>, now: Instant)
    ensures var kept := Newest(w, LIMIT + 1) + [now];
            (if |kept| > LIMIT + 1 then kept[1..] else kept) == Newest(w + [now], LIMIT + 1)
  {
  }

  /** Six stored events are the newest six of everything recorded in the last two minutes. */
  lemma {:induction false} KeepsNewest(times: seq<Instant>)
    requires times != [] && Ordered(times)
    ensures Run(times) == Newest(Window(times, times[|times| - 1], WINDOW), LIMIT + 1)
    decreases |times|, 0
  {
    hide Newest;
    var n := |times| - 1;
    var g, now := times[..n], times[n];
    WindowNext(g, now, now, WINDOW);
    assert g + [now] == times;
    var w := Window(g, now, WINDOW);
    NewestNext(w, now);
    assert Window(Run(g), now, WINDOW) == Newest(w, LIMIT + 1) by { KeptUntil(g, now); }
  }

  lemma {:induction false} KeptUntil(g: seq<Instant>, now: Instant)
    requires Ordered(g + [now])
    ensures Window(Run(g), now, WINDOW) == Newest(Window(g, now, WINDOW), LIMIT + 1)
    decreases |g|, 1
  {
    if g != [] {
      var h := g + [now];
      var before := g[|g| - 1];
      assert h[|g|] == now && forall i :: 0 <= i < |g| ==> h[i] == g[i];
      KeepsNewest(g);
      WindowSorted(g, before, WINDOW);
      var v := Window(g, before, WINDOW);
      assert Sorted(v, now);
      NewestOfWindow(v, now, LIMIT + 1);
      WindowTwice(g, before, now, WINDOW);
    }
  }

  /** The bounded detector answers as the whole history: more than five reconnects, this one included,
      within two minutes. */
  lemma FlapExact(times: seq<Instant>)
    requires times != [] && Ordered(times)
    ensures |Run(times)| <= 6
    ensures |Run(times)| > LIMIT <==> |Window(times, times[|times| - 1], 120 * SECOND)| > 5
  {
    KeepsNewest(times);
  }

  class FlapDetector {
    var events: seq<Instant>

    constructor ()
      ensures events == Run([])
    {
      events := [];
    }

    /** Record a reconnect; `history` is everything recorded before. */
    method RecordAt(now: Instant, ghost history: seq<Instant>) returns (flapping: bool)
      requires events == Run(history) && Ordered(history + [now])
      modifies this
      ensures events == Run(history + [now])
      ensures flapping <==> |Window(history + [now], now, 120 * SECOND)| > 5
    {
      var kept := Retain(events, now);
      events := kept + [now];
      if |events| > LIMIT + 1 { events := events[1..]; }
      assert (history + [now])[..|history|] == history;
      FlapExact(history + [now]);
      flapping := |events| > LIMIT;
    }
  }

  method Retain(events: seq<Instant>, now: Instant) returns (kept: seq<Instant>)
    ensures kept == Window(events, now, WINDOW)
  {
    kept := [];
    for i := 0 to |events|
      invariant kept == Window(events[..i], now, WINDOW)
    {
      WindowNext(events[..i], events[i], now, WINDOW);
      assert events[..i] + [events[i]] == events[..i + 1];
      if Within(events[i], now, WINDOW) { kept := kept + [events[i]]; }
    }
    assert events[..|events|] == events;
  }
}
