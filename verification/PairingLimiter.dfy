/** The pairing rate limit per remote address (sp-engine/src/pairing_limit.rs) against the full history. */
module PairingLimiter {
  import opened Common
  import opened Windows

  const ATTEMPTS_PER_WINDOW: nat := 5
  const WINDOW: nat := 60 * SECOND
  const MAX_SOURCES: nat := 256

  datatype Address = V4(bits: nat) | V6(bits: nat)

  /** One key per host: an IPv4-mapped IPv6 address (::ffff:a.b.c.d) counts as the IPv4 one. */
  function Canonical(ip: Address): Address {
    match ip
    case V4(_) => ip
    case V6(bits) => if bits / 0x1_0000_0000 == 0xFFFF then V4(bits % 0x1_0000_0000) else ip
  }

  /** An IPv4 address is itself however it is written, and every other IPv6 address stays as it is. */
  lemma MappedIsIpv4(bits: nat)
    ensures Canonical(V4(bits)) == V4(bits)
    ensures bits < 0x1_0000_0000 ==> Canonical(V6(0xFFFF_0000_0000 + bits)) == V4(bits)
    ensures bits < 0xFFFF_0000_0000 || bits >= 0x1_0000_0000_0000 ==> Canonical(V6(bits)) == V6(bits)
  {
  }

  datatype Decision = Allowed | Refused(first: bool)
  datatype Source = Source(attempts: seq<Instant>, reported: bool, lastSeen: Instant)

  /** A call from the canonical address `ip`; `victim` is the source a full table forgets. */
  datatype Call = Call(ip: Address, now: Instant, victim: Address)
  /** What was answered. */
  datatype Entry = Entry(ip: Address, now: Instant, decision: Decision)

  // ---------------------------------------------------------------- what a call does

  /** The source's last allowed attempt still counts. */
  predicate Counts(s: Source, now: Instant) {
    s.attempts != [] && Within(s.attempts[|s.attempts| - 1], now, WINDOW)
  }

  function Cleaned(m: map<Address, Source>, now: Instant): map<Address, Source> {
    map ip | ip in m && Counts(m[ip], now) :: m[ip]
  }

  /** The forced eviction fires. */
  predicate Fires(m: map<Address, Source>, c: Call) {
    c.ip !in m && |m| >= MAX_SOURCES && |Cleaned(m, c.now)| >= MAX_SOURCES
  }

  /** The eviction forgets a source seen least recently. */
  ghost predicate Oldest(m: map<Address, Source>, victim: Address) {
    victim in m && forall ip :: ip in m ==> m[victim].lastSeen <= m[ip].lastSeen
  }

  /** Room for the address. */
  function MakeRoom(m: map<Address, Source>, c: Call): map<Address, Source> {
    if c.ip in m || |m| < MAX_SOURCES then m
    else if |Cleaned(m, c.now)| < MAX_SOURCES then Cleaned(m, c.now)
    else Cleaned(m, c.now) - {c.victim}
  }

  function Lookup(m: map<Address, Source>, ip: Address): Option<Source> { if ip in m then Some(m[ip]) else None }

  /** Drop expired attempts from the front. */
  function Popped(attempts: seq<Instant>, now: Instant): seq<Instant> {
    if attempts != [] && !Within(attempts[0], now, WINDOW) then Popped(attempts[1..], now) else attempts
  }

  function Decide(s: Option<Source>, now: Instant): (Source, Decision) {
    var was := match s case Some(x) => x case None => Source([], false, now);
    var attempts := Popped(was.attempts, now);
    if |attempts| >= ATTEMPTS_PER_WINDOW
    then (Source(attempts, true, now), Refused(!was.reported))
    else (Source(attempts + [now], false, now), Allowed)
  }

  function Step(m: map<Address, Source>, c: Call): (map<Address, Source>, Decision) {
    var room := MakeRoom(m, c);
    var (s, d) := Decide(Lookup(room, c.ip), c.now);
    (room[c.ip := s], d)
  }

  /** The table and the answers after `calls`. */
  function Run(calls: seq<Call>): (map<Address, Source>, seq<Entry>) {
    if calls == [] then (map[], []) else
    var c := calls[|calls| - 1];
    var (m, log) := Run(calls[..|calls| - 1]);
    var (m1, d) := Step(m, c);
    (m1, log + [Entry(c.ip, c.now, d)])
  }

  // ---------------------------------------------------------------- the history's answer

  /** When `ip` was allowed. */
  ghost function AllowedTimes(log: seq<Entry>, ip: Address): seq<Instant> {
    if log == [] then [] else
    var e := log[|log| - 1];
    AllowedTimes(log[..|log| - 1], ip) + if e.ip == ip && e.decision.Allowed? then [e.now] else []
  }

  /** The last answer `ip` got was a refusal. */
  ghost predicate LastRefused(log: seq<Entry>, ip: Address) {
    log != [] && var e := log[|log| - 1];
    if e.ip == ip then e.decision.Refused? else LastRefused(log[..|log| - 1], ip)
  }

  /** Fewer than five allowed attempts of that address in the last minute; a refusal is the first one
      unless the address was refused the time before. */
  ghost function Answer(log: seq<Entry>, ip: Address, now: Instant): Decision {
    if |Window(AllowedTimes(log, ip), now, 60 * SECOND)| < 5 then Allowed
    else Refused(!LastRefused(log, ip))
  }

  function Clock(log: seq<Entry>): Instant { if log == [] then 0 else log[|log| - 1].now }

  /** The addresses that still have an allowed attempt in the last minute. */
  ghost predicate Active(log: seq<Entry>, ip: Address, now: Instant) {
    Window(AllowedTimes(log, ip), now, WINDOW) != []
  }

  // ---------------------------------------------------------------- one source

  /** What is known of an address, against its allowed times. */
  ghost predicate Tracks(s: Option<Source>, times: seq<Instant>, refused: bool, clock: Instant) {
    && Sorted(times, clock)
    && match s
       case None => Window(times, clock, WINDOW) == []
       case Some(x) =>
         && Sorted(x.attempts, clock) && Window(x.attempts, clock, WINDOW) == Window(times, clock, WINDOW)
         && x.reported == refused && |x.attempts| <= ATTEMPTS_PER_WINDOW
  }

  lemma {:induction false} PoppedIsWindow(attempts: seq<Instant>, now: Instant)
    requires Sorted(attempts, now)
    ensures Popped(attempts, now) == Window(attempts, now, WINDOW)
  {
    if attempts != [] {
      if !Within(attempts[0], now, WINDOW) {
        PoppedIsWindow(attempts[1..], now);
        var k := Cut(attempts, now, WINDOW);
        WindowTail(attempts, now, k);
      } else {
        forall i | 0 <= i < |attempts| ensures Within(attempts[i], now, WINDOW) { assert attempts[0] <= attempts[i]; }
        WindowIs(attempts, now, WINDOW, 0);
      }
    }
  }

  lemma WindowTail(times: seq<Instant>, now: Instant, k: nat)
    requires 0 < k <= |times|
    requires forall i :: 0 <= i < k ==> !Within(times[i], now, WINDOW)
    requires forall i :: k <= i < |times| ==> Within(times[i], now, WINDOW)
    ensures Window(times[1..], now, WINDOW) == times[k..]
  {
    hide Within;
    WindowIs(times[1..], now, WINDOW, k - 1);
    assert times[1..][k - 1..] == times[k..];
  }

  lemma SortedLater(times: seq<Instant>, clock: Instant, now: Instant)
    requires Sorted(times, clock) && clock <= now
    ensures Sorted(times, now) && Sorted(times + [now], now)
  {
  }

  /** Time passing does not disturb what is known. */
  lemma TracksLater(s: Option<Source>, times: seq<Instant>, refused: bool, clock: Instant, now: Instant)
    requires Tracks(s, times, refused, clock) && clock <= now
    ensures Tracks(s, times, refused, now)
  {
    hide Window;
    SortedLater(times, clock, now);
    WindowTwice(times, clock, now, WINDOW);
    if s.Some? {
      SortedLater(s.value.attempts, clock, now);
      WindowTwice(s.value.attempts, clock, now, WINDOW);
    } else {
      NoWindow(now);
    }
  }

  lemma NoWindow(now: Instant)
    ensures Window([], now, WINDOW) == []
  {
  }

  /** Forgetting a source whose last attempt expired is unobservable. */
  lemma TracksForgotten(s: Source, times: seq<Instant>, refused: bool, now: Instant)
    requires Tracks(Some(s), times, refused, now) && !Counts(s, now)
    ensures Tracks(None, times, refused, now)
  {
    WindowEmpty(s.attempts, now, WINDOW);
  }

  /** A source answers as its allowed times would, and goes on tracking them. */
  lemma DecideTracks(s: Option<Source>, times: seq<Instant>, refused: bool, now: Instant)
    requires Tracks(s, times, refused, now)
    ensures var (x, d) := Decide(s, now);
            && d == (if |Window(times, now, WINDOW)| < ATTEMPTS_PER_WINDOW then Allowed else Refused(!refused))
            && Tracks(Some(x), if d.Allowed? then times + [now] else times, d.Refused?, now)
  {
    hide Window;
    NoWindow(now);
    var kept := match s case Some(x) => x.attempts case None => [];
    PoppedIsWindow(kept, now);
    hide Popped;
    var w := Window(times, now, WINDOW);
    assert Popped(kept, now) == w;
    WindowTwice(times, now, now, WINDOW);
    WindowSorted(times, now, WINDOW);
    SortedLater(w, now, now);
    SortedLater(times, now, now);
    WindowNext(w, now, now, WINDOW);
    WindowNext(times, now, now, WINDOW);
  }

  // ---------------------------------------------------------------- the table

  ghost predicate TableTracks(m: map<Address, Source>, log: seq<Entry>, clock: Instant) {
    && |m| <= MAX_SOURCES
    && forall ip :: Tracks(Lookup(m, ip), AllowedTimes(log, ip), LastRefused(log, ip), clock)
  }

  lemma TableLater(m: map<Address, Source>, log: seq<Entry>, clock: Instant, now: Instant)
    requires TableTracks(m, log, clock) && clock <= now
    ensures TableTracks(m, log, now)
  {
    hide Tracks;
    forall ip ensures Tracks(Lookup(m, ip), AllowedTimes(log, ip), LastRefused(log, ip), now) {
      TracksLater(Lookup(m, ip), AllowedTimes(log, ip), LastRefused(log, ip), clock, now);
    }
  }

  lemma Fewer(a: map<Address, Source>, b: map<Address, Source>)
    requires a.Keys <= b.Keys
    ensures |a| <= |b|
    ensures |a| == |b| ==> a.Keys == b.Keys
  {
    FewerKeys(a.Keys, b.Keys);
    assert |a| == |a.Keys| && |b| == |b.Keys|;
  }

  lemma {:induction false} FewerKeys<K>(a: set<K>, b: set<K>)
    requires a <= b
    ensures |a| <= |b|
    ensures |a| == |b| ==> a == b
  {
    if a != {} {
      var x :| x in a;
      FewerKeys(a - {x}, b - {x});
    }
  }

  /** The expiry cleanup changes no answer. */
  lemma RoomTracks(m: map<Address, Source>, log: seq<Entry>, c: Call)
    requires TableTracks(m, log, c.now) && !Fires(m, c)
    ensures TableTracks(MakeRoom(m, c), log, c.now)
    ensures c.ip in MakeRoom(m, c) || |MakeRoom(m, c)| < MAX_SOURCES
  {
    hide Tracks;
    var r := MakeRoom(m, c);
    Fewer(r, m);
    forall ip ensures Tracks(Lookup(r, ip), AllowedTimes(log, ip), LastRefused(log, ip), c.now) {
      assert Tracks(Lookup(m, ip), AllowedTimes(log, ip), LastRefused(log, ip), c.now);
      if ip in m && ip !in r { TracksForgotten(m[ip], AllowedTimes(log, ip), LastRefused(log, ip), c.now); }
    }
  }

  lemma LogNext(log: seq<Entry>, e: Entry, ip: Address)
    ensures AllowedTimes(log + [e], ip) ==
            if e.ip == ip && e.decision.Allowed? then AllowedTimes(log, ip) + [e.now] else AllowedTimes(log, ip)
    ensures LastRefused(log + [e], ip) == if e.ip == ip then e.decision.Refused? else LastRefused(log, ip)
  {
    assert (log + [e])[..|log|] == log;
    assert AllowedTimes(log, ip) + [] == AllowedTimes(log, ip);
  }

  /** A call that evicts nobody answers as the history does. */
  lemma StepTracks(m: map<Address, Source>, log: seq<Entry>, c: Call)
    requires TableTracks(m, log, c.now) && !Fires(m, c)
    ensures var (m1, d) := Step(m, c);
            d == Answer(log, c.ip, c.now) && TableTracks(m1, log + [Entry(c.ip, c.now, d)], c.now)
  {
    hide Tracks, Fires, MakeRoom, Decide, AllowedTimes, LastRefused, Window;
    RoomTracks(m, log, c);
    var room := MakeRoom(m, c);
    var (s, d) := Decide(Lookup(room, c.ip), c.now);
    DecideTracks(Lookup(room, c.ip), AllowedTimes(log, c.ip), LastRefused(log, c.ip), c.now);
    var m1, e := room[c.ip := s], Entry(c.ip, c.now, d);
    assert m1.Keys == room.Keys + {c.ip};
    assert |m1| == |m1.Keys| && |room| == |room.Keys|;
    forall ip ensures Tracks(Lookup(m1, ip), AllowedTimes(log + [e], ip), LastRefused(log + [e], ip), c.now) {
      LogNext(log, e, ip);
      assert Tracks(Lookup(room, ip), AllowedTimes(log, ip), LastRefused(log, ip), c.now);
    }
  }

  // ---------------------------------------------------------------- whole runs

  ghost function Actives(log: seq<Entry>, now: Instant): set<Address> {
    set i | 0 <= i < |log| && Active(log, log[i].ip, now) :: log[i].ip
  }

  /** Time does not go back, and whenever an address calls, fewer than 256 others are active. */
  ghost predicate Quiet(calls: seq<Call>) {
    calls != [] ==>
      var g, c := calls[..|calls| - 1], calls[|calls| - 1];
      Quiet(g) && Clock(Run(g).1) <= c.now && |Actives(Run(g).1, c.now) - {c.ip}| < 256
  }

  lemma {:induction false} Logged(log: seq<Entry>, ip: Address)
    requires AllowedTimes(log, ip) != []
    ensures exists i :: 0 <= i < |log| && log[i].ip == ip
  {
    if log[|log| - 1].ip != ip {
      var g := log[..|log| - 1];
      Logged(g, ip);
      var i :| 0 <= i < |g| && g[i].ip == ip;
      assert log[i].ip == ip;
    }
  }

  lemma CountsIsActive(s: Option<Source>, times: seq<Instant>, refused: bool, now: Instant)
    requires Tracks(s, times, refused, now)
    ensures s.Some? && Counts(s.value, now) <==> Window(times, now, WINDOW) != []
  {
    if s.Some? {
      var a := s.value.attempts;
      if Counts(s.value, now) {
        var k := Cut(a, now, WINDOW);
        assert Within(a[|a| - 1], now, WINDOW);
      } else {
        WindowEmpty(a, now, WINDOW);
      }
    }
  }

  lemma CleanedIsActive(m: map<Address, Source>, log: seq<Entry>, now: Instant)
    requires TableTracks(m, log, now)
    ensures Cleaned(m, now).Keys == Actives(log, now)
  {
    hide Tracks, Counts, Window, AllowedTimes, LastRefused;
    forall ip ensures ip in Cleaned(m, now) <==> ip in Actives(log, now) {
      assert Tracks(Lookup(m, ip), AllowedTimes(log, ip), LastRefused(log, ip), now);
      CountsIsActive(Lookup(m, ip), AllowedTimes(log, ip), LastRefused(log, ip), now);
      if Active(log, ip, now) {
        NoWindow(now);
        Logged(log, ip);
      }
    }
  }

  /** The forced eviction fires exactly when 256 other addresses are active. */
  lemma {:induction false} FiresExactly(m: map<Address, Source>, log: seq<Entry>, c: Call)
    requires TableTracks(m, log, c.now)
    ensures Fires(m, c) <==> |Actives(log, c.now) - {c.ip}| >= 256
  {
    hide Tracks, Actives;
    var cleaned := Cleaned(m, c.now);
    CleanedIsActive(m, log, c.now);
    Fewer(cleaned, m);
    assert |cleaned| == |cleaned.Keys|;
    FewerKeys(cleaned.Keys - {c.ip}, cleaned.Keys);
    if c.ip !in m { assert cleaned.Keys - {c.ip} == cleaned.Keys; }
  }

  lemma {:induction false} QuietTracks(calls: seq<Call>)
    requires Quiet(calls)
    ensures TableTracks(Run(calls).0, Run(calls).1, Clock(Run(calls).1))
    ensures calls != [] ==>
            var g, c := Run(calls[..|calls| - 1]).1, calls[|calls| - 1];
            Run(calls).1 == g + [Entry(c.ip, c.now, Answer(g, c.ip, c.now))]
  {
    if calls != [] {
      hide TableTracks, Step, Answer, Actives, Fires;
      var c := calls[|calls| - 1];
      var (m, log) := Run(calls[..|calls| - 1]);
      QuietTracks(calls[..|calls| - 1]);
      TableLater(m, log, Clock(log), c.now);
      FiresExactly(m, log, c);
      StepTracks(m, log, c);
    }
  }

  /** In a quiet run every answer is the history's. */
  lemma {:induction false} AnswersExact(calls: seq<Call>, i: nat)
    requires Quiet(calls) && i < |calls|
    ensures |Run(calls).1| == |calls|
    ensures var log := Run(calls).1;
            log[i] == Entry(calls[i].ip, calls[i].now, Answer(log[..i], calls[i].ip, calls[i].now))
  {
    hide Answer, Step, Actives;
    var n := |calls| - 1;
    var g := calls[..n];
    QuietTracks(calls);
    RunLength(calls);
    RunLength(g);
    var log, before := Run(calls).1, Run(g).1;
    assert log[..n] == before;
    if i < n {
      AnswersExact(g, i);
      assert log[..i] == before[..i];
    }
  }

  lemma {:induction false} RunLength(calls: seq<Call>)
    ensures |Run(calls).1| == |calls|
  {
    hide Step;
    if calls != [] { RunLength(calls[..|calls| - 1]); }
  }

  lemma {:induction false} RefusedSince(log: seq<Entry>, i: nat, ip: Address)
    requires i < |log| && log[i].ip == ip && log[i].decision.Refused?
    requires forall j :: i < j < |log| && log[j].ip == ip ==> log[j].decision.Refused?
    ensures LastRefused(log, ip)
  {
    if log[|log| - 1].ip != ip { RefusedSince(log[..|log| - 1], i, ip); }
  }

  /** Between two allowed attempts, only the first refusal of an address is marked first. */
  lemma {:induction false} FirstOnce(calls: seq<Call>, i: nat, k: nat)
    requires i < k < |calls| && calls[i].ip == calls[k].ip
    ensures var log := Run(calls).1;
            && |log| == |calls|
            && (Quiet(calls) && log[i].decision.Refused? && log[k].decision.Refused?
                && (forall j :: i < j < k && calls[j].ip == calls[i].ip ==> log[j].decision.Refused?)
                ==> log[k].decision == Refused(false))
  {
    hide Quiet, Run, AllowedTimes, Window, LastRefused;
    var log := Run(calls).1;
    RunLength(calls);
    if Quiet(calls) {
      AnswersExact(calls, k);
      AnswersExact(calls, i);
      forall j | i < j < k ensures log[j].ip == calls[j].ip { AnswersExact(calls, j); }
      if log[i].decision.Refused? && forall j :: i < j < k && calls[j].ip == calls[i].ip ==> log[j].decision.Refused? {
        RefusedSince(log[..k], i, calls[i].ip);
      }
    }
  }

  // ---------------------------------------------------------------- when the eviction fires

  ghost function Zeros(j: nat): seq<Instant> { if j == 0 then [] else Zeros(j - 1) + [0] }

  /** One address calls `j` times at once. */
  ghost function Again(j: nat): seq<Call> { if j == 0 then [] else Again(j - 1) + [Call(V4(0), 0, V4(0))] }

  /** One address uses up its five attempts, then `k` others call once. */
  ghost function Flood(k: nat): seq<Call> {
    if k == 0 then Again(5) else Flood(k - 1) + [Call(V4(k), 1, V4(0))]
  }

  ghost function Flooded(k: nat): map<Address, Source> {
    if k == 0 then map[V4(0) := Source([0, 0, 0, 0, 0], false, 0)]
    else Flooded(k - 1)[V4(k) := Source([1], false, 1)]
  }

  lemma {:induction false} FloodedKeys(k: nat)
    ensures |Flooded(k)| == k + 1
    ensures forall ip :: ip in Flooded(k) <==> ip.V4? && ip.bits <= k
    ensures forall ip :: ip in Flooded(k) ==>
              Flooded(k)[ip] == if ip == V4(0) then Source([0, 0, 0, 0, 0], false, 0) else Source([1], false, 1)
  {
    if k > 0 { FloodedKeys(k - 1); }
  }

  lemma RunNext(calls: seq<Call>, c: Call)
    ensures var (m, log) := Run(calls);
            Run(calls + [c]) == (Step(m, c).0, log + [Entry(c.ip, c.now, Step(m, c).1)])
  {
    hide Step;
    assert (calls + [c])[..|calls|] == calls;
  }

  lemma Newcomer(now: Instant)
    ensures Decide(None, now) == (Source([now], false, now), Allowed)
  {
    var none: seq<Instant> := [];
    assert Popped(none, now) == none && none + [now] == [now];
  }

  lemma {:induction false} ZerosKept(j: nat)
    ensures |Zeros(j)| == j && (j > 0 ==> Zeros(j)[0] == 0)
  {
    if j > 0 { ZerosKept(j - 1); }
  }

  lemma Another(j: nat)
    requires j < 5
    ensures Decide(Some(Source(Zeros(j), false, 0)), 0) == (Source(Zeros(j + 1), false, 0), Allowed)
  {
    ZerosKept(j);
    assert Popped(Zeros(j), 0) == Zeros(j);
  }

  lemma StepUntracked(m: map<Address, Source>, c: Call)
    requires c.ip !in m && |m| < MAX_SOURCES
    ensures Step(m, c) == (m[c.ip := Source([c.now], false, c.now)], Allowed)
  {
    hide Decide;
    Newcomer(c.now);
  }

  lemma StepTracked(m: map<Address, Source>, c: Call)
    requires c.ip in m
    ensures Step(m, c) == (m[c.ip := Decide(Some(m[c.ip]), c.now).0], Decide(Some(m[c.ip]), c.now).1)
  {
    hide Decide;
  }

  ghost function Repeated(j: nat): map<Address, Source> {
    if j == 0 then map[] else map[V4(0) := Source(Zeros(j), false, 0)]
  }

  lemma Repeat(j: nat)
    requires j < 5
    ensures Step(Repeated(j), Call(V4(0), 0, V4(0))) == (Repeated(j + 1), Allowed)
  {
    hide Step, Decide;
    var m, c, s := Repeated(j), Call(V4(0), 0, V4(0)), Source(Zeros(j + 1), false, 0);
    if j == 0 {
      StepUntracked(m, c);
      assert Zeros(1) == [0];
    } else {
      StepTracked(m, c);
      Another(j);
    }
    assert m[V4(0) := s] == map[V4(0) := s];
  }

  lemma AgainNext(j: nat)
    requires j > 0
    ensures Again(j) == Again(j - 1) + [Call(V4(0), 0, V4(0))] && Zeros(j) == Zeros(j - 1) + [0]
  {
  }

  lemma FiveNone()
    ensures var (m, log) := Run(Again(0)); m == Repeated(0) && AllowedTimes(log, V4(0)) == Zeros(0) && !LastRefused(log, V4(0))
  {
  }

  lemma {:induction false} Five(j: nat)
    requires j <= 5
    ensures var (m, log) := Run(Again(j));
            m == Repeated(j) && AllowedTimes(log, V4(0)) == Zeros(j) && !LastRefused(log, V4(0))
  {
    hide Run, AllowedTimes, LastRefused, Step, Repeated, Again, Zeros;
    if j > 0 {
      Five(j - 1);
      AgainNext(j);
      RunNext(Again(j - 1), Call(V4(0), 0, V4(0)));
      Repeat(j - 1);
      LogNext(Run(Again(j - 1)).1, Entry(V4(0), 0, Allowed), V4(0));
    } else {
      FiveNone();
    }
  }

  lemma {:induction false} FloodFills(k: nat)
    requires k < MAX_SOURCES
    ensures var (m, log) := Run(Flood(k));
            m == Flooded(k) && AllowedTimes(log, V4(0)) == Zeros(5) && !LastRefused(log, V4(0))
  {
    hide Run, AllowedTimes, LastRefused, Step, Zeros, Again;
    if k == 0 {
      Five(5);
      ZerosAre();
    } else {
      FloodFills(k - 1);
      FloodedKeys(k - 1);
      var c := Call(V4(k), 1, V4(0));
      RunNext(Flood(k - 1), c);
      StepUntracked(Flooded(k - 1), c);
      LogNext(Run(Flood(k - 1)).1, Entry(V4(k), 1, Allowed), V4(0));
    }
  }

  lemma ZerosAre()
    ensures Zeros(5) == [0, 0, 0, 0, 0]
  {
    assert Zeros(3) == [0, 0, 0];
  }

  lemma FloodEvicts()
    ensures var f, c := Flooded(255), Call(V4(256), 1, V4(0));
            Fires(f, c) && Oldest(f, V4(0)) && V4(0) !in Step(f, c).0
  {
    hide Flooded, Decide;
    FloodedKeys(255);
    var f := Flooded(255);
    assert Cleaned(f, 1) == f;
  }

  lemma UntrackedAllowed(m: map<Address, Source>, c: Call)
    requires c.ip !in m
    ensures Step(m, c).1 == Allowed
  {
    hide Decide;
    Newcomer(c.now);
    assert Lookup(MakeRoom(m, c), c.ip) == None;
  }

  /** With 256 active addresses, one more evicts the least recently seen, which then gets a sixth attempt
      within the minute although the history would refuse it. */
  lemma EvictionForgets()
    ensures var calls := Flood(255) + [Call(V4(256), 1, V4(0))];
            var (m, log) := Run(calls);
            && Fires(Run(Flood(255)).0, Call(V4(256), 1, V4(0))) && Oldest(Run(Flood(255)).0, V4(0))
            && Step(m, Call(V4(0), 1, V4(1))).1 == Allowed && Answer(log, V4(0), 1) == Refused(true)
  {
    hide Run, AllowedTimes, LastRefused, Flooded, Flood, Step, Fires, Oldest;
    var c := Call(V4(256), 1, V4(0));
    FloodFills(255);
    FloodEvicts();
    RunNext(Flood(255), c);
    UntrackedAllowed(Run(Flood(255) + [c]).0, Call(V4(0), 1, V4(1)));
    LogNext(Run(Flood(255)).1, Entry(V4(256), 1, Step(Flooded(255), c).1), V4(0));
    ZerosAre();
    var zeros: seq<Instant> := [0, 0, 0, 0, 0];
    forall i | 0 <= i < 5 ensures Within(zeros[i], 1, WINDOW) {}
    WindowIs(zeros, 1, WINDOW, 0);
  }

  /** Calls from a table and log on. */
  function RunFrom(m: map<Address, Source>, log: seq<Entry>, calls: seq<Call>): (map<Address, Source>, seq<Entry>) {
    if calls == [] then (m, log) else
    var c := calls[|calls| - 1];
    var (m1, log1) := RunFrom(m, log, calls[..|calls| - 1]);
    var (m2, d) := Step(m1, c);
    (m2, log1 + [Entry(c.ip, c.now, d)])
  }

  ghost function Copies(now: Instant, k: nat): seq<Instant> { if k == 0 then [] else Copies(now, k - 1) + [now] }

  /** The evicted address calls `k` times; `other` is whom the table forgets for it. */
  ghost function Encore(c: Call, other: Address, k: nat): seq<Call> {
    if k == 0 then [] else Encore(c, other, k - 1) + [Call(c.victim, c.now, other)]
  }

  lemma {:induction false} CopiesCount(now: Instant, k: nat)
    ensures |Copies(now, k)| == k && (k > 0 ==> Copies(now, k)[0] == now)
  {
    if k > 0 { CopiesCount(now, k - 1); }
  }

  lemma {:induction false} WindowCopies(times: seq<Instant>, now: Instant, k: nat)
    ensures |Window(times + Copies(now, k), now, WINDOW)| == |Window(times, now, WINDOW)| + k
  {
    if k > 0 {
      WindowCopies(times, now, k - 1);
      WindowNext(times + Copies(now, k - 1), now, now, WINDOW);
      assert times + Copies(now, k) == times + Copies(now, k - 1) + [now];
    } else {
      assert times + Copies(now, 0) == times;
    }
  }

  /** A source that has only been allowed at `now`. */
  lemma MoreAllowed(k: nat, now: Instant)
    requires k < ATTEMPTS_PER_WINDOW
    ensures Decide(if k == 0 then None else Some(Source(Copies(now, k), false, now)), now)
         == (Source(Copies(now, k + 1), false, now), Allowed)
  {
    CopiesCount(now, k);
    if k == 0 { Newcomer(now); assert Copies(now, 1) == [now]; }
    else { assert Popped(Copies(now, k), now) == Copies(now, k); }
  }

  lemma StepForgotten(m: map<Address, Source>, c: Call)
    requires c.ip !in m
    ensures Step(m, c) == (MakeRoom(m, c)[c.ip := Decide(None, c.now).0], Decide(None, c.now).1)
  {
    hide Decide;
    assert Lookup(MakeRoom(m, c), c.ip) == None;
  }

  lemma EncoreStep(m: map<Address, Source>, c: Call, k: nat)
    requires k < ATTEMPTS_PER_WINDOW
    requires if k == 0 then c.ip !in m else c.ip in m && m[c.ip] == Source(Copies(c.now, k), false, c.now)
    ensures var (m1, d) := Step(m, c); d == Allowed && c.ip in m1 && m1[c.ip] == Source(Copies(c.now, k + 1), false, c.now)
  {
    hide Step, Decide, Copies, MakeRoom;
    MoreAllowed(k, c.now);
    if k == 0 { StepForgotten(m, c); } else { StepTracked(m, c); }
  }

  ghost predicate Known(m: map<Address, Source>, c: Call, k: nat) {
    if k == 0 then c.victim !in m else c.victim in m && m[c.victim] == Source(Copies(c.now, k), false, c.now)
  }

  /** `after` adds `k` allowed calls of the victim to `log`. */
  ghost predicate Grown(log: seq<Entry>, after: seq<Entry>, c: Call, k: nat) {
    && |after| == |log| + k && after[..|log|] == log
    && (forall j :: |log| <= j < |after| ==> after[j] == Entry(c.victim, c.now, Allowed))
    && AllowedTimes(after, c.victim) == AllowedTimes(log, c.victim) + Copies(c.now, k)
  }

  lemma GrownNext(log: seq<Entry>, after: seq<Entry>, c: Call, k: nat)
    requires Grown(log, after, c, k)
    ensures Grown(log, after + [Entry(c.victim, c.now, Allowed)], c, k + 1)
  {
    hide AllowedTimes, LastRefused;
    LogNext(after, Entry(c.victim, c.now, Allowed), c.victim);
    assert AllowedTimes(log, c.victim) + Copies(c.now, k) + [c.now] == AllowedTimes(log, c.victim) + Copies(c.now, k + 1);
  }

  lemma GrownNone(log: seq<Entry>, c: Call)
    ensures Grown(log, log, c, 0)
  {
    hide AllowedTimes;
    assert AllowedTimes(log, c.victim) + [] == AllowedTimes(log, c.victim);
  }

  lemma RunFromNext(m: map<Address, Source>, log: seq<Entry>, calls: seq<Call>, x: Call)
    ensures var (m1, log1) := RunFrom(m, log, calls);
            RunFrom(m, log, calls + [x]) == (Step(m1, x).0, log1 + [Entry(x.ip, x.now, Step(m1, x).1)])
  {
    hide Step;
    assert (calls + [x])[..|calls|] == calls;
  }

  lemma {:induction false} EncoreAllowed(m: map<Address, Source>, log: seq<Entry>, c: Call, other: Address, k: nat)
    requires c.victim !in m && k <= ATTEMPTS_PER_WINDOW
    ensures var (m1, log1) := RunFrom(m, log, Encore(c, other, k)); Known(m1, c, k) && Grown(log, log1, c, k)
  {
    hide Step, RunFrom, Grown, Known, Encore;
    if k > 0 {
      var calls, x := Encore(c, other, k - 1), Call(c.victim, c.now, other);
      EncoreAllowed(m, log, c, other, k - 1);
      EncoreNext(c, other, k);
      RunFromNext(m, log, calls, x);
      var (m1, log1) := RunFrom(m, log, calls);
      KnownNext(m1, c, other, k - 1);
      GrownNext(log, log1, c, k - 1);
    } else {
      EncoreNone(m, log, c, other);
      GrownNone(log, c);
    }
  }

  lemma EncoreNext(c: Call, other: Address, k: nat)
    requires k > 0
    ensures Encore(c, other, k) == Encore(c, other, k - 1) + [Call(c.victim, c.now, other)]
  {
  }

  lemma EncoreNone(m: map<Address, Source>, log: seq<Entry>, c: Call, other: Address)
    requires c.victim !in m
    ensures RunFrom(m, log, Encore(c, other, 0)) == (m, log) && Known(m, c, 0)
  {
  }

  lemma KnownNext(m: map<Address, Source>, c: Call, other: Address, k: nat)
    requires k < ATTEMPTS_PER_WINDOW && Known(m, c, k)
    ensures var (m1, d) := Step(m, Call(c.victim, c.now, other)); d == Allowed && Known(m1, c, k + 1)
  {
    hide Step, Copies;
    EncoreStep(m, Call(c.victim, c.now, other), k);
  }

  /** After an eviction the step leaves the victim out. */
  lemma EvictedGone(m: map<Address, Source>, c: Call)
    requires Fires(m, c) && c.victim in Cleaned(m, c.now)
    ensures c.victim != c.ip && c.victim !in Step(m, c).0
  {
    hide Decide;
  }

  /** Whenever the eviction fires, the address it forgets gets five more allowed answers at once, although the
      history would refuse the last of them at least. */
  lemma {:induction false} EvictionForgetsAlways(m: map<Address, Source>, log: seq<Entry>, c: Call, other: Address)
    requires TableTracks(m, log, c.now) && Fires(m, c) && c.victim in Cleaned(m, c.now)
    ensures var (m1, d) := Step(m, c);
            var log1 := log + [Entry(c.ip, c.now, d)];
            var log2 := RunFrom(m1, log1, Encore(c, other, 5)).1;
            && |log2| == |log1| + 5
            && (forall j :: |log1| <= j < |log2| ==> log2[j] == Entry(c.victim, c.now, Allowed))
            && Answer(log2[..|log2| - 1], c.victim, c.now).Refused?
  {
    hide TableTracks, Step, Fires, AllowedTimes, Window, LastRefused, RunFrom, Encore;
    EvictedGone(m, c);
    VictimActive(m, log, c);
    var (m1, d) := Step(m, c);
    var log1 := log + [Entry(c.ip, c.now, d)];
    LogNext(log, Entry(c.ip, c.now, d), c.victim);
    EncoreAllowed(m1, log1, c, other, 5);
    EncoreAllowed(m1, log1, c, other, 4);
    EncoreSplits(m1, log1, c, other);
    WindowCopies(AllowedTimes(log, c.victim), c.now, 4);
  }

  lemma VictimActive(m: map<Address, Source>, log: seq<Entry>, c: Call)
    requires TableTracks(m, log, c.now) && c.victim in Cleaned(m, c.now)
    ensures |Window(AllowedTimes(log, c.victim), c.now, WINDOW)| >= 1
  {
    CleanedIsActive(m, log, c.now);
    hide TableTracks, Window;
    assert Active(log, c.victim, c.now);
  }

  lemma EncoreSplits(m: map<Address, Source>, log: seq<Entry>, c: Call, other: Address)
    ensures var four, five := RunFrom(m, log, Encore(c, other, 4)).1, RunFrom(m, log, Encore(c, other, 5)).1;
            |five| == |four| + 1 && five[..|four|] == four
  {
    hide Step, RunFrom;
    var calls, x := Encore(c, other, 4), Call(c.victim, c.now, other);
    RunFromNext(m, log, calls, x);
  }

  // ---------------------------------------------------------------- the object

  class Limiter {
    var sources: map<Address, Source>

    constructor ()
      ensures sources == Run([]).0
    {
      sources := map[];
    }

    /** A source seen least recently. */
    method LeastRecent() returns (oldest: Address)
      requires sources != map[]
      ensures Oldest(sources, oldest)
    {
      var left := sources.Keys;
      assert left != {};
      oldest :| oldest in left;
      left := left - {oldest};
      while left != {}
        invariant oldest in sources && left <= sources.Keys
        invariant forall ip :: ip in sources ==> ip in left || sources[oldest].lastSeen <= sources[ip].lastSeen
        decreases |left|
      {
        var ip :| ip in left;
        left := left - {ip};
        if sources[ip].lastSeen < sources[oldest].lastSeen { oldest := ip; }
      }
    }

    /** Make room for an address that is not tracked. */
    method Expire(key: Address, now: Instant) returns (ghost victim: Address)
      modifies this
      ensures sources == MakeRoom(old(sources), Call(key, now, victim))
      ensures Fires(old(sources), Call(key, now, victim)) ==> Oldest(Cleaned(old(sources), now), victim)
    {
      victim := key;
      if key !in sources && |sources| >= MAX_SOURCES {
        sources := map ip | ip in sources && Counts(sources[ip], now) :: sources[ip];
        if |sources| >= MAX_SOURCES {
          var oldest := LeastRecent();
          victim := oldest;
          sources := sources - {oldest};
        }
      }
    }

    /** Count an attempt. */
    method Check(ip: Address, now: Instant) returns (d: Decision, ghost victim: Address)
      modifies this
      ensures (sources, d) == Step(old(sources), Call(Canonical(ip), now, victim))
      ensures Fires(old(sources), Call(Canonical(ip), now, victim)) ==> Oldest(Cleaned(old(sources), now), victim)
    {
      var key := Canonical(ip);
      victim := Expire(key, now);
      hide MakeRoom, Fires, Cleaned, Canonical;
      var s := if key in sources then sources[key] else Source([], false, now);
      var attempts := s.attempts;
      while attempts != [] && !Within(attempts[0], now, WINDOW)
        invariant Popped(s.attempts, now) == Popped(attempts, now)
      {
        attempts := attempts[1..];
      }
      if |attempts| >= ATTEMPTS_PER_WINDOW {
        d := Refused(!s.reported);
        sources := sources[key := Source(attempts, true, now)];
      } else {
        d := Allowed;
        sources := sources[key := Source(attempts + [now], false, now)];
      }
    }
  }
}
