/** The local audit log (sp-engine/src/audit.rs): a bounded list in memory and an append-and-compact file. */
module AuditLog {
  import opened Common

  const RETENTION_SECS: nat := 30 * 24 * 3600
  const MAX_FIELD_CHARS: nat := 128

  /** `Other` numbers the remaining kinds. */
  datatype Kind = LogCleared | Other(number: nat)
  datatype Entry = Entry(time: u64, kind: Kind, peerName: string, peerCode: string, route: Option<nat>, detail: string)

  /** A non-blank line of the file: a readable entry, or something else. */
  datatype Line = Readable(entry: Entry) | Damaged

  datatype Log = Log(entries: seq<Entry>, max: nat, lines: nat, file: seq<Line>)

  datatype Event = Record(entry: Entry) | Clear(now: u64) | Reopen(now: u64)

  // ---------------------------------------------------------------- what each call does

  predicate IsControl(c: char) { c < ' ' || '\U{7F}' <= c <= '\U{9F}' }

  /** Drop control characters and keep the first 128 others. */
  function Clipped(text: string, room: nat): (r: string)
    ensures |r| <= room && forall c :: c in r ==> !IsControl(c)
  {
    if text == [] || room == 0 then []
    else if IsControl(text[0]) then Clipped(text[1..], room)
    else [text[0]] + Clipped(text[1..], room - 1)
  }

  function Clip(e: Entry): Entry {
    e.(peerName := Clipped(e.peerName, MAX_FIELD_CHARS), detail := Clipped(e.detail, MAX_FIELD_CHARS))
  }

  /** The characters that are not control codes. */
  function Visible(text: string): string {
    if text == "" then "" else
    var c := text[0] as int;
    (if c < 32 || 127 <= c <= 159 then "" else [text[0]]) + Visible(text[1..])
  }

  /** What is left of a text is its visible part, as far as there is room. */
  lemma {:induction false} ClippedExactly(text: string, room: nat)
    ensures Clipped(text, room) == if |Visible(text)| <= room then Visible(text) else Visible(text)[..room]
  {
    if text == "" {
    } else if text[0] as int < 32 || 127 <= text[0] as int <= 159 {
      ClippedExactly(text[1..], room);
      ControlGone(text, room);
    } else if room > 0 {
      ClippedExactly(text[1..], room - 1);
      OtherKept(text, room);
    }
  }

  lemma ControlGone(text: string, room: nat)
    requires text != "" && (text[0] as int < 32 || 127 <= text[0] as int <= 159)
    ensures Clipped(text, room) == Clipped(text[1..], room) && Visible(text) == Visible(text[1..])
  {
    assert "" + Visible(text[1..]) == Visible(text[1..]);
  }

  lemma OtherKept(text: string, room: nat)
    requires text != "" && room > 0 && !(text[0] as int < 32 || 127 <= text[0] as int <= 159)
    ensures Clipped(text, room) == [text[0]] + Clipped(text[1..], room - 1) && Visible(text) == [text[0]] + Visible(text[1..])
  {
  }

  predicate Kept(e: Entry, now: u64) { e.time >= SatSub(now, RETENTION_SECS) }

  /** An entry is kept for thirty days, the last second included. */
  lemma KeptThirtyDays(e: Entry, now: u64)
    ensures Kept(e, now) <==> now - e.time <= 2_592_000
  {
  }

  /** The entries inside retention. */
  function Retained(es: seq<Entry>, now: u64): (r: seq<Entry>)
    ensures |r| <= |es|
  {
    if es == [] then [] else
    var n := |es| - 1;
    Retained(es[..n], now) + if Kept(es[n], now) then [es[n]] else []
  }

  /** The newest `n`. */
  function Newest(es: seq<Entry>, n: nat): seq<Entry> { if |es| <= n then es else es[|es| - n..] }

  /** Drop expired entries from the front. */
  function Popped(es: seq<Entry>, now: u64): seq<Entry> {
    if es != [] && !Kept(es[0], now) then Popped(es[1..], now) else es
  }

  function Lines(es: seq<Entry>): (r: seq<Line>)
    ensures |r| == |es|
  {
    seq(|es|, i requires 0 <= i < |es| => Readable(es[i]))
  }

  /** The readable entries of a file. */
  function Parsed(file: seq<Line>): seq<Entry> {
    if file == [] then [] else
    var l := file[|file| - 1];
    Parsed(file[..|file| - 1]) + if l.Readable? then [l.entry] else []
  }

  function Compacted(l: Log): Log { l.(file := Lines(l.entries), lines := |l.entries|) }

  function Open(file: seq<Line>, max: nat, now: u64): Log {
    var entries := Newest(Retained(Parsed(file), now), max);
    var l := Log(entries, max, |file|, file);
    if |file| != |entries| then Compacted(l) else l
  }

  function Recorded(l: Log, entry: Entry): Log {
    var e := Clip(entry);
    var l1 := l.(entries := Newest(Popped(l.entries, e.time) + [e], l.max));
    if l.lines + 1 >= 2 * l.max then Compacted(l1)
    else l1.(file := l.file + [Readable(e)], lines := l.lines + 1)
  }

  /** A text as it is recorded. */
  function Shown(text: string): string { if |Visible(text)| <= 128 then Visible(text) else Visible(text)[..128] }

  /** Recording adds the entry, with its texts cut to 128 visible characters, as the newest in memory. */
  lemma RecordsShown(l: Log, e: Entry)
    requires l.max >= 1
    ensures var es := Recorded(l, e).entries;
            && 1 <= |es| <= l.max
            && es[|es| - 1] == Entry(e.time, e.kind, Shown(e.peerName), e.peerCode, e.route, Shown(e.detail))
  {
    hide Clipped, Popped, Retained;
    ClippedExactly(e.peerName, 128);
    ClippedExactly(e.detail, 128);
  }

  function Cleared(now: u64): Entry { Entry(now, LogCleared, "", "", None, "") }

  function Step(l: Log, e: Event): Log {
    match e
    case Record(entry) => Recorded(l, entry)
    case Clear(now) => Recorded(Log([], l.max, 0, []), Cleared(now))
    case Reopen(now) => Open(l.file, l.max, now)
  }

  function When(e: Event): u64 { match e case Record(entry) => entry.time case Clear(now) => now case Reopen(now) => now }

  // ---------------------------------------------------------------- runs

  function Run(file: seq<Line>, max: nat, start: u64, events: seq<Event>): (l: Log)
    ensures l.max == max
  {
    if events == [] then Open(file, max, start)
    else Step(Run(file, max, start, events[..|events| - 1]), events[|events| - 1])
  }

  function Clock(start: u64, events: seq<Event>): u64 { if events == [] then start else When(events[|events| - 1]) }

  /** Everything recorded since the last clearing, without any bound. */
  function History(file: seq<Line>, events: seq<Event>): seq<Entry> {
    if events == [] then Parsed(file) else
    var before := History(file, events[..|events| - 1]);
    match events[|events| - 1]
    case Record(entry) => before + [Clip(entry)]
    case Clear(now) => [Clip(Cleared(now))]
    case Reopen(_) => before
  }

  ghost predicate Sorted(es: seq<Entry>, clock: u64) {
    && (forall i, j :: 0 <= i < j < |es| ==> es[i].time <= es[j].time)
    && forall i :: 0 <= i < |es| ==> es[i].time <= clock
  }

  /** Times do not go back, from those in the file on. */
  ghost predicate Ordered(file: seq<Line>, start: u64, events: seq<Event>) {
    if events == [] then Sorted(Parsed(file), start)
    else Ordered(file, start, events[..|events| - 1])
         && Clock(start, events[..|events| - 1]) <= When(events[|events| - 1])
  }

  // ---------------------------------------------------------------- a bounded list against a longer one

  /** `m` is the end of `all`, and what it lacks has expired or was pushed out by the bound. */
  ghost predicate Covers(all: seq<Entry>, m: seq<Entry>, max: nat, clock: u64) {
    && |m| <= max && |m| <= |all| && m == all[|all| - |m|..]
    && (|m| == max || forall i :: 0 <= i < |all| - |m| ==> !Kept(all[i], clock))
  }

  /** If exactly the entries from index `k` on are kept, they are the retained ones. */
  lemma {:induction false} RetainedIs(es: seq<Entry>, now: u64, k: nat)
    requires k <= |es| && (forall i :: 0 <= i < k ==> !Kept(es[i], now)) && forall i :: k <= i < |es| ==> Kept(es[i], now)
    ensures Retained(es, now) == es[k..]
  {
    if es != [] {
      hide Kept;
      var n := |es| - 1;
      if k <= n {
        RetainedIs(es[..n], now, k);
        assert es[..n][k..] + [es[n]] == es[k..];
      } else {
        RetainedIs(es[..n], now, n);
        assert es[..n][n..] + [] == es[k..];
      }
    }
  }

  /** In a sorted list the kept entries are those from some index on. */
  lemma Cut(es: seq<Entry>, now: u64, clock: u64) returns (k: nat)
    requires Sorted(es, clock)
    ensures k <= |es| && (forall i :: 0 <= i < k ==> !Kept(es[i], now)) && forall i :: k <= i < |es| ==> Kept(es[i], now)
    ensures Retained(es, now) == es[k..]
  {
    k := |es|;
    while k > 0 && Kept(es[k - 1], now)
      invariant k <= |es| && forall i :: k <= i < |es| ==> Kept(es[i], now)
    {
      k := k - 1;
    }
    forall i | 0 <= i < k ensures !Kept(es[i], now) { assert es[i].time <= es[k - 1].time; }
    RetainedIs(es, now, k);
  }

  lemma Expires(e: Entry, clock: u64, now: u64)
    requires clock <= now && !Kept(e, clock)
    ensures !Kept(e, now)
  {
  }

  /** The bounded list shows, at any later time, exactly the newest retained entries of the longer one. */
  lemma CoversShows(all: seq<Entry>, m: seq<Entry>, max: nat, clock: u64, now: u64)
    requires Sorted(all, clock) && Covers(all, m, max, clock) && clock <= now
    ensures Retained(m, now) == Newest(Retained(all, now), max)
  {
    var d := |all| - |m|;
    var k := Cut(all, now, clock);
    hide Retained, Newest, Kept, Sorted;
    if k <= d {
      ShownWhole(all, m, now, d);
      if |m| != max && k < d { Expires(all[k], clock, now); }
      NewestFrom(all, m, max, k);
    } else {
      ShownPart(all, m, now, d, k);
      NewestIs(all[k..], max, 0);
    }
  }

  lemma NewestIs(es: seq<Entry>, n: nat, d: nat)
    requires d <= |es| && |es| - d <= n && (d == 0 || |es| - d == n)
    ensures Newest(es, n) == es[d..]
  {
  }

  lemma NewestFrom(all: seq<Entry>, m: seq<Entry>, n: nat, k: nat)
    requires |m| <= n && k + |m| <= |all| && m == all[|all| - |m|..] && (k + |m| == |all| || |m| == n)
    ensures Newest(all[k..], n) == m
  {
    var d := |all| - |m| - k;
    NewestIs(all[k..], n, d);
    assert all[k..][d..] == m;
  }

  lemma ShownPart(all: seq<Entry>, m: seq<Entry>, now: u64, d: nat, k: nat)
    requires d <= k <= |all| == d + |m| && m == all[d..]
    requires (forall i :: 0 <= i < k ==> !Kept(all[i], now)) && forall i :: k <= i < |all| ==> Kept(all[i], now)
    ensures Retained(m, now) == all[k..]
  {
    hide Kept;
    forall i | 0 <= i < |m| ensures m[i] == all[d + i] {}
    RetainedIs(m, now, k - d);
    assert m[k - d..] == all[k..];
  }

  lemma ShownWhole(all: seq<Entry>, m: seq<Entry>, now: u64, d: nat)
    requires d + |m| == |all| && m == all[d..] && forall i :: d <= i < |all| ==> Kept(all[i], now)
    ensures Retained(m, now) == m
  {
    hide Kept;
    forall i | 0 <= i < |m| ensures Kept(m[i], now) { assert m[i] == all[d + i]; }
    RetainedIs(m, now, 0);
  }

  lemma CoversSelf(m: seq<Entry>, max: nat, clock: u64)
    requires |m| <= max
    ensures Covers(m, m, max, clock)
  {
    assert m == m[0..];
  }

  /** What is read back from a longer list. */
  lemma CoversOpen(all: seq<Entry>, max: nat, now: u64)
    requires Sorted(all, now)
    ensures Covers(all, Newest(Retained(all, now), max), max, now)
  {
    var k := Cut(all, now, now);
    hide Kept, Retained;
    var kept := all[k..];
    if |kept| > max { assert kept[|kept| - max..] == all[|all| - max..]; }
  }

  lemma SortedSuffix(all: seq<Entry>, m: seq<Entry>, clock: u64)
    requires Sorted(all, clock) && |m| <= |all| && m == all[|all| - |m|..]
    ensures Sorted(m, clock)
  {
    assert forall i :: 0 <= i < |m| ==> m[i] == all[|all| - |m| + i];
  }

  lemma EarlierExpired(all: seq<Entry>, clock: u64, j: nat, now: u64)
    requires Sorted(all, clock) && j < |all| && !Kept(all[j], now)
    ensures forall i :: 0 <= i <= j ==> !Kept(all[i], now)
  {
    forall i | 0 <= i <= j ensures !Kept(all[i], now) { assert all[i].time <= all[j].time; }
  }

  /** Dropping what has expired by `now` keeps the cover. */
  lemma CoversDrop(all: seq<Entry>, m: seq<Entry>, max: nat, clock: u64, now: u64)
    requires Sorted(all, clock) && Covers(all, m, max, clock) && clock <= now
    ensures Covers(all, Retained(m, now), max, now)
  {
    var d := |all| - |m|;
    SortedSuffix(all, m, clock);
    var k := Cut(m, now, clock);
    hide Retained, Kept, Sorted;
    if k > 0 {
      assert m[k - 1] == all[d..][k - 1] == all[d + k - 1];
      EarlierExpired(all, clock, d + k - 1, now);
      CoversLess(all, m, max, k, now);
    } else if |m| != max {
      forall i | 0 <= i < d ensures !Kept(all[i], now) { Expires(all[i], clock, now); }
    }
  }

  lemma CoversLess(all: seq<Entry>, m: seq<Entry>, max: nat, k: nat, now: u64)
    requires k <= |m| <= max && |m| <= |all| && m == all[|all| - |m|..]
    requires forall i :: 0 <= i < |all| - |m| + k ==> !Kept(all[i], now)
    ensures Covers(all, m[k..], max, now)
  {
    hide Kept;
    assert m[k..] == all[|all| - |m| + k..];
  }

  lemma {:induction false} PoppedIs(m: seq<Entry>, now: u64, k: nat)
    requires k <= |m| && (forall i :: 0 <= i < k ==> !Kept(m[i], now)) && forall i :: k <= i < |m| ==> Kept(m[i], now)
    ensures Popped(m, now) == m[k..]
  {
    hide Kept;
    if k > 0 {
      PoppedIs(m[1..], now, k - 1);
      assert m[1..][k - 1..] == m[k..];
    }
  }

  lemma PoppedIsRetained(m: seq<Entry>, now: u64, clock: u64)
    requires Sorted(m, clock)
    ensures Popped(m, now) == Retained(m, now)
  {
    var k := Cut(m, now, clock);
    PoppedIs(m, now, k);
  }

  lemma CoversAdd(all: seq<Entry>, m: seq<Entry>, max: nat, e: Entry)
    requires Covers(all, m, max, e.time)
    ensures Covers(all + [e], Newest(m + [e], max), max, e.time)
  {
    hide Kept;
    var n, w := all + [e], m + [e];
    assert w == n[|n| - |w|..];
    if |w| > max { assert w[1..] == n[|n| - max..]; }
  }

  /** Recording keeps the cover. */
  lemma CoversRecord(all: seq<Entry>, m: seq<Entry>, max: nat, clock: u64, e: Entry)
    requires Sorted(all, clock) && Covers(all, m, max, clock) && clock <= e.time
    ensures Sorted(all + [e], e.time)
    ensures Covers(all + [e], Newest(Popped(m, e.time) + [e], max), max, e.time)
  {
    hide Covers, Newest, Popped, Retained;
    CoversDrop(all, m, max, clock, e.time);
    SortedCover(all, m, max, clock);
    PoppedIsRetained(m, e.time, clock);
    CoversAdd(all, Retained(m, e.time), max, e);
  }

  lemma SortedCover(all: seq<Entry>, m: seq<Entry>, max: nat, clock: u64)
    requires Sorted(all, clock) && Covers(all, m, max, clock)
    ensures Sorted(m, clock) && |m| <= max
  {
    SortedSuffix(all, m, clock);
  }

  // ---------------------------------------------------------------- the file

  lemma ParsedNext(file: seq<Line>, l: Line)
    ensures Parsed(file + [l]) == Parsed(file) + if l.Readable? then [l.entry] else []
  {
    assert (file + [l])[..|file|] == file;
  }

  lemma {:induction false} ParsedLines(es: seq<Entry>)
    ensures Parsed(Lines(es)) == es
  {
    if es != [] {
      var n := |es| - 1;
      ParsedLines(es[..n]);
      assert Lines(es)[..n] == Lines(es[..n]);
      assert es == es[..n] + [es[n]];
    }
  }

  /** A file with as many readable entries as lines has no other lines. */
  lemma {:induction false} ParsedFull(file: seq<Line>)
    ensures |Parsed(file)| <= |file|
    ensures |Parsed(file)| == |file| ==> file == Lines(Parsed(file))
  {
    if file != [] {
      var g, l := file[..|file| - 1], file[|file| - 1];
      ParsedFull(g);
      if |Parsed(file)| == |file| {
        assert file == g + [l];
        LinesNext(Parsed(g), l.entry);
      }
    }
  }

  lemma LinesNext(es: seq<Entry>, e: Entry)
    ensures Lines(es + [e]) == Lines(es) + [Readable(e)]
  {
  }

  /** The file holds readable lines only, is counted right and short, and it and the history both continue
      what is in memory. */
  ghost predicate Consistent(l: Log, history: seq<Entry>, clock: u64) {
    && Sorted(history, clock) && Covers(history, l.entries, l.max, clock)
    && Sorted(Parsed(l.file), clock) && Covers(Parsed(l.file), l.entries, l.max, clock)
    && l.file == Lines(Parsed(l.file)) && l.lines == |l.file| < 2 * l.max
  }

  lemma CompactConsistent(l: Log, history: seq<Entry>, clock: u64)
    requires l.max >= 1 && Sorted(history, clock) && Covers(history, l.entries, l.max, clock)
    ensures Consistent(Compacted(l), history, clock)
  {
    hide Parsed, Sorted;
    SortedCover(history, l.entries, l.max, clock);
    ParsedLines(l.entries);
    CoversSelf(l.entries, l.max, clock);
  }

  lemma OpenConsistent(file: seq<Line>, max: nat, history: seq<Entry>, now: u64)
    requires max >= 1 && Sorted(Parsed(file), now) && Sorted(history, now)
    requires Covers(history, Newest(Retained(Parsed(file), now), max), max, now)
    ensures Consistent(Open(file, max, now), history, now)
  {
    hide Parsed, Sorted, Retained, Kept;
    var p := Parsed(file);
    var entries := Newest(Retained(p, now), max);
    CoversOpen(p, max, now);
    if |file| == |entries| {
      ParsedFull(file);
      assert entries == p[0..];
      SortedCover(history, entries, max, now);
      CoversSelf(entries, max, now);
    } else {
      CompactConsistent(Log(entries, max, |file|, file), history, now);
    }
  }

  lemma RecordConsistent(l: Log, history: seq<Entry>, clock: u64, entry: Entry)
    requires l.max >= 1 && Consistent(l, history, clock) && clock <= entry.time
    ensures Consistent(Recorded(l, entry), history + [Clip(entry)], entry.time)
  {
    hide Parsed, Sorted, Covers, Newest, Popped, Lines;
    var e := Clip(entry);
    CoversRecord(history, l.entries, l.max, clock, e);
    var l1 := l.(entries := Newest(Popped(l.entries, e.time) + [e], l.max));
    if l.lines + 1 >= 2 * l.max {
      CompactConsistent(l1, history + [e], e.time);
    } else {
      CoversRecord(Parsed(l.file), l.entries, l.max, clock, e);
      ParsedNext(l.file, Readable(e));
      LinesNext(Parsed(l.file), e);
    }
  }

  lemma EmptyConsistent(max: nat, now: u64)
    requires max >= 1
    ensures Consistent(Log([], max, 0, []), [], now)
  {
    var none: seq<Entry> := [];
    CoversSelf(none, max, now);
    hide Covers;
    assert Parsed([]) == none && Lines(none) == [];
  }

  lemma ClearConsistent(max: nat, now: u64)
    requires max >= 1
    ensures Consistent(Recorded(Log([], max, 0, []), Cleared(now)), [Clip(Cleared(now))], now)
  {
    hide Consistent, Recorded, Clip;
    EmptyConsistent(max, now);
    RecordConsistent(Log([], max, 0, []), [], now, Cleared(now));
    assert [] + [Clip(Cleared(now))] == [Clip(Cleared(now))];
  }

  lemma ReopenConsistent(l: Log, history: seq<Entry>, clock: u64, now: u64)
    requires l.max >= 1 && Consistent(l, history, clock) && clock <= now
    ensures Consistent(Open(l.file, l.max, now), history, now)
  {
    hide Parsed, Covers, Newest, Retained, Lines, Open;
    CoversShows(Parsed(l.file), l.entries, l.max, clock, now);
    CoversDrop(history, l.entries, l.max, clock, now);
    OpenConsistent(l.file, l.max, history, now);
  }

  /** Through any records, clearings, compactions and restarts. */
  lemma {:induction false} AlwaysConsistent(file: seq<Line>, max: nat, start: u64, events: seq<Event>)
    requires max >= 1 && Ordered(file, start, events)
    ensures Consistent(Run(file, max, start, events), History(file, events), Clock(start, events))
  {
    hide Consistent, Recorded, Open;
    if events == [] {
      CoversOpen(Parsed(file), max, start);
      OpenConsistent(file, max, Parsed(file), start);
    } else {
      var g, e := events[..|events| - 1], events[|events| - 1];
      AlwaysConsistent(file, max, start, g);
      var l, h, clock := Run(file, max, start, g), History(file, g), Clock(start, g);
      match e {
        case Record(entry) => RecordConsistent(l, h, clock, entry);
        case Clear(now) => ClearConsistent(max, now);
        case Reopen(now) => ReopenConsistent(l, h, clock, now);
      }
    }
  }

  // ---------------------------------------------------------------- memory and file, whatever the times

  /** The file holds readable lines only, is counted right and short, and memory is its end. */
  ghost predicate Backed(l: Log) {
    && |l.entries| <= l.max && l.file == Lines(Parsed(l.file)) && l.lines == |l.file| < 2 * l.max
    && EndsWith(Parsed(l.file), l.entries)
  }

  ghost predicate EndsWith(all: seq<Entry>, m: seq<Entry>) {
    |m| <= |all| && m == all[|all| - |m|..]
  }

  lemma {:induction false} PoppedEnds(m: seq<Entry>, now: u64)
    ensures EndsWith(m, Popped(m, now))
  {
    if m != [] && !Kept(m[0], now) {
      PoppedEnds(m[1..], now);
      EndsTail(m, Popped(m, now));
    }
  }

  lemma EndsTail(m: seq<Entry>, t: seq<Entry>)
    requires m != [] && EndsWith(m[1..], t)
    ensures EndsWith(m, t)
  {
  }

  lemma EndsTrans(a: seq<Entry>, b: seq<Entry>, c: seq<Entry>)
    requires EndsWith(a, b) && EndsWith(b, c)
    ensures EndsWith(a, c)
  {
  }

  lemma EndsNext(all: seq<Entry>, m: seq<Entry>, e: Entry)
    requires EndsWith(all, m)
    ensures EndsWith(all + [e], m + [e])
  {
  }

  lemma NewestEnds(m: seq<Entry>, n: nat)
    ensures EndsWith(m, Newest(m, n)) && |Newest(m, n)| <= n
  {
  }

  lemma CompactBacked(l: Log)
    requires l.max >= 1 && |l.entries| <= l.max
    ensures Backed(Compacted(l))
  {
    ParsedLines(l.entries);
    hide Lines, Parsed;
  }

  lemma RecordBacked(l: Log, entry: Entry)
    requires l.max >= 1 && Backed(l)
    ensures Backed(Recorded(l, entry))
  {
    hide EndsWith, Popped, Newest, Parsed, Lines, Clip;
    var e := Clip(entry);
    var popped := Popped(l.entries, e.time);
    PoppedEnds(l.entries, e.time);
    EndsTrans(Parsed(l.file), l.entries, popped);
    EndsNext(Parsed(l.file), popped, e);
    NewestEnds(popped + [e], l.max);
    EndsTrans(Parsed(l.file) + [e], popped + [e], Newest(popped + [e], l.max));
    if l.lines + 1 >= 2 * l.max {
      CompactBacked(l.(entries := Newest(popped + [e], l.max)));
    } else {
      ParsedNext(l.file, Readable(e));
      LinesNext(Parsed(l.file), e);
    }
  }

  lemma EmptyBacked(max: nat)
    requires max >= 1
    ensures Backed(Log([], max, 0, []))
  {
    assert Parsed([]) == [] && Lines([]) == [];
  }

  lemma OpenBacked(file: seq<Line>, max: nat, now: u64)
    requires max >= 1
    ensures Backed(Open(file, max, now))
  {
    hide Parsed, Retained, Lines, Newest, Backed;
    var entries := Newest(Retained(Parsed(file), now), max);
    NewestEnds(Retained(Parsed(file), now), max);
    if |file| == |entries| {
      WholeBacked(file, max, now);
    } else {
      CompactBacked(Log(entries, max, |file|, file));
    }
  }

  lemma WholeBacked(file: seq<Line>, max: nat, now: u64)
    requires max >= 1 && |Newest(Retained(Parsed(file), now), max)| == |file|
    ensures Backed(Log(Newest(Retained(Parsed(file), now), max), max, |file|, file))
  {
    ParsedFull(file);
    NewestEnds(Retained(Parsed(file), now), max);
    WholeFile(Parsed(file), max, now);
    EndsSelf(Parsed(file));
    hide Parsed, Retained, Lines, Newest, EndsWith;
  }

  lemma EndsSelf(m: seq<Entry>)
    ensures EndsWith(m, m)
  {
  }

  lemma WholeFile(p: seq<Entry>, max: nat, now: u64)
    requires |Newest(Retained(p, now), max)| >= |p|
    ensures Newest(Retained(p, now), max) == p
  {
    AllRetained(p, now);
    hide Retained;
  }

  lemma {:induction false} AllRetained(es: seq<Entry>, now: u64)
    requires |Retained(es, now)| == |es|
    ensures Retained(es, now) == es
  {
    if es != [] {
      AllRetained(es[..|es| - 1], now);
      assert es == es[..|es| - 1] + [es[|es| - 1]];
    }
  }

  /** In every run, whatever the times and whatever file it started from. */
  lemma {:induction false} AlwaysBacked(file: seq<Line>, max: nat, start: u64, events: seq<Event>)
    requires max >= 1
    ensures Backed(Run(file, max, start, events))
  {
    hide Backed, Recorded, Open;
    if events == [] {
      OpenBacked(file, max, start);
    } else {
      var l := Run(file, max, start, events[..|events| - 1]);
      AlwaysBacked(file, max, start, events[..|events| - 1]);
      match events[|events| - 1] {
        case Record(entry) => RecordBacked(l, entry);
        case Clear(now) => EmptyBacked(max); RecordBacked(Log([], max, 0, []), Cleared(now));
        case Reopen(now) => OpenBacked(l.file, max, now);
      }
    }
  }

  lemma {:induction false} RetainedAdds(a: seq<Entry>, b: seq<Entry>, now: u64)
    ensures Retained(a + b, now) == Retained(a, now) + Retained(b, now)
    decreases |b|
  {
    if b == [] {
      assert a + b == a;
    } else {
      var n := |b| - 1;
      RetainedAdds(a, b[..n], now);
      assert (a + b)[..|a + b| - 1] == a + b[..n] && (a + b)[|a + b| - 1] == b[n];
    }
  }

  /** What the file still holds and memory does not. */
  function Behind(l: Log): seq<Entry>
    requires |l.entries| <= |Parsed(l.file)|
  {
    Parsed(l.file)[..|Parsed(l.file)| - |l.entries|]
  }

  /** In every run, reloading at any time gives the in-memory entries inside retention if and only if nothing
      else in the file is inside retention, or those fill the limit. */
  lemma {:induction false} ReloadsExactly(file: seq<Line>, max: nat, start: u64, events: seq<Event>, now: u64)
    requires max >= 1
    ensures var l := Run(file, max, start, events);
            && |l.entries| <= |Parsed(l.file)|
            && (Open(l.file, max, now).entries == Retained(l.entries, now) <==>
                Retained(Behind(l), now) == [] || |Retained(l.entries, now)| == max)
            && l.lines == |l.file| < 2 * max
  {
    hide Run, Open, Parsed, Behind, Retained;
    AlwaysBacked(file, max, start, events);
    ReloadOf(Run(file, max, start, events), now);
  }

  lemma ReloadOf(l: Log, now: u64)
    requires Backed(l)
    ensures |l.entries| <= |Parsed(l.file)|
    ensures Open(l.file, l.max, now).entries == Retained(l.entries, now) <==>
            Retained(Behind(l), now) == [] || |Retained(l.entries, now)| == l.max
  {
    hide Parsed, Retained, Lines, Newest;
    var p, m := Behind(l), l.entries;
    assert Parsed(l.file) == p + m;
    RetainedAdds(p, m, now);
    NewestOfTwo(Retained(p, now), Retained(m, now), l.max);
    assert Open(l.file, l.max, now).entries == Newest(Retained(p + m, now), l.max);
  }

  lemma NewestOfTwo(a: seq<Entry>, b: seq<Entry>, n: nat)
    requires |b| <= n
    ensures Newest(a + b, n) == b <==> a == [] || |b| == n
  {
    if |b| == n { assert (a + b)[|a + b| - n..] == b; }
    if a != [] && |b| < n { assert |Newest(a + b, n)| > |b|; }
  }

  /** While times have not gone back, that is always so. */
  lemma BehindExpired(all: seq<Entry>, m: seq<Entry>, max: nat, clock: u64, now: u64)
    requires Sorted(all, clock) && Covers(all, m, max, clock) && clock <= now
    ensures Retained(all[..|all| - |m|], now) == [] || |Retained(m, now)| == max
  {
    var d := |all| - |m|;
    CoversShows(all, m, max, clock, now);
    assert all == all[..d] + m;
    RetainedAdds(all[..d], m, now);
    hide Retained;
    NewestOfTwo(Retained(all[..d], now), Retained(m, now), max);
  }

  /** Reloading later gives exactly the in-memory entries still inside retention, which are the newest
      retained entries of the whole history; and the file always has fewer than twice the limit of lines. */
  lemma {:induction false} ReloadExact(file: seq<Line>, max: nat, start: u64, events: seq<Event>, now: u64)
    requires max >= 1 && Ordered(file, start, events) && Clock(start, events) <= now
    ensures var l := Run(file, max, start, events);
            && Open(l.file, max, now).entries == Retained(l.entries, now)
            && Retained(l.entries, now) == Newest(Retained(History(file, events), now), max)
            && l.lines == |l.file| < 2 * max
  {
    hide Run, History, Parsed, Sorted, Covers, Newest, Retained, Lines, Ordered, Clock;
    AlwaysConsistent(file, max, start, events);
    var l, h, clock := Run(file, max, start, events), History(file, events), Clock(start, events);
    ReloadsExactly(file, max, start, events, now);
    BehindExpired(Parsed(l.file), l.entries, max, clock, now);
    CoversShows(h, l.entries, max, clock, now);
  }

  lemma RunNext(file: seq<Line>, max: nat, start: u64, events: seq<Event>, e: Event)
    ensures Run(file, max, start, events + [e]) == Step(Run(file, max, start, events), e)
  {
    hide Step, Open;
    assert (events + [e])[..|events|] == events;
  }

  lemma RecordSimply(l: Log, e: Entry)
    requires Clip(e) == e && (l.entries != [] ==> Kept(l.entries[0], e.time)) && l.lines + 1 < 2 * l.max
    ensures Recorded(l, e) == Log(Newest(l.entries + [e], l.max), l.max, l.lines + 1, l.file + [Readable(e)])
  {
    assert Popped(l.entries, e.time) == l.entries;
  }

  lemma OpenNothing(max: nat)
    ensures Run([], max, 0, []) == Log([], max, 0, [])
  {
    assert Parsed([]) == [];
    assert Retained([], 0) == [];
  }

  /** Entry `a`, then `b` dated earlier, then `a` again, in a log of two. */
  lemma BackRun(a: Entry, b: Entry)
    requires Clip(a) == a && Clip(b) == b && Kept(a, b.time) && Kept(a, a.time)
    ensures Run([], 2, 0, [Record(a), Record(b), Record(a)])
         == Log([b, a], 2, 3, [Readable(a), Readable(b), Readable(a)])
  {
    hide Run, Recorded, Clip, Kept;
    OpenNothing(2);
    var none: seq<Event> := [];
    RunNext([], 2, 0, none, Record(a));
    RunNext([], 2, 0, none + [Record(a)], Record(b));
    RunNext([], 2, 0, none + [Record(a)] + [Record(b)], Record(a));
    assert none + [Record(a)] + [Record(b)] + [Record(a)] == [Record(a), Record(b), Record(a)];
    RecordSimply(Log([], 2, 0, []), a);
    RecordSimply(Log([a], 2, 1, [Readable(a)]), b);
    RecordSimply(Log([a, b], 2, 2, [Readable(a), Readable(b)]), a);
    var no: seq<Entry> := [];
    assert no + [a] == [a] && [a] + [b] == [a, b] && ([a, b] + [a])[1..] == [b, a];
    var x, y, blank: seq<Line> := Readable(a), Readable(b), [];
    assert blank + [x] == [x] && [x] + [y] == [x, y] && [x, y] + [x] == [x, y, x];
  }

  /** Times that go back can make them differ: after a record dated long before its predecessor, the file
      still offers an entry that memory has pushed out. */
  lemma ClockBackDiffers()
    ensures exists events: seq<Event>, now: u64 ::
              var l := Run([], 2, 0, events);
              Clock(0, events) <= now && Open(l.file, 2, now).entries != Retained(l.entries, now)
  {
    var late: u64 := RETENTION_SECS + 10;
    var a, b := Cleared(late), Cleared(1);
    BackRun(a, b);
    BackReload(a, b, late);
    hide Run, Retained, Open, Clip, Kept;
    var events := [Record(a), Record(b), Record(a)];
    var l := Run([], 2, 0, events);
    assert Clock(0, events) == late;
    assert Open(l.file, 2, late).entries != Retained(l.entries, late);
  }

  lemma OpenEntries(file: seq<Line>, max: nat, now: u64)
    ensures Open(file, max, now).entries == Newest(Retained(Parsed(file), now), max)
  {
    hide Newest, Retained, Parsed, Lines;
  }

  lemma BackReload(a: Entry, b: Entry, now: u64)
    requires Kept(a, now) && !Kept(b, now)
    ensures Open([Readable(a), Readable(b), Readable(a)], 2, now).entries == [a, a] && Retained([b, a], now) == [a]
  {
    hide Parsed, Open, Retained, Kept;
    OpenEntries([Readable(a), Readable(b), Readable(a)], 2, now);
    ParsedThree(a, b, a);
    RetainedThree(a, b, now);
    assert |[a, a]| == 2;
  }

  lemma ParsedThree(a: Entry, b: Entry, c: Entry)
    ensures Parsed([Readable(a), Readable(b), Readable(c)]) == [a, b, c]
  {
    ParsedLines([a, b, c]);
    assert Lines([a, b, c]) == [Readable(a), Readable(b), Readable(c)];
  }

  lemma RetainedOne(e: Entry, now: u64)
    ensures Retained([e], now) == if Kept(e, now) then [e] else []
  {
    var none: seq<Entry> := [];
    RetainedNext(none, e, now);
    assert none + [e] == [e] && none + [] == none;
  }

  lemma RetainedThree(a: Entry, b: Entry, now: u64)
    requires Kept(a, now) && !Kept(b, now)
    ensures Retained([a, b, a], now) == [a, a] && Retained([b, a], now) == [a]
  {
    RetainedOne(a, now);
    RetainedOne(b, now);
    hide Retained, Kept;
    RetainedNext([a], b, now);
    RetainedNext([a] + [b], a, now);
    RetainedNext([b], a, now);
    assert [a] + [b] + [a] == [a, b, a] && [b] + [a] == [b, a];
    assert [a] + [] == [a] && [] + [a] == [a] && [a] + [a] == [a, a];
  }

  // ---------------------------------------------------------------- the object

  lemma NewestNext(w: seq<Entry>, e: Entry, n: nat)
    ensures var m := Newest(w, n) + [e];
            Newest(w + [e], n) == if |m| > n then m[1..] else m
  {
  }

  lemma RetainedNext(es: seq<Entry>, e: Entry, now: u64)
    ensures Retained(es + [e], now) == Retained(es, now) + if Kept(e, now) then [e] else []
  {
    assert (es + [e])[..|es|] == es;
  }

  lemma Unchanged(es: seq<Entry>)
    ensures es + [] == es
  {
  }

  class AuditFile {
    var entries: seq<Entry>
    const max: nat
    var lines: nat
    /** What is on disk, without blank lines. */
    var file: seq<Line>

    ghost function Abs(): Log reads this { Log(entries, max, lines, file) }

    /** Load what is on disk. */
    constructor (onDisk: seq<Line>, limit: nat, now: u64)
      ensures Abs() == Open(onDisk, limit, now)
    {
      var kept: seq<Entry> := [];
      for i := 0 to |onDisk|
        invariant kept == Newest(Retained(Parsed(onDisk[..i]), now), limit)
      {
        hide Newest, Retained, Parsed;
        var l := onDisk[i];
        ParsedNext(onDisk[..i], l);
        assert onDisk[..i] + [l] == onDisk[..i + 1];
        if l.Readable? {
          RetainedNext(Parsed(onDisk[..i]), l.entry, now);
          NewestNext(Retained(Parsed(onDisk[..i]), now), l.entry, limit);
          if l.entry.time >= SatSub(now, RETENTION_SECS) {
            kept := kept + [l.entry];
            if |kept| > limit { kept := kept[1..]; }
          } else {
            Unchanged(Retained(Parsed(onDisk[..i]), now));
          }
        } else {
          Unchanged(Parsed(onDisk[..i]));
        }
      }
      assert onDisk[..|onDisk|] == onDisk;
      entries, max, lines, file := kept, limit, |onDisk|, onDisk;
      if |onDisk| != |kept| {
        file, lines := Lines(kept), |kept|;
      }
    }

    /** Rewrite the file from memory; a failed write leaves it as it was. */
    method Compact(ok: bool)
      modifies `file, `lines
      ensures Abs() == if ok then Compacted(old(Abs())) else old(Abs())
    {
      if ok { file, lines := Lines(entries), |entries|; }
    }

    /** Append an entry; `ok` tells whether the write succeeds. */
    method Append(entry: Entry, ok: bool)
      modifies this
      ensures ok ==> Abs() == Recorded(old(Abs()), entry)
      ensures !ok ==> Abs() == old(Abs()).(entries := Recorded(old(Abs()), entry).entries)
    {
      var e := Clip(entry);
      Trim(e.time);
      entries := entries + [e];
      Shrink();
      hide Newest, Popped, Lines;
      if lines + 1 >= 2 * max {
        Compact(ok);
      } else if ok {
        file, lines := file + [Readable(e)], lines + 1;
      }
    }

    method Trim(now: u64)
      modifies `entries
      ensures entries == Popped(old(entries), now)
    {
      while entries != [] && entries[0].time < SatSub(now, RETENTION_SECS)
        invariant Popped(entries, now) == Popped(old(entries), now)
        decreases |entries|
      {
        entries := entries[1..];
      }
    }

    method Shrink()
      modifies `entries
      ensures entries == Newest(old(entries), max)
    {
      while |entries| > max
        invariant Newest(entries, max) == Newest(old(entries), max)
        decreases |entries|
      {
        entries := entries[1..];
      }
    }

    /** Delete every entry and record that it happened. Nothing changes if the file cannot be removed. */
    method Wipe(now: u64, removed: bool) returns (ok: bool)
      modifies this
      ensures ok == removed
      ensures Abs() == if removed then Step(old(Abs()), Clear(now)) else old(Abs())
    {
      if !removed { return false; }
      entries, lines, file := [], 0, [];
      Append(Cleared(now), true);
      return true;
    }
  }
}
