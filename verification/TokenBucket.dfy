/** The token bucket and the control loop it guards (sp-engine/src/session.rs), over the reals. */
module TokenBucket {
  datatype Bucket = Bucket(tokens: real, rate: real, burst: real, last: real)

  function New(rate: real, burst: real, now: real): Bucket { Bucket(burst, rate, burst, now) }

  function Least(a: real, b: real): real { if a <= b then a else b }

  /** Tokens earned from `a` to `b`. */
  function Earned(rate: real, a: real, b: real): real { rate * (b - a) }

  function Elapsed(last: real, now: real): real { if now < last then 0.0 else now - last }

  /** Tokens in the bucket at `now`. */
  function Filled(b: Bucket, now: real): real {
    Least(b.tokens + Elapsed(b.last, now) * b.rate, b.burst)
  }

  function Allow(b: Bucket, now: real): (Bucket, bool) {
    var tokens := Filled(b, now);
    if tokens >= 1.0 then (b.(tokens := tokens - 1.0, last := now), true)
    else (b.(tokens := tokens, last := now), false)
  }

  /** A call dated before the last one earns nothing, and takes the clock back with it. */
  lemma ClockBackEarnsNothing(b: Bucket, now: real)
    requires now <= b.last && b.tokens <= b.burst
    ensures Allow(b, now).1 <==> b.tokens >= 1.0
    ensures Allow(b, now).0 == b.(tokens := if b.tokens >= 1.0 then b.tokens - 1.0 else b.tokens, last := now)
  {
  }

  // ---------------------------------------------------------------- runs

  /** The bucket and the answers after calls at `times`. */
  function Run(rate: real, burst: real, start: real, times: seq<real>): (r: (Bucket, seq<bool>))
    ensures |r.1| == |times| && r.0.rate == rate && r.0.burst == burst
  {
    if times == [] then (New(rate, burst, start), []) else
    var n := |times| - 1;
    var (b, answers) := Run(rate, burst, start, times[..n]);
    var (b1, ok) := Allow(b, times[n]);
    (b1, answers + [ok])
  }

  ghost predicate Ordered(start: real, times: seq<real>) {
    && (forall i :: 0 <= i < |times| ==> start <= times[i])
    && forall i, j :: 0 <= i < j < |times| ==> times[i] <= times[j]
  }

  /** Calls allowed from index `k` on. */
  function Used(answers: seq<bool>, k: nat): nat {
    if |answers| <= k then 0
    else Used(answers[..|answers| - 1], k) + if answers[|answers| - 1] then 1 else 0
  }

  lemma UsedNext(answers: seq<bool>, ok: bool, k: nat)
    requires k <= |answers|
    ensures Used(answers + [ok], k) == Used(answers, k) + if ok then 1 else 0
  {
    assert (answers + [ok])[..|answers|] == answers;
  }

  lemma EarnedAdds(rate: real, a: real, b: real, c: real)
    requires rate >= 0.0
    ensures Earned(rate, a, b) + Earned(rate, b, c) == Earned(rate, a, c)
    ensures b <= c ==> Earned(rate, b, c) >= 0.0
    ensures Earned(rate, b, b) == 0.0
    ensures b <= c ==> Elapsed(b, c) * rate == Earned(rate, b, c)
  {
  }

  /** What calls from `k` on could have left at `now`: the burst, plus what was earned since call `k`, minus
      what was used since. */
  ghost function Left(rate: real, burst: real, times: seq<real>, answers: seq<bool>, k: nat, now: real): real
    requires k < |times|
  {
    burst + Earned(rate, times[k], now) - Used(answers, k) as real
  }

  /** The tokens are the least any earlier call could have left. */
  ghost predicate IsLeast(tokens: real, rate: real, burst: real, times: seq<real>, answers: seq<bool>, now: real) {
    && (forall k :: 0 <= k < |times| ==> tokens <= Left(rate, burst, times, answers, k, now))
    && exists k :: 0 <= k < |times| && tokens == Left(rate, burst, times, answers, k, now)
  }

  lemma LeftLater(rate: real, burst: real, times: seq<real>, answers: seq<bool>, k: nat, last: real, now: real)
    requires k < |times| && rate >= 0.0
    ensures Left(rate, burst, times, answers, k, now) == Left(rate, burst, times, answers, k, last) + Earned(rate, last, now)
  {
    hide Earned;
    EarnedAdds(rate, times[k], last, now);
  }

  lemma LeftNext(rate: real, burst: real, times: seq<real>, t: real, answers: seq<bool>, ok: bool, k: nat, now: real)
    requires k < |times| == |answers|
    ensures Left(rate, burst, times + [t], answers + [ok], k, now)
         == Left(rate, burst, times, answers, k, now) - if ok then 1.0 else 0.0
  {
    hide Earned;
    UsedNext(answers, ok, k);
  }

  /** Before the decision the bucket holds the least of the burst and what earlier calls left. */
  lemma FilledIsLeast(b: Bucket, times: seq<real>, answers: seq<bool>, now: real)
    requires b.rate >= 0.0 && |times| == |answers| && b.last <= now
    requires if times == [] then b.tokens == b.burst else IsLeast(b.tokens, b.rate, b.burst, times, answers, b.last)
    ensures Filled(b, now) <= b.burst
    ensures forall k :: 0 <= k < |times| ==> Filled(b, now) <= Left(b.rate, b.burst, times, answers, k, now)
    ensures Filled(b, now) == b.burst || exists k :: 0 <= k < |times| && Filled(b, now) == Left(b.rate, b.burst, times, answers, k, now)
  {
    EarnedAdds(b.rate, b.last, b.last, now);
    hide Earned, Left, Elapsed;
    var grown := b.tokens + Earned(b.rate, b.last, now);
    assert Filled(b, now) == Least(grown, b.burst);
    forall k | 0 <= k < |times| ensures grown <= Left(b.rate, b.burst, times, answers, k, now) {
      LeftLater(b.rate, b.burst, times, answers, k, b.last, now);
    }
    if times != [] {
      var k :| 0 <= k < |times| && b.tokens == Left(b.rate, b.burst, times, answers, k, b.last);
      LeftLater(b.rate, b.burst, times, answers, k, b.last, now);
      assert grown == Left(b.rate, b.burst, times, answers, k, now);
    }
  }

  /** After the decision the same holds with the new call included. */
  lemma AllowIsLeast(b: Bucket, times: seq<real>, answers: seq<bool>, now: real)
    requires b.rate >= 0.0 && |times| == |answers| && b.last <= now
    requires if times == [] then b.tokens == b.burst else IsLeast(b.tokens, b.rate, b.burst, times, answers, b.last)
    ensures var (b1, ok) := Allow(b, now);
            b1.last == now && IsLeast(b1.tokens, b.rate, b.burst, times + [now], answers + [ok], now)
  {
    hide Filled, Left, Earned, IsLeast;
    FilledIsLeast(b, times, answers, now);
    LeastAfter(Filled(b, now), b.rate, b.burst, times, answers, now, Filled(b, now) >= 1.0);
  }

  lemma LeastAfter(f: real, rate: real, burst: real, times: seq<real>, answers: seq<bool>, now: real, ok: bool)
    requires |times| == |answers| && f <= burst
    requires forall k :: 0 <= k < |times| ==> f <= Left(rate, burst, times, answers, k, now)
    requires f == burst || exists k :: 0 <= k < |times| && f == Left(rate, burst, times, answers, k, now)
    ensures IsLeast(f - if ok then 1.0 else 0.0, rate, burst, times + [now], answers + [ok], now)
  {
    hide Left, Earned;
    NewCallLeft(rate, burst, times, now, answers, ok);
    var n, ts, xs, after := |times|, times + [now], answers + [ok], f - if ok then 1.0 else 0.0;
    forall k | 0 <= k < |ts| ensures after <= Left(rate, burst, ts, xs, k, now) {
      if k < n { LeftNext(rate, burst, times, now, answers, ok, k, now); }
    }
    if f == burst {
      assert after == Left(rate, burst, ts, xs, n, now);
    } else {
      var k :| 0 <= k < n && f == Left(rate, burst, times, answers, k, now);
      LeftNext(rate, burst, times, now, answers, ok, k, now);
      assert after == Left(rate, burst, ts, xs, k, now);
    }
  }

  lemma NewCallLeft(rate: real, burst: real, times: seq<real>, t: real, answers: seq<bool>, ok: bool)
    requires |times| == |answers|
    ensures Left(rate, burst, times + [t], answers + [ok], |times|, t) == burst - if ok then 1.0 else 0.0
  {
    UsedNext(answers, ok, |times|);
  }

  lemma {:induction false} RunIsLeast(rate: real, burst: real, start: real, times: seq<real>)
    requires rate >= 0.0 && Ordered(start, times)
    ensures var (b, answers) := Run(rate, burst, start, times);
            && b.last == (if times == [] then start else times[|times| - 1])
            && if times == [] then b.tokens == burst else IsLeast(b.tokens, rate, burst, times, answers, b.last)
  {
    if times != [] {
      hide Allow, IsLeast;
      var n := |times| - 1;
      RunIsLeast(rate, burst, start, times[..n]);
      var (b, answers) := Run(rate, burst, start, times[..n]);
      AllowIsLeast(b, times[..n], answers, times[n]);
      assert times[..n] + [times[n]] == times;
    }
  }

  /** Whether a call at `now` may go through, from the history alone: from every earlier call on, the calls
      allowed since, this one included, fit in the burst plus what was earned since. */
  ghost predicate Affordable(rate: real, burst: real, times: seq<real>, answers: seq<bool>, now: real)
    requires |times| == |answers|
  {
    && burst >= 1.0
    && forall k :: 0 <= k < |times| ==> Used(answers, k) as real + 1.0 <= burst + Earned(rate, times[k], now)
  }

  /** The bucket allows exactly the calls the history affords. */
  lemma AllowExact(rate: real, burst: real, start: real, times: seq<real>, now: real)
    requires rate >= 0.0 && Ordered(start, times + [now])
    ensures var (b, answers) := Run(rate, burst, start, times);
            Allow(b, now).1 <==> Affordable(rate, burst, times, answers, now)
  {
    var (b, answers) := Run(rate, burst, start, times);
    var all := times + [now];
    assert all[|times|] == now;
    forall i | 0 <= i < |times| ensures times[i] <= now && times[i] == all[i] {
      assert all[i] <= all[|times|];
    }
    RunIsLeast(rate, burst, start, times);
    FilledIsLeast(b, times, answers, now);
    hide Filled, Run, Earned;
    if Allow(b, now).1 {
      forall k | 0 <= k < |times| ensures Used(answers, k) as real + 1.0 <= burst + Earned(rate, times[k], now) {
        assert Filled(b, now) <= Left(rate, burst, times, answers, k, now);
      }
    }
  }

  /** The calls allowed from call `i` to the last one are at most the burst plus the rate times the time
      between them. */
  lemma {:induction false} IntervalBound(rate: real, burst: real, start: real, times: seq<real>, i: nat)
    requires rate >= 0.0 && burst >= 0.0 && Ordered(start, times) && i < |times|
    ensures Used(Run(rate, burst, start, times).1, i) as real <= burst + Earned(rate, times[i], times[|times| - 1])
  {
    var n := |times| - 1;
    var g, now := times[..n], times[n];
    var (b, answers) := Run(rate, burst, start, g);
    assert g + [now] == times;
    AllowExact(rate, burst, start, g, now);
    UsedNext(answers, Allow(b, now).1, i);
    hide Allow, Run, Earned;
    EarnedAdds(rate, times[i], now, now);
    if i < n {
      IntervalBound(rate, burst, start, g, i);
      EarnedAdds(rate, times[i], times[n - 1], now);
    }
  }

  class RateLimit {
    var tokens: real
    const rate: real
    const burst: real
    var last: real

    ghost function Abs(): Bucket reads this { Bucket(tokens, rate, burst, last) }

    constructor (r: real, b: real, now: real)
      ensures Abs() == New(r, b, now)
    {
      tokens, rate, burst, last := b, r, b, now;
    }

    method AllowAt(now: real) returns (ok: bool)
      modifies this
      ensures (Abs(), ok) == Allow(old(Abs()), now)
    {
      var elapsed := if now < last then 0.0 else now - last;
      last := now;
      var filled := tokens + elapsed * rate;
      tokens := if filled <= burst then filled else burst;
      ok := tokens >= 1.0;
      if ok { tokens := tokens - 1.0; }
    }
  }
}

/** The part of a session's loop that passes control messages on to the actor (sp-engine/src/session.rs). */
module ControlLoop {
  import opened TokenBucket

  const CONTROL_RATE := 100.0
  const CONTROL_BURST := 400.0
  const MAX_DROPPED_CONTROL: nat := 1000

  /** What the loop sees: a control message read at some time, a goodbye, or anything else that ends it. */
  datatype Input = Message(id: nat, at: real) | Goodbye | Stop

  datatype Event = Established | Control(id: nat, at: real) | Closed

  datatype Session = Session(bucket: Bucket, dropped: nat, open: bool, sent: seq<Event>)

  function Begin(now: real): Session { Session(New(CONTROL_RATE, CONTROL_BURST, now), 0, true, []) }

  function Step(s: Session, i: Input): Session {
    if !s.open then s else
    match i
    case Message(id, at) =>
      var (b, ok) := Allow(s.bucket, at);
      if ok then s.(bucket := b, sent := s.sent + [Control(id, at)])
      else s.(bucket := b, dropped := s.dropped + 1, open := s.dropped + 1 <= MAX_DROPPED_CONTROL)
    case _ => s.(open := false)
  }

  function Run(start: real, inputs: seq<Input>): Session {
    if inputs == [] then Begin(start) else Step(Run(start, inputs[..|inputs| - 1]), inputs[|inputs| - 1])
  }

  /** Everything the actor is told, in order. */
  function Events(s: Session): seq<Event> { [Established] + s.sent + if s.open then [] else [Closed] }

  /** Messages are read in time order. */
  ghost predicate Ordered(start: real, inputs: seq<Input>) {
    && (forall i :: 0 <= i < |inputs| && inputs[i].Message? ==> start <= inputs[i].at)
    && forall i, j :: 0 <= i < j < |inputs| && inputs[i].Message? && inputs[j].Message? ==> inputs[i].at <= inputs[j].at
  }

  ghost predicate Bounded(sent: seq<Event>) {
    && (forall k :: 0 <= k < |sent| ==> sent[k].Control?)
    && forall i, j :: 0 <= i <= j < |sent| ==>
         (j - i + 1) as real <= 400.0 + 100.0 * (sent[j].at - sent[i].at)
  }

  /** What is left in the bucket accounts for every message passed on. */
  ghost predicate Accounts(b: Bucket, sent: seq<Event>) {
    && b.rate == CONTROL_RATE && b.burst == CONTROL_BURST && b.tokens <= CONTROL_BURST
    && forall k :: 0 <= k < |sent| && sent[k].Control? ==>
         b.tokens <= CONTROL_BURST + CONTROL_RATE * (b.last - sent[k].at) - (|sent| - k) as real
  }

  lemma AllowAccounts(b: Bucket, sent: seq<Event>, id: nat, now: real)
    requires Accounts(b, sent) && Bounded(sent) && b.last <= now
    ensures var (b1, ok) := Allow(b, now);
            var more := if ok then sent + [Control(id, now)] else sent;
            b1.last == now && Accounts(b1, more) && Bounded(more)
  {
    var filled := Filled(b, now);
    assert filled <= b.tokens + CONTROL_RATE * (now - b.last);
    var more := sent + [Control(id, now)];
    forall k | 0 <= k < |sent|
      ensures filled <= CONTROL_BURST + CONTROL_RATE * (now - sent[k].at) - (|sent| - k) as real
    {
    }
    if filled >= 1.0 {
      forall i, j | 0 <= i <= j < |more|
        ensures (j - i + 1) as real <= CONTROL_BURST + CONTROL_RATE * (more[j].at - more[i].at)
      {
        if j < |sent| { assert more[j] == sent[j] && more[i] == sent[i]; } else if i < |sent| { assert more[i] == sent[i]; }
      }
    }
  }

  /** When the last message was read. */
  ghost function Latest(start: real, inputs: seq<Input>): real {
    if inputs == [] then start
    else if inputs[|inputs| - 1].Message? then inputs[|inputs| - 1].at
    else Latest(start, inputs[..|inputs| - 1])
  }

  lemma {:induction false} LatestBefore(start: real, inputs: seq<Input>, t: real)
    requires start <= t && forall i :: 0 <= i < |inputs| && inputs[i].Message? ==> inputs[i].at <= t
    ensures Latest(start, inputs) <= t
  {
    if inputs != [] && !inputs[|inputs| - 1].Message? { LatestBefore(start, inputs[..|inputs| - 1], t); }
  }

  lemma OrderedPrefix(start: real, inputs: seq<Input>)
    requires Ordered(start, inputs) && inputs != []
    ensures var g, e := inputs[..|inputs| - 1], inputs[|inputs| - 1];
            Ordered(start, g) && (e.Message? ==> Latest(start, g) <= e.at)
  {
    var g, e := inputs[..|inputs| - 1], inputs[|inputs| - 1];
    if e.Message? { LatestBefore(start, g, e.at); }
  }

  lemma {:induction false} RunAccounts(start: real, inputs: seq<Input>)
    requires Ordered(start, inputs)
    ensures var s := Run(start, inputs);
            && Accounts(s.bucket, s.sent) && Bounded(s.sent) && s.bucket.last <= Latest(start, inputs)
            && (s.open ==> s.dropped <= MAX_DROPPED_CONTROL) && s.dropped <= MAX_DROPPED_CONTROL + 1
  {
    if inputs != [] {
      hide Allow, Accounts, Bounded, Ordered;
      var g, e := inputs[..|inputs| - 1], inputs[|inputs| - 1];
      OrderedPrefix(start, inputs);
      RunAccounts(start, g);
      var s := Run(start, g);
      if s.open && e.Message? { AllowAccounts(s.bucket, s.sent, e.id, e.at); }
    }
  }

  /** The actor hears Established first, then control messages only, at most one burst plus the rate over
      any stretch of them, then Closed once at the end; a flood ends the session at its 1001st dropped
      message. */
  lemma {:induction false} FloodContained(start: real, inputs: seq<Input>)
    requires Ordered(start, inputs)
    ensures var s := Run(start, inputs);
            && Bounded(s.sent)
            && (forall k :: 0 <= k < |Events(s)| ==>
                  && (Events(s)[k].Established? <==> k == 0)
                  && (Events(s)[k].Closed? <==> !s.open && k == |Events(s)| - 1))
            && s.dropped <= 1001 && (s.dropped == 1001 ==> !s.open)
  {
    hide Run;
    RunAccounts(start, inputs);
  }

  // ---------------------------------------------------------------- which messages pass

  /** When the messages were read. */
  function Times(inputs: seq<Input>): seq<real> {
    if inputs == [] then [] else
    var i := inputs[|inputs| - 1];
    Times(inputs[..|inputs| - 1]) + if i.Message? then [i.at] else []
  }

  /** The messages with a positive answer, in order. */
  function Passed(inputs: seq<Input>, answers: seq<bool>): seq<Event>
    requires |inputs| == |answers|
  {
    if inputs == [] then [] else
    var n := |inputs| - 1;
    Passed(inputs[..n], answers[..n]) + if inputs[n].Message? && answers[n] then [Control(inputs[n].id, inputs[n].at)] else []
  }

  /** Negative answers. */
  function Refusals(answers: seq<bool>): nat {
    if answers == [] then 0 else Refusals(answers[..|answers| - 1]) + if answers[|answers| - 1] then 0 else 1
  }

  ghost predicate OnlyMessages(inputs: seq<Input>) { forall i :: 0 <= i < |inputs| ==> inputs[i].Message? }

  lemma {:induction false} TimesOfMessages(inputs: seq<Input>)
    requires OnlyMessages(inputs)
    ensures |Times(inputs)| == |inputs|
  {
    if inputs != [] { TimesOfMessages(inputs[..|inputs| - 1]); }
  }

  /** The answers of a bucket of 400 messages that fills at 100 a second. */
  ghost function Answers(start: real, inputs: seq<Input>): (r: seq<bool>)
    ensures |r| == |Times(inputs)|
  {
    TokenBucket.Run(100.0, 400.0, start, Times(inputs)).1
  }

  /** As long as a session is open it has passed on exactly the messages its bucket allowed; and it is open exactly
      while only messages came and at most 1000 were refused. */
  lemma {:induction false} PassesExactly(start: real, inputs: seq<Input>)
    ensures var s := Run(start, inputs);
            && (s.open <==> OnlyMessages(inputs) && Refusals(Answers(start, inputs)) <= 1000)
            && (s.open ==>
                  && |Times(inputs)| == |inputs|
                  && s.sent == Passed(inputs, Answers(start, inputs)) && s.dropped == Refusals(Answers(start, inputs))
                  && s.bucket == TokenBucket.Run(100.0, 400.0, start, Times(inputs)).0)
  {
    hide Allow;
    if inputs != [] {
      var n := |inputs| - 1;
      var g, e := inputs[..n], inputs[n];
      PassesExactly(start, g);
      assert OnlyMessages(inputs) <==> OnlyMessages(g) && e.Message?;
      if OnlyMessages(inputs) {
        TimesOfMessages(g);
        var times := Times(inputs);
        assert times[..n] == Times(g) && times[n] == e.at;
        var answers := Answers(start, inputs);
        assert answers[..n] == Answers(start, g);
      }
    } else {
      assert Times(inputs) == [];
    }
  }

  /** The input that closed a session: not a message, or the one refused after 1000 others. */
  ghost predicate ClosedBy(start: real, inputs: seq<Input>, n: nat) {
    && n < |inputs| && Run(start, inputs[..n]).open
    && (!inputs[n].Message? || (Run(start, inputs[..n]).dropped == 1000 && Run(start, inputs[..n + 1]).dropped == 1001))
  }

  lemma ClosesNow(start: real, inputs: seq<Input>)
    requires inputs != [] && Run(start, inputs[..|inputs| - 1]).open && !Run(start, inputs).open
    ensures ClosedBy(start, inputs, |inputs| - 1) && Run(start, inputs).sent == Run(start, inputs[..|inputs| - 1]).sent
  {
    hide Allow;
    PassesExactly(start, inputs[..|inputs| - 1]);
    hide Answers, Passed, Refusals, Times;
    assert inputs[..|inputs| - 1 + 1] == inputs;
  }

  lemma ClosedBefore(start: real, inputs: seq<Input>, n: nat)
    requires inputs != [] && ClosedBy(start, inputs[..|inputs| - 1], n)
    ensures ClosedBy(start, inputs, n) && inputs[..|inputs| - 1][..n] == inputs[..n]
  {
    hide Run;
    var g := inputs[..|inputs| - 1];
    assert g[..n] == inputs[..n] && g[..n + 1] == inputs[..n + 1];
  }

  /** A session that has closed heard what was sent until then: up to the first thing that was not a message, or the
      1001st refusal. */
  lemma {:induction false} ClosesExactly(start: real, inputs: seq<Input>) returns (n: nat)
    requires !Run(start, inputs).open
    ensures ClosedBy(start, inputs, n) && Run(start, inputs).sent == Run(start, inputs[..n]).sent
  {
    hide ClosedBy, Step;
    n := |inputs| - 1;
    if Run(start, inputs[..n]).open {
      ClosesNow(start, inputs);
    } else {
      n := ClosesExactly(start, inputs[..n]);
      ClosedBefore(start, inputs, n);
      StaysClosed(start, inputs);
    }
  }

  lemma StaysClosed(start: real, inputs: seq<Input>)
    requires inputs != [] && !Run(start, inputs[..|inputs| - 1]).open
    ensures Run(start, inputs) == Run(start, inputs[..|inputs| - 1])
  {
    hide Allow;
  }

  /** The loop. */
  method Serve(start: real, inputs: seq<Input>) returns (events: seq<Event>)
    ensures events == Events(Run(start, inputs))
  {
    hide Allow;
    var limit := new RateLimit(CONTROL_RATE, CONTROL_BURST, start);
    var dropped, open, sent := 0, true, [];
    var n := 0;
    while n < |inputs| && open
      invariant n <= |inputs|
      invariant Run(start, inputs[..n]) == Session(limit.Abs(), dropped, open, sent)
    {
      assert inputs[..n + 1][..n] == inputs[..n];
      match inputs[n] {
        case Message(id, at) =>
          var ok := limit.AllowAt(at);
          if ok {
            sent := sent + [Control(id, at)];
          } else {
            dropped := dropped + 1;
            if dropped > MAX_DROPPED_CONTROL { open := false; }
          }
        case _ => open := false;
      }
      n := n + 1;
    }
    if !open { ClosedStays(start, inputs, n); } else { assert inputs[..n] == inputs; }
    events := [Established] + sent + if open then [] else [Closed];
  }

  lemma {:induction false} ClosedStays(start: real, inputs: seq<Input>, n: nat)
    requires n <= |inputs| && !Run(start, inputs[..n]).open
    ensures Run(start, inputs) == Run(start, inputs[..n])
    decreases |inputs|
  {
    if n < |inputs| {
      var g := inputs[..|inputs| - 1];
      assert g[..n] == inputs[..n];
      ClosedStays(start, g, n);
    } else {
      assert inputs[..n] == inputs;
    }
  }
}
