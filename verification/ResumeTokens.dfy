/** Single-use session resume tokens (sp-engine/src/resume.rs) against the full history of calls. */
module ResumeTokens {
  import opened Common

  const TOKEN_LEN: nat := 32
  const SECOND: nat := 1_000_000_000
  const TOKEN_LIFETIME: nat := 600 * SECOND
  const RESUME_GRANT: nat := 30 * SECOND
  const MAX_TOKENS: nat := 64

  type Key = nat
  type DeviceId = nat
  type Token = seq<byte>
  /** Nanoseconds on the monotonic clock. */
  type Instant = nat

  datatype Issued = Issued(key: Key, expires: Instant)
  datatype Held = Held(token: Token, expires: Instant)
  datatype State = State(issued: map<Token, Issued>, held: map<DeviceId, Held>, grants: map<DeviceId, Instant>)

  /** A call. `token` of an issue is the random draw; `victim` the entry dropped to make room. */
  datatype Event =
    | Issue(key: Key, token: Token, now: Instant, victim: Option<Token>)
    | Redeem(key: Key, token: Token, now: Instant)
    | Hold(peer: DeviceId, token: Token, lifetimeSecs: nat, now: Instant)
    | Forget(peer: DeviceId)
    | Prune(now: Instant)

  // ---------------------------------------------------------------- what each call does

  function Init(): State { State(map[], map[], map[]) }

  /** The entries an issue to `key` leaves: unexpired ones of other keys. */
  function Others(m: map<Token, Issued>, key: Key, now: Instant): map<Token, Issued> {
    map t | t in m && now < m[t].expires && m[t].key != key :: m[t]
  }

  function Without(m: map<Token, Issued>, victim: Option<Token>): map<Token, Issued> {
    if victim.None? then m else m - {victim.value}
  }

  predicate Accepts(s: State, key: Key, token: Token, now: Instant) {
    |token| == TOKEN_LEN && token in s.issued && s.issued[token].key == key && now < s.issued[token].expires
  }

  function HeldFor(s: State, peer: DeviceId, now: Instant): Option<Token> {
    if peer in s.held && now < s.held[peer].expires then Some(s.held[peer].token) else None
  }

  predicate ResumedRecently(s: State, peer: DeviceId, now: Instant) {
    peer in s.grants && now < s.grants[peer]
  }

  function IssuedAfter(idOf: Key -> DeviceId, m: map<Token, Issued>, e: Event): map<Token, Issued> {
    match e
    case Issue(key, token, now, victim) => Without(Others(m, key, now), victim)[token := Issued(key, now + TOKEN_LIFETIME)]
    case Redeem(_, token, _) => if |token| == TOKEN_LEN then m - {token} else m
    case Hold(_, _, _, _) => m
    case Forget(peer) => map t | t in m && idOf(m[t].key) != peer :: m[t]
    case Prune(now) => map t | t in m && now < m[t].expires :: m[t]
  }

  function Unexpired(m: map<DeviceId, Held>, now: Instant): map<DeviceId, Held> {
    map p | p in m && now < m[p].expires :: m[p]
  }

  function HeldAfter(m: map<DeviceId, Held>, e: Event): map<DeviceId, Held> {
    match e
    case Issue(_, _, now, _) => Unexpired(m, now)
    case Redeem(_, _, _) => m
    case Hold(peer, token, secs, now) =>
      if |token| != TOKEN_LEN || (peer !in m && |m| >= MAX_TOKENS) then m
      else m[peer := Held(token, now + Min(secs * SECOND, TOKEN_LIFETIME))]
    case Forget(peer) => m - {peer}
    case Prune(now) => Unexpired(m, now)
  }

  function Current(m: map<DeviceId, Instant>, now: Instant): map<DeviceId, Instant> {
    map p | p in m && now < m[p] :: m[p]
  }

  /** `accepted` says whether a redeem succeeded. */
  function GrantsAfter(idOf: Key -> DeviceId, m: map<DeviceId, Instant>, e: Event, accepted: bool): map<DeviceId, Instant> {
    match e
    case Issue(_, _, now, _) => Current(m, now)
    case Redeem(key, _, now) => if accepted then m[idOf(key) := now + RESUME_GRANT] else m
    case Hold(_, _, _, _) => m
    case Forget(peer) => m - {peer}
    case Prune(now) => Current(m, now)
  }

  function Step(idOf: Key -> DeviceId, s: State, e: Event): State {
    State(IssuedAfter(idOf, s.issued, e), HeldAfter(s.held, e),
          GrantsAfter(idOf, s.grants, e, e.Redeem? && Accepts(s, e.key, e.token, e.now)))
  }

  /** The victim is an entry closest to expiry, and there is one exactly when the table is full. */
  ghost predicate Evicts(m: map<Token, Issued>, victim: Option<Token>) {
    if |m| < MAX_TOKENS then victim == None
    else victim.Some? && victim.value in m && forall t :: t in m ==> m[victim.value].expires <= m[t].expires
  }

  // ---------------------------------------------------------------- runs

  function Run(idOf: Key -> DeviceId, h: seq<Event>): State {
    if h == [] then Init() else Step(idOf, Run(idOf, h[..|h| - 1]), h[|h| - 1])
  }

  function Time(e: Event): Option<Instant> { if e.Forget? then None else Some(e.now) }

  /** The latest time seen. */
  function Clock(h: seq<Event>): Instant {
    if h == [] then 0 else
    match Time(h[|h| - 1]) case Some(t) => t case None => Clock(h[..|h| - 1])
  }

  ghost predicate Drawn(h: seq<Event>, t: Token) {
    exists i :: 0 <= i < |h| && h[i].Issue? && h[i].token == t
  }

  /** Next is possible: time does not go back, tokens are fresh 32-byte draws, evictions are the table's. */
  ghost predicate Possible(idOf: Key -> DeviceId, h: seq<Event>, e: Event) {
    && (Time(e).Some? ==> Clock(h) <= Time(e).value)
    && (e.Issue? ==> |e.token| == TOKEN_LEN && !Drawn(h, e.token)
                     && Evicts(Others(Run(idOf, h).issued, e.key, e.now), e.victim))
  }

  ghost predicate Legal(idOf: Key -> DeviceId, h: seq<Event>) {
    h != [] ==> Legal(idOf, h[..|h| - 1]) && Possible(idOf, h[..|h| - 1], h[|h| - 1])
  }

  /** The last call of a run. */
  lemma Unfold(idOf: Key -> DeviceId, h: seq<Event>) returns (g: seq<Event>, e: Event)
    requires h != [] && Legal(idOf, h)
    ensures h == g + [e] && |g| < |h| && Legal(idOf, g) && Possible(idOf, g, e)
    ensures Run(idOf, h) == Step(idOf, Run(idOf, g), e)
    ensures Clock(g) <= Clock(h) && (Time(e).Some? ==> Clock(h) == Time(e).value)
  {
    g, e := h[..|h| - 1], h[|h| - 1];
  }

  // ---------------------------------------------------------------- the history's answer

  /** `e` ends the life of token `t` issued to `key`. */
  predicate Kills(idOf: Key -> DeviceId, e: Event, key: Key, t: Token) {
    match e
    case Issue(k, _, _, victim) => k == key || victim == Some(t)
    case Redeem(_, token, _) => token == t
    case Forget(peer) => idOf(key) == peer
    case _ => false
  }

  ghost predicate LiveFrom(idOf: Key -> DeviceId, h: seq<Event>, i: nat, key: Key, t: Token, now: Instant) {
    && i < |h| && h[i].Issue? && h[i].key == key && h[i].token == t && now < h[i].now + 600 * SECOND
    && forall j :: i < j < |h| ==> !Kills(idOf, h[j], key, t)
  }

  /** `t` was issued to `key` less than ten minutes before `now`, and since then `key` got no newer token,
      nobody presented `t`, the peer was not forgotten and `t` was not evicted. */
  ghost predicate Live(idOf: Key -> DeviceId, h: seq<Event>, key: Key, t: Token, now: Instant) {
    exists i :: LiveFrom(idOf, h, i, key, t, now)
  }

  ghost predicate Starts(e: Event, key: Key, t: Token, now: Instant) {
    e.Issue? && e.key == key && e.token == t && now < e.now + TOKEN_LIFETIME
  }

  lemma LiveNext(idOf: Key -> DeviceId, h: seq<Event>, e: Event, key: Key, t: Token, now: Instant)
    ensures Live(idOf, h + [e], key, t, now) <==>
            (Live(idOf, h, key, t, now) && !Kills(idOf, e, key, t)) || Starts(e, key, t, now)
  {
    hide Kills;
    var g, n := h + [e], |h|;
    if Starts(e, key, t, now) { assert LiveFrom(idOf, g, n, key, t, now); }
    if i :| LiveFrom(idOf, h, i, key, t, now) && !Kills(idOf, e, key, t) { assert LiveFrom(idOf, g, i, key, t, now); }
    if i: nat :| LiveFrom(idOf, g, i, key, t, now) && i < n {
      assert g[n] == e;
      assert forall j :: i < j < n ==> h[j] == g[j];
      assert LiveFrom(idOf, h, i, key, t, now);
    }
  }

  /** What is in the table, as far as `now` can tell. */
  predicate InTable(m: map<Token, Issued>, key: Key, t: Token, now: Instant) {
    t in m && m[t].key == key && now < m[t].expires
  }

  lemma TableNext(idOf: Key -> DeviceId, m: map<Token, Issued>, e: Event, key: Key, t: Token, now: Instant)
    requires Time(e).Some? ==> Time(e).value <= now
    requires e.Issue? ==> e.token !in m
    requires forall u :: u in m ==> |u| == TOKEN_LEN
    ensures InTable(IssuedAfter(idOf, m, e), key, t, now) <==>
            (InTable(m, key, t, now) && !Kills(idOf, e, key, t)) || Starts(e, key, t, now)
  {
  }

  /** Every entry was drawn, so has the right length. */
  ghost predicate FromHistory(h: seq<Event>, m: map<Token, Issued>) {
    forall t :: t in m ==> Drawn(h, t) && |t| == TOKEN_LEN
  }

  lemma DrawnNext(h: seq<Event>, e: Event, t: Token)
    ensures Drawn(h, t) ==> Drawn(h + [e], t)
    ensures e.Issue? ==> Drawn(h + [e], e.token)
  {
    var g := h + [e];
    if i :| 0 <= i < |h| && h[i].Issue? && h[i].token == t { assert g[i] == h[i]; }
    assert g[|h|] == e;
  }

  lemma StepAdds(idOf: Key -> DeviceId, m: map<Token, Issued>, e: Event, t: Token)
    requires t in IssuedAfter(idOf, m, e)
    ensures t in m || (e.Issue? && t == e.token)
  {
  }

  lemma {:induction false} EntryDrawn(idOf: Key -> DeviceId, h: seq<Event>, t: Token)
    requires Legal(idOf, h) && t in Run(idOf, h).issued
    ensures Drawn(h, t) && |t| == TOKEN_LEN
  {
    if h != [] {
      hide Drawn, IssuedAfter, HeldAfter, GrantsAfter, Evicts, Clock, Run, Legal;
      var g, e := Unfold(idOf, h);
      StepAdds(idOf, Run(idOf, g).issued, e, t);
      if t in Run(idOf, g).issued { EntryDrawn(idOf, g, t); }
      DrawnNext(g, e, t);
    }
  }

  lemma AlwaysFromHistory(idOf: Key -> DeviceId, h: seq<Event>)
    requires Legal(idOf, h)
    ensures FromHistory(h, Run(idOf, h).issued)
  {
    forall t | t in Run(idOf, h).issued ensures Drawn(h, t) && |t| == TOKEN_LEN { EntryDrawn(idOf, h, t); }
  }

  /** A fresh draw is not in the table, and what is in the table has the right length. */
  lemma FreshDraw(idOf: Key -> DeviceId, h: seq<Event>, e: Event)
    requires Legal(idOf, h) && Possible(idOf, h, e)
    ensures e.Issue? ==> e.token !in Run(idOf, h).issued
    ensures forall t :: t in Run(idOf, h).issued ==> |t| == TOKEN_LEN
  {
    hide Drawn, Run, Evicts;
    AlwaysFromHistory(idOf, h);
  }

  /** The bounded table answers exactly as the unbounded history: a token is in it, as far as `now` can
      tell, if and only if it is live. */
  lemma {:induction false} TableExact(idOf: Key -> DeviceId, h: seq<Event>, key: Key, t: Token, now: Instant)
    requires Legal(idOf, h) && Clock(h) <= now
    ensures InTable(Run(idOf, h).issued, key, t, now) <==> Live(idOf, h, key, t, now)
  {
    if h != [] {
      hide IssuedAfter, HeldAfter, GrantsAfter, Live, Drawn, Kills, Starts, InTable, Evicts, Run, Legal, Clock;
      var g, e := Unfold(idOf, h);
      FreshDraw(idOf, g, e);
      TableExact(idOf, g, key, t, now);
      TableNext(idOf, Run(idOf, g).issued, e, key, t, now);
      LiveNext(idOf, g, e, key, t, now);
    }
  }

  /** `redeem` succeeds if and only if the token is live for that key. */
  lemma RedeemExact(idOf: Key -> DeviceId, h: seq<Event>, key: Key, t: Token, now: Instant)
    requires Legal(idOf, h) && Clock(h) <= now
    ensures Accepts(Run(idOf, h), key, t, now) <==> Live(idOf, h, key, t, now)
  {
    hide Live, Run, Drawn, Legal;
    TableExact(idOf, h, key, t, now);
    AlwaysFromHistory(idOf, h);
  }

  /** Once a token drawn earlier has been presented, by anyone, it is never accepted again. */
  lemma {:induction false} SingleUse(idOf: Key -> DeviceId, h: seq<Event>, t: Token, i: nat, j: nat, key: Key, now: Instant)
    requires Legal(idOf, h) && Clock(h) <= now
    requires i < j < |h| && h[i].Issue? && h[i].token == t && h[j].Redeem? && h[j].token == t
    ensures !Accepts(Run(idOf, h), key, t, now)
  {
    hide Run, Accepts;
    RedeemExact(idOf, h, key, t, now);
    forall k: nat ensures !LiveFrom(idOf, h, k, key, t, now) {
      if k < |h| && k != i && h[k].Issue? { DrawnOnce(idOf, h, i, k); }
      assert k < j < |h| ==> Kills(idOf, h[j], key, t);
    }
  }

  lemma {:induction false} DrawnOnce(idOf: Key -> DeviceId, h: seq<Event>, i: nat, k: nat)
    requires Legal(idOf, h) && i < |h| && k < |h| && i != k && h[i].Issue? && h[k].Issue?
    ensures h[i].token != h[k].token
    decreases |h|
  {
    hide Run, Legal, Clock, Evicts;
    var g, e := Unfold(idOf, h);
    if i < |g| && k < |g| {
      assert h[i] == g[i] && h[k] == g[k];
      DrawnOnce(idOf, g, i, k);
    } else {
      var early := if i < k then i else k;
      assert h[early] == g[early] && h[|g|] == e;
      assert Drawn(g, g[early].token);
    }
  }

  // ---------------------------------------------------------------- bounds

  ghost predicate OnePerKey(m: map<Token, Issued>) {
    forall t, u :: t in m && u in m && m[t].key == m[u].key ==> t == u
  }

  /** One entry per key, and both tables bounded. */
  ghost predicate Bounded(s: State) {
    && OnePerKey(s.issued) && |s.issued| <= 64 && |s.held| <= 64
  }

  lemma Smaller<K, V>(a: map<K, V>, b: map<K, V>)
    requires a.Keys <= b.Keys
    ensures |a| <= |b|
  {
    Subset(a.Keys, b.Keys);
    assert |a| == |a.Keys| && |b| == |b.Keys|;
  }

  lemma {:induction false} Subset<K>(a: set<K>, b: set<K>)
    requires a <= b
    ensures |a| <= |b|
  {
    if a != {} {
      var x :| x in a;
      Subset(a - {x}, b - {x});
    }
  }

  lemma Removed<K, V>(m: map<K, V>, k: K)
    requires k in m
    ensures |m - {k}| == |m| - 1
  {
    assert (m - {k}).Keys == m.Keys - {k};
    assert |m - {k}| == |(m - {k}).Keys|;
  }

  lemma Inserted<K, V>(m: map<K, V>, k: K, v: V)
    ensures |m[k := v]| == if k in m then |m| else |m| + 1
  {
    assert m[k := v].Keys == m.Keys + {k};
    assert |m[k := v]| == |m[k := v].Keys|;
  }

  /** `a` has only entries of `b`. */
  ghost predicate Within<K, V>(a: map<K, V>, b: map<K, V>) {
    forall k :: k in a ==> k in b && a[k] == b[k]
  }

  lemma WithinBounded(a: map<Token, Issued>, b: map<Token, Issued>)
    requires Within(a, b) && OnePerKey(b)
    ensures OnePerKey(a) && |a| <= |b|
  {
    Smaller(a, b);
  }

  lemma IssueBounded(m: map<Token, Issued>, key: Key, token: Token, now: Instant, victim: Option<Token>)
    requires OnePerKey(m) && |m| <= MAX_TOKENS && Evicts(Others(m, key, now), victim)
    ensures var n := Without(Others(m, key, now), victim)[token := Issued(key, now + TOKEN_LIFETIME)];
            OnePerKey(n) && |n| <= MAX_TOKENS
  {
    var o := Others(m, key, now);
    var w, i := Without(o, victim), Issued(key, now + TOKEN_LIFETIME);
    WithinBounded(o, m);
    WithinBounded(w, o);
    OneMore(w, token, i);
    if victim.Some? { Removed(o, victim.value); }
    Inserted(w, token, i);
  }

  lemma OneMore(m: map<Token, Issued>, token: Token, i: Issued)
    requires OnePerKey(m) && forall t :: t in m ==> m[t].key != i.key
    ensures OnePerKey(m[token := i])
  {
  }

  lemma IssuedBounded(idOf: Key -> DeviceId, m: map<Token, Issued>, e: Event)
    requires OnePerKey(m) && |m| <= MAX_TOKENS && (e.Issue? ==> Evicts(Others(m, e.key, e.now), e.victim))
    ensures OnePerKey(IssuedAfter(idOf, m, e)) && |IssuedAfter(idOf, m, e)| <= MAX_TOKENS
  {
    hide OnePerKey, Evicts, Without, Others;
    if e.Issue? {
      IssueBounded(m, e.key, e.token, e.now, e.victim);
    } else {
      WithinBounded(IssuedAfter(idOf, m, e), m);
    }
  }

  lemma HeldBounded(m: map<DeviceId, Held>, e: Event)
    requires |m| <= MAX_TOKENS
    ensures |HeldAfter(m, e)| <= MAX_TOKENS
  {
    var n := HeldAfter(m, e);
    if !e.Hold? { Smaller(n, m); } else if n != m { Inserted(m, e.peer, n[e.peer]); }
  }

  /** In every run: at most one token per key, at most 64 issued and 64 held. */
  lemma {:induction false} AlwaysBounded(idOf: Key -> DeviceId, h: seq<Event>)
    requires Legal(idOf, h)
    ensures Bounded(Run(idOf, h))
  {
    if h != [] {
      hide Run, Legal, Clock, Evicts, IssuedAfter, HeldAfter, GrantsAfter, Drawn, OnePerKey;
      var g, e := Unfold(idOf, h);
      AlwaysBounded(idOf, g);
      IssuedBounded(idOf, Run(idOf, g).issued, e);
      HeldBounded(Run(idOf, g).held, e);
    }
  }

  /** An eviction happens only when 64 tokens of other keys are live, and drops one issued no later than
      any of them. */
  lemma {:induction false} EvictsOldest(idOf: Key -> DeviceId, h: seq<Event>, e: Event)
    requires Legal(idOf, h) && Possible(idOf, h, e) && e.Issue? && e.victim.Some?
    ensures var o := Others(Run(idOf, h).issued, e.key, e.now);
            && |o| == 64 && e.victim.value in o
            && (forall t :: t in o <==> exists k :: k != e.key && Live(idOf, h, k, t, e.now))
            && (forall t :: t in o ==> o[e.victim.value].expires <= o[t].expires)
  {
    hide Run, Legal, Live;
    var m := Run(idOf, h).issued;
    var o := Others(m, e.key, e.now);
    AlwaysBounded(idOf, h);
    Smaller(o, m);
    forall t ensures t in o <==> exists k :: k != e.key && Live(idOf, h, k, t, e.now) {
      forall k ensures InTable(m, k, t, e.now) <==> Live(idOf, h, k, t, e.now) { TableExact(idOf, h, k, t, e.now); }
      if t in o { assert InTable(m, m[t].key, t, e.now); }
      if k :| k != e.key && Live(idOf, h, k, t, e.now) { assert InTable(m, k, t, e.now); }
    }
  }

  // ---------------------------------------------------------------- grants

  ghost predicate GrantFrom(idOf: Key -> DeviceId, h: seq<Event>, i: nat, peer: DeviceId, now: Instant) {
    && i < |h| && h[i].Redeem? && idOf(h[i].key) == peer && now < h[i].now + 30 * SECOND
    && Live(idOf, h[..i], h[i].key, h[i].token, h[i].now)
    && forall j :: i < j < |h| ==> h[j] != Forget(peer)
  }

  /** Less than 30 s before `now` the peer presented a live token, and it was not forgotten since. */
  ghost predicate Granted(idOf: Key -> DeviceId, h: seq<Event>, peer: DeviceId, now: Instant) {
    exists i :: GrantFrom(idOf, h, i, peer, now)
  }

  ghost predicate Grants(idOf: Key -> DeviceId, h: seq<Event>, e: Event, peer: DeviceId, now: Instant) {
    e.Redeem? && idOf(e.key) == peer && now < e.now + RESUME_GRANT && Live(idOf, h, e.key, e.token, e.now)
  }

  lemma GrantedNext(idOf: Key -> DeviceId, h: seq<Event>, e: Event, peer: DeviceId, now: Instant)
    ensures Granted(idOf, h + [e], peer, now) <==>
            (Granted(idOf, h, peer, now) && e != Forget(peer)) || Grants(idOf, h, e, peer, now)
  {
    hide Live;
    var g, n := h + [e], |h|;
    assert g[..n] == h && g[n] == e;
    assert forall i :: 0 <= i < n ==> g[..i] == h[..i];
    if Grants(idOf, h, e, peer, now) { assert GrantFrom(idOf, g, n, peer, now); }
    if i: nat :| GrantFrom(idOf, h, i, peer, now) && e != Forget(peer) { assert GrantFrom(idOf, g, i, peer, now); }
    if i: nat :| GrantFrom(idOf, g, i, peer, now) && i < n {
      assert forall j :: i < j < n ==> h[j] == g[j];
      assert GrantFrom(idOf, h, i, peer, now);
    }
  }

  predicate GrantIn(m: map<DeviceId, Instant>, peer: DeviceId, now: Instant) { peer in m && now < m[peer] }

  lemma GrantsNext(idOf: Key -> DeviceId, m: map<DeviceId, Instant>, e: Event, accepted: bool, peer: DeviceId, now: Instant)
    requires Time(e).Some? ==> Time(e).value <= now
    requires e.Redeem? && peer in m ==> m[peer] <= e.now + RESUME_GRANT
    ensures GrantIn(GrantsAfter(idOf, m, e, accepted), peer, now) <==>
            (GrantIn(m, peer, now) && e != Forget(peer))
            || (e.Redeem? && accepted && idOf(e.key) == peer && now < e.now + RESUME_GRANT)
  {
  }

  /** No grant outlasts one given now. */
  lemma {:induction false} GrantsRecent(idOf: Key -> DeviceId, h: seq<Event>, peer: DeviceId)
    requires Legal(idOf, h)
    ensures peer in Run(idOf, h).grants ==> Run(idOf, h).grants[peer] <= Clock(h) + RESUME_GRANT
  {
    if h != [] {
      hide Run, Legal, Clock, Evicts, IssuedAfter, HeldAfter, Drawn, Accepts;
      var g, e := Unfold(idOf, h);
      GrantsRecent(idOf, g, peer);
    }
  }

  /** `resumed_recently` is the history's answer. */
  lemma {:induction false} ResumedExact(idOf: Key -> DeviceId, h: seq<Event>, peer: DeviceId, now: Instant)
    requires Legal(idOf, h) && Clock(h) <= now
    ensures ResumedRecently(Run(idOf, h), peer, now) <==> Granted(idOf, h, peer, now)
  {
    if h != [] {
      hide Run, Legal, Clock, Evicts, IssuedAfter, HeldAfter, GrantsAfter, Drawn, Accepts, Live, Granted;
      var g, e := Unfold(idOf, h);
      ResumedExact(idOf, g, peer, now);
      GrantedNext(idOf, g, e, peer, now);
      GrantsRecent(idOf, g, peer);
      if e.Redeem? { RedeemExact(idOf, g, e.key, e.token, e.now); }
      GrantsNext(idOf, Run(idOf, g).grants, e, e.Redeem? && Accepts(Run(idOf, g), e.key, e.token, e.now), peer, now);
    }
  }

  // ---------------------------------------------------------------- tokens of others

  /** The token a peer sent last, without any bound. */
  ghost function LastHeld(h: seq<Event>, peer: DeviceId): Option<Held> {
    if h == [] then None else
    match h[|h| - 1]
    case Hold(p, token, secs, now) =>
      if p == peer && |token| == 32 then Some(Held(token, now + Min(secs, 600) * SECOND))
      else LastHeld(h[..|h| - 1], peer)
    case Forget(p) => if p == peer then None else LastHeld(h[..|h| - 1], peer)
    case _ => LastHeld(h[..|h| - 1], peer)
  }

  ghost predicate SameHeld(m: map<DeviceId, Held>, last: Option<Held>, peer: DeviceId, now: Instant) {
    (peer in m && now < m[peer].expires) == (last.Some? && now < last.value.expires)
    && (peer in m && now < m[peer].expires ==> m[peer] == last.value)
  }

  /** The table turns a token away for lack of room, although it would live for some time. */
  predicate Refuses(m: map<DeviceId, Held>, e: Event) {
    e.Hold? && |e.token| == 32 && e.lifetimeSecs > 0 && e.peer !in m && |m| >= 64
  }

  lemma HeldNext(h: seq<Event>, e: Event, m: map<DeviceId, Held>, peer: DeviceId, now: Instant)
    requires (Time(e).Some? ==> Time(e).value <= now) && SameHeld(m, LastHeld(h, peer), peer, now)
    requires !Refuses(m, e)
    ensures SameHeld(HeldAfter(m, e), LastHeld(h + [e], peer), peer, now)
  {
    assert (h + [e])[..|h|] == h;
  }

  /** What a held token is worth at a time. */
  function Good(held: Option<Held>, now: Instant): Option<Token> {
    if held.Some? && now < held.value.expires then Some(held.value.token) else None
  }

  /** Whatever is asked now or later, the table answers with the latest token the peer sent, until it
      expires or the peer is forgotten. */
  ghost predicate Answers(idOf: Key -> DeviceId, h: seq<Event>) {
    forall peer: DeviceId, now: Instant :: Clock(h) <= now ==>
      HeldFor(Run(idOf, h), peer, now) == Good(LastHeld(h, peer), now)
  }

  ghost predicate AnswersThroughout(idOf: Key -> DeviceId, h: seq<Event>) {
    (h != [] ==> AnswersThroughout(idOf, h[..|h| - 1])) && Answers(idOf, h)
  }

  /** No token was turned away. */
  ghost predicate NoneRefused(idOf: Key -> DeviceId, h: seq<Event>) {
    h != [] ==> NoneRefused(idOf, h[..|h| - 1]) && !Refuses(Run(idOf, h[..|h| - 1]).held, h[|h| - 1])
  }

  lemma {:induction false} HeldSame(idOf: Key -> DeviceId, h: seq<Event>, peer: DeviceId, now: Instant)
    requires Legal(idOf, h) && Clock(h) <= now && NoneRefused(idOf, h)
    ensures SameHeld(Run(idOf, h).held, LastHeld(h, peer), peer, now)
  {
    if h != [] {
      hide Run, Legal, Clock, Evicts, IssuedAfter, HeldAfter, GrantsAfter, Drawn, Accepts, SameHeld, LastHeld, Refuses;
      var g, e := Unfold(idOf, h);
      assert h[..|h| - 1] == g && h[|h| - 1] == e;
      HeldSame(idOf, g, peer, now);
      HeldNext(g, e, Run(idOf, g).held, peer, now);
    }
  }

  /** A token that was turned away shows: its peer has none, though it sent one that is still good. */
  lemma RefusalShows(idOf: Key -> DeviceId, h: seq<Event>, e: Event)
    requires Refuses(Run(idOf, h).held, e)
    ensures HeldFor(Run(idOf, h + [e]), e.peer, e.now) == None
    ensures LastHeld(h + [e], e.peer).Some? && LastHeld(h + [e], e.peer).value.token == e.token
    ensures e.now < LastHeld(h + [e], e.peer).value.expires
    ensures Clock(h + [e]) == e.now && !Answers(idOf, h + [e])
  {
    hide IssuedAfter, GrantsAfter;
    assert (h + [e])[..|h|] == h;
  }

  /** `held_for` gives throughout a run the latest token each peer sent, if and only if no token with some
      time to live was turned away for lack of room. */
  lemma {:induction false} HeldExact(idOf: Key -> DeviceId, h: seq<Event>)
    requires Legal(idOf, h)
    ensures AnswersThroughout(idOf, h) <==> NoneRefused(idOf, h)
  {
    hide Run, Clock, Evicts, Drawn, Answers, LastHeld, Refuses;
    if h != [] {
      var g, e := h[..|h| - 1], h[|h| - 1];
      HeldExact(idOf, g);
      assert h == g + [e];
      if Refuses(Run(idOf, g).held, e) { RefusalShows(idOf, g, e); }
    }
    if NoneRefused(idOf, h) { HeldAnswers(idOf, h); }
  }

  lemma HeldAnswers(idOf: Key -> DeviceId, h: seq<Event>)
    requires Legal(idOf, h) && NoneRefused(idOf, h)
    ensures Answers(idOf, h)
  {
    hide Run, Clock, Legal, NoneRefused, LastHeld;
    forall peer: DeviceId, now: Instant | Clock(h) <= now
      ensures HeldFor(Run(idOf, h), peer, now) == Good(LastHeld(h, peer), now)
    {
      HeldSame(idOf, h, peer, now);
    }
  }

  // ---------------------------------------------------------------- a token turned away

  function Ticket(): Token { seq(TOKEN_LEN, _ => 0) }

  /** `k` peers send a token that lasts one second, and nothing is pruned. */
  ghost function Crowd(k: nat): seq<Event> {
    if k == 0 then [] else Crowd(k - 1) + [Hold(k - 1, Ticket(), 1, 0)]
  }

  ghost predicate Crowded(m: map<DeviceId, Held>, k: nat) {
    |m| == k && (forall p: DeviceId :: p in m <==> p < k) && forall p :: p in m ==> m[p] == Held(Ticket(), SECOND)
  }

  lemma NoCrowd()
    ensures Crowded(map[], 0)
  {
  }

  lemma HoldPossible(idOf: Key -> DeviceId, g: seq<Event>, e: Event)
    requires e.Hold? && Clock(g) <= e.now
    ensures Possible(idOf, g, e)
  {
  }

  lemma CrowdGrows(m: map<DeviceId, Held>, k: nat)
    requires Crowded(m, k) && k < MAX_TOKENS
    ensures Crowded(HeldAfter(m, Hold(k, Ticket(), 1, 0)), k + 1)
  {
    hide Ticket;
    TicketLength();
    Inserted(m, k, Held(Ticket(), SECOND));
    assert HeldAfter(m, Hold(k, Ticket(), 1, 0)) == m[k := Held(Ticket(), SECOND)];
  }

  lemma CrowdNext(idOf: Key -> DeviceId, g: seq<Event>, k: nat)
    requires k < MAX_TOKENS && Legal(idOf, g) && Clock(g) == 0 && Crowded(Run(idOf, g).held, k)
    ensures var h := g + [Hold(k, Ticket(), 1, 0)];
            Legal(idOf, h) && Clock(h) == 0 && Crowded(Run(idOf, h).held, k + 1)
  {
    hide Ticket, IssuedAfter, HeldAfter, GrantsAfter, Crowded, Possible, Run, Legal, Clock;
    var e := Hold(k, Ticket(), 1, 0);
    HoldPossible(idOf, g, e);
    Extend(idOf, g, e);
    CrowdGrows(Run(idOf, g).held, k);
  }

  lemma {:induction false} CrowdHolds(idOf: Key -> DeviceId, k: nat)
    requires k <= MAX_TOKENS
    ensures Legal(idOf, Crowd(k)) && Clock(Crowd(k)) == 0 && Crowded(Run(idOf, Crowd(k)).held, k)
  {
    hide Ticket, IssuedAfter, HeldAfter, GrantsAfter, Crowded, Possible;
    if k > 0 {
      CrowdHolds(idOf, k - 1);
      CrowdNext(idOf, Crowd(k - 1), k - 1);
    } else {
      NoCrowd();
    }
  }

  lemma TicketLength()
    ensures |Ticket()| == TOKEN_LEN
  {
  }

  /** One more call. */
  lemma Extend(idOf: Key -> DeviceId, g: seq<Event>, e: Event)
    requires Legal(idOf, g) && Possible(idOf, g, e)
    ensures Legal(idOf, g + [e]) && Run(idOf, g + [e]) == Step(idOf, Run(idOf, g), e)
    ensures Clock(g + [e]) == match Time(e) case Some(t) => t case None => Clock(g)
  {
    hide Step, Evicts, Possible;
    assert (g + [e])[..|g|] == g;
  }

  /** Sixty-four expired tokens keep the sixty-fifth peer's out. */
  lemma ExpiredCrowdOut(idOf: Key -> DeviceId)
    ensures var h, e := Crowd(64), Hold(64, Ticket(), 600, 2 * SECOND);
            && Legal(idOf, h + [e]) && Refuses(Run(idOf, h).held, e)
            && (forall p :: HeldFor(Run(idOf, h), p, e.now) == None)
            && HeldFor(Run(idOf, h + [e]), 64, e.now) == None && LastHeld(h + [e], 64).Some?
  {
    hide Run, LastHeld, Crowd, Ticket, Legal, Evicts;
    var h, e := Crowd(64), Hold(64, Ticket(), 600, 2 * SECOND);
    CrowdHolds(idOf, 64);
    TicketLength();
    Extend(idOf, h, e);
    RefusalShows(idOf, h, e);
  }

  // ---------------------------------------------------------------- the object

  class Tokens {
    var issued: map<Token, Issued>
    var held: map<DeviceId, Held>
    var grants: map<DeviceId, Instant>

    ghost function Abs(): State reads this { State(issued, held, grants) }

    constructor ()
      ensures Abs() == Init()
    {
      issued, held, grants := map[], map[], map[];
    }

    method PruneAt(now: Instant, ghost idOf: Key -> DeviceId)
      modifies this
      ensures Abs() == Step(idOf, old(Abs()), Prune(now))
    {
      issued := map t | t in issued && now < issued[t].expires :: issued[t];
      held := map p | p in held && now < held[p].expires :: held[p];
      grants := map p | p in grants && now < grants[p] :: grants[p];
    }

    /** An entry closest to expiry. */
    method Oldest() returns (oldest: Token)
      requires issued != map[]
      ensures oldest in issued && forall t :: t in issued ==> issued[oldest].expires <= issued[t].expires
    {
      var left := issued.Keys;
      assert left != {};
      oldest :| oldest in left;
      left := left - {oldest};
      while left != {}
        invariant oldest in issued && left <= issued.Keys
        invariant forall t :: t in issued ==> t in left || issued[oldest].expires <= issued[t].expires
        decreases |left|
      {
        var t :| t in left;
        left := left - {t};
        if issued[t].expires < issued[oldest].expires { oldest := t; }
      }
    }

    /** Drop the oldest entry of a full table. */
    method MakeRoom() returns (ghost victim: Option<Token>)
      modifies `issued
      ensures Evicts(old(issued), victim) && issued == Without(old(issued), victim)
    {
      victim := None;
      if |issued| >= MAX_TOKENS {
        var oldest := Oldest();
        victim := Some(oldest);
        issued := issued - {oldest};
      }
    }

    /** Issue the fresh draw `token` for `key`; `victim` tells what was dropped. */
    method IssueTo(key: Key, token: Token, now: Instant, ghost idOf: Key -> DeviceId) returns (ghost victim: Option<Token>)
      modifies this
      ensures Evicts(Others(old(issued), key, now), victim)
      ensures Abs() == Step(idOf, old(Abs()), Issue(key, token, now, victim))
    {
      hide Evicts, Without;
      PruneAt(now, idOf);
      issued := map t | t in issued && issued[t].key != key :: issued[t];
      assert issued == Others(old(issued), key, now);
      hide Others, Unexpired, Current;
      victim := MakeRoom();
      issued := issued[token := Issued(key, now + TOKEN_LIFETIME)];
    }

    /** Check a presented token, consuming it either way. */
    method Present(key: Key, token: Token, now: Instant, idOf: Key -> DeviceId) returns (valid: bool)
      modifies this
      ensures valid == Accepts(old(Abs()), key, token, now)
      ensures Abs() == Step(idOf, old(Abs()), Redeem(key, token, now))
    {
      if |token| != TOKEN_LEN { return false; }
      if token !in issued {
        assert issued - {token} == issued;
        return false;
      }
      var i := issued[token];
      issued := issued - {token};
      valid := i.key == key && now < i.expires;
      if valid { grants := grants[idOf(key) := now + RESUME_GRANT]; }
    }

    method Store(peer: DeviceId, token: Token, lifetimeSecs: nat, now: Instant, ghost idOf: Key -> DeviceId)
      modifies this
      ensures Abs() == Step(idOf, old(Abs()), Hold(peer, token, lifetimeSecs, now))
    {
      if |token| != TOKEN_LEN { return; }
      if peer !in held && |held| >= MAX_TOKENS { return; }
      held := held[peer := Held(token, now + Min(lifetimeSecs * SECOND, TOKEN_LIFETIME))];
    }

    method ForgetPeer(peer: DeviceId, idOf: Key -> DeviceId)
      modifies this
      ensures Abs() == Step(idOf, old(Abs()), Forget(peer))
    {
      held := held - {peer};
      grants := grants - {peer};
      issued := map t | t in issued && idOf(issued[t].key) != peer :: issued[t];
    }
  }
}
