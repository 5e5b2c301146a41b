/** How long a route lasts: what stops it by key, by deadline, by a pause that is too long, or because the
    peer asks for the same kind (sp-engine/src/actor.rs). */
module RouteLife {
  import opened Common
  import opened Routes

  // ---------------------------------------------------------------- nothing stopped stays

  lemma {:induction false} StopKeyMembers(routes: seq<Route>, peer: DeviceId, id: byte, r: Route)
    requires r in StopKey(routes, peer, id)
    ensures r in routes
  {
    if routes != [] {
      var front := routes[..|routes| - 1];
      if HasKey(front, peer, id) && r in StopKey(front, peer, id) { StopKeyMembers(front, peer, id, r); }
    }
  }

  lemma {:induction false} StopKeysMembers(routes: seq<Route>, keys: seq<(DeviceId, byte)>, r: Route)
    requires r in StopKeys(routes, keys)
    ensures r in routes
  {
    if keys != [] {
      var k := keys[|keys| - 1];
      StopKeyMembers(StopKeys(routes, keys[..|keys| - 1]), k.0, k.1, r);
      StopKeysMembers(routes, keys[..|keys| - 1], r);
    }
  }

  lemma {:induction false} DropPausedMembers(routes: seq<Route>, peer: DeviceId, id: byte, kind: Kind, r: Route)
    requires r in DropPaused(routes, peer, id, kind)
    ensures r in routes
  {
    if routes != [] {
      var front := routes[..|routes| - 1];
      if r in DropPaused(front, peer, id, kind) { DropPausedMembers(front, peer, id, kind, r); }
    }
  }

  lemma {:induction false} TakeRequestedMembers(routes: seq<Route>, peer: DeviceId, id: byte)
    ensures var (found, rest) := TakeRequested(routes, peer, id);
            && (forall r :: r in rest ==> r in routes)
            && (found.Some? ==> found.value in routes && found.value.status == Requesting && KeyIs(found.value, peer, id))
  {
    if routes != [] { TakeRequestedMembers(routes[..|routes| - 1], peer, id); }
  }

  lemma {:induction false} ActivateRuns(routes: seq<Route>, peer: DeviceId, id: byte)
    requires NoneStopped(routes)
    ensures NoneStopped(Activate(routes, peer, id))
  {
    if routes != [] {
      assert routes[|routes| - 1] in routes;
      ActivateRuns(routes[..|routes| - 1], peer, id);
    }
  }

  lemma {:induction false} SetKeepRuns(routes: seq<Route>, peer: DeviceId, id: byte, keep: bool)
    requires NoneStopped(routes)
    ensures NoneStopped(SetKeep(routes, peer, id, keep))
  {
    if routes != [] {
      assert routes[|routes| - 1] in routes;
      SetKeepRuns(routes[..|routes| - 1], peer, id, keep);
    }
  }

  lemma StopRuns(routes: seq<Route>, peer: DeviceId, id: byte)
    requires NoneStopped(routes)
    ensures NoneStopped(StopKey(routes, peer, id))
  {
    forall r | r in StopKey(routes, peer, id) ensures r.status != Stopped { StopKeyMembers(routes, peer, id, r); }
  }

  lemma SweepRuns(routes: seq<Route>, now: nat)
    requires NoneStopped(routes)
    ensures NoneStopped(Sweep(routes, now))
  {
    forall r | r in Sweep(routes, now) ensures r.status != Stopped { StopKeysMembers(routes, DueKeys(routes, now), r); }
  }

  lemma AcceptedRuns(routes: seq<Route>, peer: DeviceId, id: byte, opens: bool, ready: bool, now: nat)
    requires NoneStopped(routes)
    ensures NoneStopped(RouteAccepted(routes, peer, id, opens, ready, now))
  {
    hide TakeRequested, Activate;
    TakeRequestedMembers(routes, peer, id);
    var (found, rest) := TakeRequested(routes, peer, id);
    if found.Some? {
      ActivateRuns(rest + [found.value.(status := Starting, deadline := Some(now + START_DEADLINE_MS))], peer, id);
    }
  }

  lemma AcceptRuns(routes: seq<Route>, peer: DeviceId, id: byte, kind: Kind, opens: bool, ready: bool, now: nat)
    requires NoneStopped(routes)
    ensures NoneStopped(AcceptRoute(routes, peer, id, kind, opens, ready, now))
  {
    hide DropPaused, Activate;
    var kept := DropPaused(routes, peer, id, kind);
    forall r | r in kept ensures r.status != Stopped { DropPausedMembers(routes, peer, id, kind, r); }
    ActivateRuns(kept + [Route(peer, id, kind, Starting, false, false, None, Some(now + START_DEADLINE_MS))], peer, id);
  }

  lemma StartRuns(routes: seq<Route>, session: Option<byte>, peer: DeviceId, kind: Kind, replace: bool, policy: Policy)
    requires NoneStopped(routes)
    ensures NoneStopped(StartAs(routes, session, peer, kind, replace, policy).0)
  {
    hide StopKey, Feed;
    var feed := Feed(routes, peer);
    if feed.Some? { StopRuns(routes, feed.value.0, feed.value.1); }
  }

  // ---------------------------------------------------------------- counting this device's requests

  predicate Own(r: Route, peer: DeviceId, kind: Kind) { r.local && r.peer == peer && r.kind == kind }

  function One(b: bool): nat { if b then 1 else 0 }

  /** How many routes of this kind this device asked the peer for. */
  function Mine(routes: seq<Route>, peer: DeviceId, kind: Kind): nat {
    if routes == [] then 0
    else Mine(routes[..|routes| - 1], peer, kind) + One(Own(routes[|routes| - 1], peer, kind))
  }

  lemma MineNext(routes: seq<Route>, r: Route, peer: DeviceId, kind: Kind)
    ensures Mine(routes + [r], peer, kind) == Mine(routes, peer, kind) + One(Own(r, peer, kind))
  {
    assert (routes + [r])[..|routes|] == routes;
  }

  lemma {:induction false} MineSome(routes: seq<Route>, peer: DeviceId, kind: Kind)
    ensures Mine(routes, peer, kind) > 0 <==> exists i :: 0 <= i < |routes| && Own(routes[i], peer, kind)
  {
    if routes != [] {
      var n := |routes| - 1;
      MineSome(routes[..n], peer, kind);
      if i :| 0 <= i < n && Own(routes[..n][i], peer, kind) { assert Own(routes[i], peer, kind); }
      if i :| 0 <= i < |routes| && Own(routes[i], peer, kind) { if i < n { assert Own(routes[..n][i], peer, kind); } }
    }
  }

  lemma WantedIsMine(routes: seq<Route>, peer: DeviceId, kind: Kind)
    requires NoneStopped(routes)
    ensures Wanted(routes, peer, kind) <==> Mine(routes, peer, kind) > 0
  {
    MineSome(routes, peer, kind);
    if Wanted(routes, peer, kind) {
      var r :| r in routes && r.peer == peer && r.kind == kind && r.local && r.status != Stopped;
      var i :| 0 <= i < |routes| && routes[i] == r;
      assert Own(routes[i], peer, kind);
    }
    if i :| 0 <= i < |routes| && Own(routes[i], peer, kind) { assert routes[i] in routes; }
  }

  /** One index is the only own one. */
  lemma {:induction false} MineOnce(routes: seq<Route>, peer: DeviceId, kind: Kind, i: nat, j: nat)
    requires Mine(routes, peer, kind) <= 1 && i < |routes| && j < |routes|
    requires Own(routes[i], peer, kind) && Own(routes[j], peer, kind)
    ensures i == j
  {
    var n := |routes| - 1;
    MineSome(routes[..n], peer, kind);
    if i < n { assert Own(routes[..n][i], peer, kind); }
    if j < n { assert Own(routes[..n][j], peer, kind); }
    if i < n && j < n { MineOnce(routes[..n], peer, kind, i, j); }
  }

  lemma PausedOwn(r: Route, q: DeviceId, now: nat, peer: DeviceId, kind: Kind)
    requires r.status != Stopped
    ensures Own(r, peer, kind) ==> PauseOne(r, q, now).status != Stopped
    ensures Own(PauseOne(r, q, now), peer, kind) == Own(r, peer, kind)
  {
  }

  lemma PauseNext(routes: seq<Route>, r: Route, q: DeviceId, now: nat)
    ensures Pause(routes + [r], q, now) ==
            Pause(routes, q, now) + if PauseOne(r, q, now).status != Stopped then [PauseOne(r, q, now)] else []
  {
    hide PauseOne;
    var all := PauseAll(routes + [r], q, now);
    assert all[..|routes|] == PauseAll(routes, q, now) && all[|routes|] == PauseOne(r, q, now);
  }

  lemma PauseNone(q: DeviceId, now: nat)
    ensures Pause([], q, now) == []
  {
  }

  lemma MinePauseNext(front: seq<Route>, last: Route, q: DeviceId, now: nat, peer: DeviceId, kind: Kind)
    requires last.status != Stopped && Mine(Pause(front, q, now), peer, kind) == Mine(front, peer, kind)
    ensures Mine(Pause(front + [last], q, now), peer, kind) == Mine(front + [last], peer, kind)
  {
    hide Pause, Mine, Own, PauseOne;
    var p, one := Pause(front, q, now), PauseOne(last, q, now);
    PausedOwn(last, q, now, peer, kind);
    PauseNext(front, last, q, now);
    MineNext(front, last, peer, kind);
    MineNext(p, one, peer, kind);
    if one.status == Stopped { assert p + [] == p; }
  }

  /** Own entries survive a pause. */
  lemma {:induction false} MinePause(routes: seq<Route>, q: DeviceId, now: nat, peer: DeviceId, kind: Kind)
    requires NoneStopped(routes)
    ensures Mine(Pause(routes, q, now), peer, kind) == Mine(routes, peer, kind)
  {
    hide Pause, Mine;
    if routes == [] {
      PauseNone(q, now);
    } else {
      var front, last := routes[..|routes| - 1], routes[|routes| - 1];
      assert last in routes && routes == front + [last];
      MinePause(front, q, now, peer, kind);
      MinePauseNext(front, last, q, now, peer, kind);
    }
  }

  lemma {:induction false} MineWithout(routes: seq<Route>, q: DeviceId, peer: DeviceId, kind: Kind)
    ensures Mine(Without(routes, q), peer, kind) == if q == peer then 0 else Mine(routes, peer, kind)
  {
    if routes != [] {
      var front, last := routes[..|routes| - 1], routes[|routes| - 1];
      MineWithout(front, q, peer, kind);
      MineNext(Without(front, q), last, peer, kind);
      assert Without(front, q) + [] == Without(front, q);
    }
  }

  lemma {:induction false} MineKeep(routes: seq<Route>, p: DeviceId, id: byte, keep: bool, peer: DeviceId, kind: Kind)
    ensures Mine(SetKeep(routes, p, id, keep), peer, kind) == Mine(routes, peer, kind)
  {
    if routes != [] {
      var front, last := routes[..|routes| - 1], routes[|routes| - 1];
      MineKeep(front, p, id, keep, peer, kind);
      MineNext(SetKeep(front, p, id, keep), last, peer, kind);
      MineNext(front, last.(keep := keep), peer, kind);
    }
  }

  lemma {:induction false} MineActivate(routes: seq<Route>, p: DeviceId, id: byte, peer: DeviceId, kind: Kind)
    ensures Mine(Activate(routes, p, id), peer, kind) == Mine(routes, peer, kind)
  {
    if routes != [] {
      var front, last := routes[..|routes| - 1], routes[|routes| - 1];
      MineActivate(front, p, id, peer, kind);
      MineNext(Activate(front, p, id), last, peer, kind);
      MineNext(front, last.(status := Active, deadline := None), peer, kind);
    }
  }

  // ---------------------------------------------------------------- stopping by key

  /** The first route with the key is an own one of this kind. */
  ghost predicate Hits(routes: seq<Route>, p: DeviceId, id: byte, peer: DeviceId, kind: Kind) {
    exists i :: 0 <= i < |routes| && KeyIs(routes[i], p, id) && Own(routes[i], peer, kind) && !HasKey(routes[..i], p, id)
  }

  lemma HitsNext(routes: seq<Route>, r: Route, p: DeviceId, id: byte, peer: DeviceId, kind: Kind)
    ensures Hits(routes + [r], p, id, peer, kind) <==>
            Hits(routes, p, id, peer, kind) || (!HasKey(routes, p, id) && KeyIs(r, p, id) && Own(r, peer, kind))
  {
    hide HasKey;
    var all, n := routes + [r], |routes|;
    assert all[..n] == routes && all[n] == r;
    forall i | 0 <= i < n ensures all[i] == routes[i] && all[..i] == routes[..i] {}
    if i :| 0 <= i < n && KeyIs(routes[i], p, id) && Own(routes[i], peer, kind) && !HasKey(routes[..i], p, id) {
      assert KeyIs(all[i], p, id) && Own(all[i], peer, kind) && !HasKey(all[..i], p, id);
    }
    if !HasKey(routes, p, id) && KeyIs(r, p, id) && Own(r, peer, kind) {
      assert KeyIs(all[n], p, id) && Own(all[n], peer, kind) && !HasKey(all[..n], p, id);
    }
  }

  lemma HasKeyNext(routes: seq<Route>, r: Route, p: DeviceId, id: byte)
    ensures HasKey(routes + [r], p, id) <==> HasKey(routes, p, id) || KeyIs(r, p, id)
  {
    var all := routes + [r];
    assert all[|routes|] == r;
    if i :| 0 <= i < |routes| && KeyIs(routes[i], p, id) { assert KeyIs(all[i], p, id); }
  }

  lemma {:induction false} HitsHasKey(routes: seq<Route>, p: DeviceId, id: byte, peer: DeviceId, kind: Kind)
    requires Hits(routes, p, id, peer, kind)
    ensures HasKey(routes, p, id)
  {
  }

  lemma {:induction false} MineStop(routes: seq<Route>, p: DeviceId, id: byte, peer: DeviceId, kind: Kind)
    ensures Mine(StopKey(routes, p, id), peer, kind) + One(Hits(routes, p, id, peer, kind)) == Mine(routes, peer, kind)
  {
    if routes != [] {
      hide HasKey, Hits;
      var front, last := routes[..|routes| - 1], routes[|routes| - 1];
      assert routes == front + [last];
      MineStop(front, p, id, peer, kind);
      HitsNext(front, last, p, id, peer, kind);
      MineNext(StopKey(front, p, id), last, peer, kind);
      if !HasKey(front, p, id) {
        StopAbsent(front, p, id);
        if Hits(front, p, id, peer, kind) { HitsHasKey(front, p, id, peer, kind); }
      }
    } else {
      assert !Hits(routes, p, id, peer, kind);
    }
  }

  lemma StopAbsent(routes: seq<Route>, p: DeviceId, id: byte)
    requires !HasKey(routes, p, id)
    ensures StopKey(routes, p, id) == routes
  {
    if routes != [] {
      var front, last := routes[..|routes| - 1], routes[|routes| - 1];
      assert routes == front + [last];
      HasKeyNext(front, last, p, id);
    }
  }

  // ---------------------------------------------------------------- the sweep

  type RouteKey = (DeviceId, byte)

  /** Routes with this key. */
  function Rank(routes: seq<Route>, k: RouteKey): nat {
    if routes == [] then 0 else Rank(routes[..|routes| - 1], k) + One(KeyIs(routes[|routes| - 1], k.0, k.1))
  }

  function Times(keys: seq<RouteKey>, k: RouteKey): nat {
    if keys == [] then 0 else Times(keys[..|keys| - 1], k) + One(keys[|keys| - 1] == k)
  }

  /** Routes with this key that are due. */
  function DueCount(routes: seq<Route>, k: RouteKey, now: nat): nat {
    if routes == [] then 0 else
    var r := routes[|routes| - 1];
    DueCount(routes[..|routes| - 1], k, now) + One(KeyIs(r, k.0, k.1) && Due(r, now))
  }

  /** The routes left when, of each key, as many are dropped from the front as `keys` lists it. */
  function Spared(routes: seq<Route>, keys: seq<RouteKey>): seq<Route> {
    if routes == [] then [] else
    var front, last := routes[..|routes| - 1], routes[|routes| - 1];
    Spared(front, keys) + if Rank(front, (last.peer, last.id)) >= Times(keys, (last.peer, last.id)) then [last] else []
  }

  lemma {:induction false} RankKey(routes: seq<Route>, k: RouteKey)
    ensures Rank(routes, k) > 0 <==> HasKey(routes, k.0, k.1)
  {
    if routes != [] {
      hide HasKey;
      var front, last := routes[..|routes| - 1], routes[|routes| - 1];
      RankKey(front, k);
      HasKeyNext(front, last, k.0, k.1);
      assert routes == front + [last];
    } else {
      assert !HasKey(routes, k.0, k.1);
    }
  }

  lemma RankNext(routes: seq<Route>, r: Route, k: RouteKey)
    ensures Rank(routes + [r], k) == Rank(routes, k) + One(KeyIs(r, k.0, k.1))
  {
    assert (routes + [r])[..|routes|] == routes;
  }

  /** How many with a key are spared. */
  lemma {:induction false} SparedRank(routes: seq<Route>, keys: seq<RouteKey>, k: RouteKey)
    ensures Rank(Spared(routes, keys), k) == if Rank(routes, k) <= Times(keys, k) then 0 else Rank(routes, k) - Times(keys, k)
  {
    if routes != [] {
      hide Times;
      var front, last := routes[..|routes| - 1], routes[|routes| - 1];
      SparedRank(front, keys, k);
      RankNext(Spared(front, keys), last, k);
      assert Spared(front, keys) + [] == Spared(front, keys);
    }
  }

  lemma TimesNext(keys: seq<RouteKey>, x: RouteKey, k: RouteKey)
    ensures Times(keys + [x], k) == Times(keys, k) + One(x == k)
  {
    assert (keys + [x])[..|keys|] == keys;
  }

  /** Stopping one key more spares one route less of it. */
  lemma {:induction false} SparedNext(routes: seq<Route>, keys: seq<RouteKey>, x: RouteKey)
    ensures Spared(routes, keys + [x]) == StopKey(Spared(routes, keys), x.0, x.1)
  {
    if routes != [] {
      hide HasKey, Times, Rank, StopKey;
      var front, last := routes[..|routes| - 1], routes[|routes| - 1];
      var kept := Spared(front, keys);
      SparedNext(front, keys, x);
      TimesNext(keys, x, (last.peer, last.id));
      SparedRank(front, keys, x);
      RankKey(kept, x);
      StopLast(kept, last, x);
      if !HasKey(kept, x.0, x.1) { StopAbsent(kept, x.0, x.1); }
      assert kept + [] == kept && StopKey(kept, x.0, x.1) + [] == StopKey(kept, x.0, x.1);
    } else {
      assert StopKey([], x.0, x.1) == [];
    }
  }

  lemma StopLast(kept: seq<Route>, last: Route, x: RouteKey)
    ensures StopKey(kept + [last], x.0, x.1) ==
            if HasKey(kept, x.0, x.1) then StopKey(kept, x.0, x.1) + [last]
            else if KeyIs(last, x.0, x.1) then kept
            else kept + [last]
  {
    hide HasKey;
    assert (kept + [last])[..|kept|] == kept;
  }

  lemma SparedNone()
    ensures Spared([], []) == []
  {
  }

  lemma SparedOneMore(front: seq<Route>, last: Route)
    ensures Spared(front + [last], []) == Spared(front, []) + [last]
  {
    hide Rank;
    assert (front + [last])[..|front|] == front;
  }

  lemma {:induction false} SparedAll(routes: seq<Route>)
    ensures Spared(routes, []) == routes
  {
    hide Spared;
    if routes == [] {
      SparedNone();
    } else {
      var front, last := routes[..|routes| - 1], routes[|routes| - 1];
      SparedAll(front);
      SparedOneMore(front, last);
      assert routes == front + [last];
    }
  }

  lemma {:induction false} StopKeysSpares(routes: seq<Route>, keys: seq<RouteKey>)
    ensures StopKeys(routes, keys) == Spared(routes, keys)
  {
    hide StopKey;
    if keys == [] {
      SparedAll(routes);
    } else {
      var front, x := keys[..|keys| - 1], keys[|keys| - 1];
      StopKeysSpares(routes, front);
      SparedNext(routes, front, x);
      assert keys == front + [x];
    }
  }

  lemma {:induction false} DueTimes(routes: seq<Route>, now: nat, k: RouteKey)
    ensures Times(DueKeys(routes, now), k) == DueCount(routes, k, now)
  {
    if routes != [] {
      hide Due;
      var front, last := routes[..|routes| - 1], routes[|routes| - 1];
      DueTimes(front, now, k);
      TimesNext(DueKeys(front, now), (last.peer, last.id), k);
      assert DueKeys(front, now) + [] == DueKeys(front, now);
    } else {
      assert DueKeys(routes, now) == [];
    }
  }

  ghost predicate Dropped(routes: seq<Route>, keys: seq<RouteKey>, peer: DeviceId, kind: Kind) {
    exists i :: 0 <= i < |routes| && Own(routes[i], peer, kind) && Falls(routes, i, keys)
  }

  ghost predicate Falls(routes: seq<Route>, i: nat, keys: seq<RouteKey>)
    requires i < |routes|
  {
    var k := (routes[i].peer, routes[i].id);
    Rank(routes[..i], k) < Times(keys, k)
  }

  lemma DroppedNext(routes: seq<Route>, r: Route, keys: seq<RouteKey>, peer: DeviceId, kind: Kind)
    ensures Dropped(routes + [r], keys, peer, kind) <==>
            Dropped(routes, keys, peer, kind)
            || (Own(r, peer, kind) && Rank(routes, (r.peer, r.id)) < Times(keys, (r.peer, r.id)))
  {
    hide Rank, Times;
    var all, n := routes + [r], |routes|;
    assert all[..n] == routes && all[n] == r;
    forall i | 0 <= i < n ensures all[i] == routes[i] && all[..i] == routes[..i] {}
    if i :| 0 <= i < n && Own(routes[i], peer, kind) && Falls(routes, i, keys) {
      assert Own(all[i], peer, kind) && Falls(all, i, keys);
    }
    if Own(r, peer, kind) && Rank(routes, (r.peer, r.id)) < Times(keys, (r.peer, r.id)) {
      assert Own(all[n], peer, kind) && Falls(all, n, keys);
    }
    if i :| 0 <= i < n && Own(all[i], peer, kind) && Falls(all, i, keys) {
      assert Own(routes[i], peer, kind) && Falls(routes, i, keys);
    }
  }

  lemma SparedLast(front: seq<Route>, last: Route, keys: seq<RouteKey>)
    ensures Spared(front + [last], keys) ==
            Spared(front, keys) + if Rank(front, (last.peer, last.id)) >= Times(keys, (last.peer, last.id)) then [last] else []
  {
    hide Rank, Times;
    assert (front + [last])[..|front|] == front;
  }

  lemma {:induction false} MineSpared(routes: seq<Route>, keys: seq<RouteKey>, peer: DeviceId, kind: Kind)
    requires Mine(routes, peer, kind) <= 1
    ensures Mine(Spared(routes, keys), peer, kind) + One(Dropped(routes, keys, peer, kind)) == Mine(routes, peer, kind)
  {
    if routes != [] {
      hide Dropped, Rank, Times, Mine, Spared, Own;
      var front, last := routes[..|routes| - 1], routes[|routes| - 1];
      assert routes == front + [last];
      MineNext(front, last, peer, kind);
      MineSpared(front, keys, peer, kind);
      DroppedNext(front, last, keys, peer, kind);
      SparedLast(front, last, keys);
      MineNext(Spared(front, keys), last, peer, kind);
      assert Spared(front, keys) + [] == Spared(front, keys);
    } else {
      assert !Dropped(routes, keys, peer, kind);
    }
  }

  /** The sweep takes the own route of this kind: more routes with its key are due than stand before it.
      Where no other route has its key, that is: it is due itself. */
  ghost predicate Expires(routes: seq<Route>, peer: DeviceId, kind: Kind, now: nat) {
    exists i :: 0 <= i < |routes| && Own(routes[i], peer, kind) && Overdue(routes, i, now)
  }

  ghost predicate Overdue(routes: seq<Route>, i: nat, now: nat)
    requires i < |routes|
  {
    var k := (routes[i].peer, routes[i].id);
    Rank(routes[..i], k) < DueCount(routes, k, now)
  }

  lemma OverdueFalls(routes: seq<Route>, i: nat, now: nat)
    requires i < |routes|
    ensures Overdue(routes, i, now) <==> Falls(routes, i, DueKeys(routes, now))
  {
    hide Rank, Times, DueCount, DueKeys;
    DueTimes(routes, now, (routes[i].peer, routes[i].id));
  }

  lemma ExpiresDropped(routes: seq<Route>, peer: DeviceId, kind: Kind, now: nat)
    ensures Expires(routes, peer, kind, now) <==> Dropped(routes, DueKeys(routes, now), peer, kind)
  {
    hide Overdue, Falls, DueKeys;
    forall i | 0 <= i < |routes| ensures Overdue(routes, i, now) <==> Falls(routes, i, DueKeys(routes, now)) {
      OverdueFalls(routes, i, now);
    }
  }

  lemma MineSweep(routes: seq<Route>, peer: DeviceId, kind: Kind, now: nat)
    requires Mine(routes, peer, kind) <= 1
    ensures Mine(Sweep(routes, now), peer, kind) + One(Expires(routes, peer, kind, now)) == Mine(routes, peer, kind)
  {
    hide Expires, Dropped, Mine, StopKeys, Spared, DueKeys;
    StopKeysSpares(routes, DueKeys(routes, now));
    ExpiresDropped(routes, peer, kind, now);
    MineSpared(routes, DueKeys(routes, now), peer, kind);
  }

  /** A route whose key no other route has is swept exactly when its deadline has passed or its pause has
      lasted over two minutes without being kept running. */
  lemma OverdueAlone(routes: seq<Route>, i: nat, now: nat)
    requires i < |routes|
    requires forall j :: 0 <= j < |routes| && j != i ==> !KeyIs(routes[j], routes[i].peer, routes[i].id)
    ensures Overdue(routes, i, now) <==> Due(routes[i], now)
  {
    var k := (routes[i].peer, routes[i].id);
    AloneRank(routes[..i], k);
    AloneCount(routes, i, now);
  }

  lemma {:induction false} AloneRank(routes: seq<Route>, k: RouteKey)
    requires forall j :: 0 <= j < |routes| ==> !KeyIs(routes[j], k.0, k.1)
    ensures Rank(routes, k) == 0
  {
    if routes != [] { AloneRank(routes[..|routes| - 1], k); }
  }

  lemma {:induction false} NoneDue(routes: seq<Route>, k: RouteKey, now: nat)
    requires forall j :: 0 <= j < |routes| ==> !KeyIs(routes[j], k.0, k.1)
    ensures DueCount(routes, k, now) == 0
  {
    if routes != [] { NoneDue(routes[..|routes| - 1], k, now); }
  }

  lemma {:induction false} AloneCount(routes: seq<Route>, i: nat, now: nat)
    requires i < |routes|
    requires forall j :: 0 <= j < |routes| && j != i ==> !KeyIs(routes[j], routes[i].peer, routes[i].id)
    ensures DueCount(routes, (routes[i].peer, routes[i].id), now) == One(Due(routes[i], now))
  {
    hide Due;
    var n := |routes| - 1;
    if i < n {
      assert routes[..n][i] == routes[i];
      AloneCount(routes[..n], i, now);
    } else {
      NoneDue(routes[..n], (routes[i].peer, routes[i].id), now);
    }
  }

  // ---------------------------------------------------------------- answers and requests

  /** The first route with the key that waits for an answer is an own one of this kind. */
  ghost predicate Answers(routes: seq<Route>, p: DeviceId, id: byte, peer: DeviceId, kind: Kind) {
    var found := TakeRequested(routes, p, id).0;
    found.Some? && Own(found.value, peer, kind)
  }

  lemma {:induction false} MineTake(routes: seq<Route>, p: DeviceId, id: byte, peer: DeviceId, kind: Kind)
    ensures Mine(TakeRequested(routes, p, id).1, peer, kind) + One(Answers(routes, p, id, peer, kind)) == Mine(routes, peer, kind)
  {
    if routes != [] {
      var front, last := routes[..|routes| - 1], routes[|routes| - 1];
      MineTake(front, p, id, peer, kind);
      var (found, rest) := TakeRequested(front, p, id);
      MineNext(rest, last, peer, kind);
    }
  }

  lemma MineAccepted(routes: seq<Route>, p: DeviceId, id: byte, opens: bool, ready: bool, now: nat, peer: DeviceId, kind: Kind)
    ensures Mine(RouteAccepted(routes, p, id, opens, ready, now), peer, kind)
            + One(!opens && Answers(routes, p, id, peer, kind)) == Mine(routes, peer, kind)
  {
    hide Mine, TakeRequested, Activate;
    MineTake(routes, p, id, peer, kind);
    var (found, rest) := TakeRequested(routes, p, id);
    if found.Some? {
      var r := found.value.(status := Starting, deadline := Some(now + START_DEADLINE_MS));
      MineNext(rest, r, peer, kind);
      MineActivate(rest + [r], p, id, peer, kind);
    }
  }

  /** A paused own route of this kind that the peer's request replaces. */
  ghost predicate Yields(routes: seq<Route>, p: DeviceId, id: byte, k: Kind, peer: DeviceId, kind: Kind) {
    exists r :: r in routes && Own(r, peer, kind) && Replaced(r, p, id, k)
  }

  lemma YieldsNext(routes: seq<Route>, r: Route, p: DeviceId, id: byte, k: Kind, peer: DeviceId, kind: Kind)
    ensures Yields(routes + [r], p, id, k, peer, kind) <==>
            Yields(routes, p, id, k, peer, kind) || (Own(r, peer, kind) && Replaced(r, p, id, k))
  {
    hide Own, Replaced;
    var all := routes + [r];
    forall x ensures x in all <==> x in routes || x == r { assert all[|routes|] == r; }
  }

  lemma NoneYields(p: DeviceId, id: byte, k: Kind, peer: DeviceId, kind: Kind)
    ensures DropPaused([], p, id, k) == [] && !Yields([], p, id, k, peer, kind) && Mine([], peer, kind) == 0
  {
  }

  lemma DropPausedNext(routes: seq<Route>, r: Route, p: DeviceId, id: byte, k: Kind)
    ensures DropPaused(routes + [r], p, id, k) ==
            if Replaced(r, p, id, k) then DropPaused(routes, p, id, k) else DropPaused(routes, p, id, k) + [r]
  {
    hide Replaced;
    var kept := DropPaused(routes, p, id, k);
    assert (routes + [r])[..|routes|] == routes && kept + [] == kept;
  }

  lemma YieldsMine(routes: seq<Route>, p: DeviceId, id: byte, k: Kind, peer: DeviceId, kind: Kind)
    requires Yields(routes, p, id, k, peer, kind)
    ensures Mine(routes, peer, kind) > 0
  {
    hide Own;
    MineSome(routes, peer, kind);
    var r :| r in routes && Own(r, peer, kind) && Replaced(r, p, id, k);
    var i :| 0 <= i < |routes| && routes[i] == r;
  }

  lemma {:induction false} MineDropPaused(routes: seq<Route>, p: DeviceId, id: byte, k: Kind, peer: DeviceId, kind: Kind)
    requires Mine(routes, peer, kind) <= 1
    ensures Mine(DropPaused(routes, p, id, k), peer, kind) + One(Yields(routes, p, id, k, peer, kind)) == Mine(routes, peer, kind)
  {
    hide Yields, Own, Replaced, Mine, DropPaused;
    if routes == [] {
      NoneYields(p, id, k, peer, kind);
    } else {
      var front, last := routes[..|routes| - 1], routes[|routes| - 1];
      assert routes == front + [last];
      MineNext(front, last, peer, kind);
      MineDropPaused(front, p, id, k, peer, kind);
      YieldsNext(front, last, p, id, k, peer, kind);
      DropPausedNext(front, last, p, id, k);
      MineNext(DropPaused(front, p, id, k), last, peer, kind);
      if Yields(front, p, id, k, peer, kind) { YieldsMine(front, p, id, k, peer, kind); }
    }
  }

  lemma MineAccept(routes: seq<Route>, p: DeviceId, id: byte, k: Kind, opens: bool, ready: bool, now: nat, peer: DeviceId, kind: Kind)
    requires Mine(routes, peer, kind) <= 1
    ensures Mine(AcceptRoute(routes, p, id, k, opens, ready, now), peer, kind)
            + One(Yields(routes, p, id, k, peer, kind)) == Mine(routes, peer, kind)
  {
    hide Mine, DropPaused, Activate, HasKey, Yields;
    MineDropPaused(routes, p, id, k, peer, kind);
    var kept := DropPaused(routes, p, id, k);
    var r := Route(p, id, k, Starting, false, false, None, Some(now + START_DEADLINE_MS));
    MineNext(kept, r, peer, kind);
    MineActivate(kept + [r], p, id, peer, kind);
  }

  // ---------------------------------------------------------------- starting

  /** Starting a route takes the microphone feed away. */
  function TakesFeed(routes: seq<Route>, p: DeviceId, k: Kind, replace: bool, policy: Policy): Option<RouteKey> {
    if HasRunning(routes, p, k) || !policy.capable(routes, k) || !replace || k != ReceiveMicToVirtualMic then None
    else Feed(routes, p)
  }

  ghost predicate LosesFeed(routes: seq<Route>, p: DeviceId, k: Kind, replace: bool, policy: Policy, peer: DeviceId, kind: Kind) {
    var feed := TakesFeed(routes, p, k, replace, policy);
    feed.Some? && Hits(routes, feed.value.0, feed.value.1, peer, kind)
  }

  lemma NotRunning(routes: seq<Route>, peer: DeviceId, kind: Kind)
    requires NoneStopped(routes) && !HasRunning(routes, peer, kind)
    ensures Mine(routes, peer, kind) == 0
  {
    MineSome(routes, peer, kind);
    forall i | 0 <= i < |routes| ensures !Own(routes[i], peer, kind) { assert routes[i] in routes; }
  }

  /** The started kind counts once; any other is as before, unless its own route fed the microphone. */
  lemma MineStart(routes: seq<Route>, session: Option<byte>, p: DeviceId, k: Kind, replace: bool, policy: Policy, peer: DeviceId, kind: Kind)
    requires NoneStopped(routes) && Mine(routes, peer, kind) <= 1
    ensures var after := Mine(StartAs(routes, session, p, k, replace, policy).0, peer, kind);
            && after <= 1
            && (Mine(routes, peer, kind) == 1 ==> after == 1 - One(LosesFeed(routes, p, k, replace, policy, peer, kind)))
  {
    hide Mine, Hits, StopKey, HasRunning, Feed;
    if !HasRunning(routes, p, k) { NotRunning(routes, p, k); }
    var feed := if k == ReceiveMicToVirtualMic then Feed(routes, p) else None;
    var left := if feed.Some? then StopKey(routes, feed.value.0, feed.value.1) else routes;
    if feed.Some? { MineStop(routes, feed.value.0, feed.value.1, peer, kind); }
    if session.Some? { MineNext(left, Requested(p, session.value, k, policy.now), peer, kind); }
  }

  // ---------------------------------------------------------------- resuming

  lemma {:induction false} MineMark(routes: seq<Route>, q: DeviceId, k: Kind, keep: bool, peer: DeviceId, kind: Kind)
    ensures Mine(MarkKeep(routes, q, k, keep), peer, kind) == Mine(routes, peer, kind)
  {
    if routes != [] {
      var front, last := routes[..|routes| - 1], routes[|routes| - 1];
      MineMark(front, q, k, keep, peer, kind);
      MineNext(MarkKeep(front, q, k, keep), last, peer, kind);
      MineNext(front, last.(keep := keep), peer, kind);
    }
  }

  lemma {:induction false} MineRest(routes: seq<Route>, q: DeviceId, peer: DeviceId, kind: Kind)
    ensures Mine(Rest(routes, q), peer, kind) <= Mine(routes, peer, kind)
    ensures q != peer ==> Mine(Rest(routes, q), peer, kind) == Mine(routes, peer, kind)
  {
    if routes != [] {
      var front, last := routes[..|routes| - 1], routes[|routes| - 1];
      MineRest(front, q, peer, kind);
      MineNext(Rest(front, q), last, peer, kind);
      assert Rest(front, q) + [] == Rest(front, q);
    }
  }

  lemma NotThere(routes: seq<Route>, peer: DeviceId, kind: Kind)
    requires !Has(routes, peer, kind)
    ensures Mine(routes, peer, kind) == 0
  {
    MineSome(routes, peer, kind);
  }

  /** Resuming one kind of `q` leaves other devices' requests alone, and never doubles one. */
  lemma MineResumeOne(w: Work, q: DeviceId, k: Kind, policy: Policy, peer: DeviceId, kind: Kind)
    requires NoneStopped(w.routes) && (forall r :: r in w.paused ==> Resumable(r, q))
    ensures var after := Mine(ResumeOne(w, q, k, policy).routes, peer, kind);
            && (q != peer ==> after == Mine(w.routes, peer, kind))
            && (Mine(w.routes, peer, kind) <= 1 ==> after <= 1)
  {
    hide Mine, HasRunning, Has, MarkKeep, TakeKind;
    var (routes, _) := Start(w.routes, w.nextId, q, k, policy);
    if Startable(w.routes, q, k, policy) {
      NotRunning(w.routes, q, k);
      MineNext(w.routes, Requested(q, w.nextId, k, policy.now), peer, kind);
    }
    MineMark(routes, q, k, SavedKeep(policy.saved, q, k), peer, kind);
    TakeKindFinds(w.paused, k);
    if !Has(routes, q, k) {
      NotThere(routes, q, k);
      if TakeKind(w.paused, k).Some? { MineNext(routes, TakeKind(w.paused, k).value.0, peer, kind); }
    }
  }

  lemma {:induction false} MineResumeKinds(w: Work, q: DeviceId, kinds: seq<Kind>, policy: Policy, peer: DeviceId, kind: Kind)
    requires Extends(w.routes, w, q)
    ensures var v := ResumeKinds(w, q, kinds, policy);
            && Extends(w.routes, v, q)
            && (q != peer ==> Mine(v.routes, peer, kind) == Mine(w.routes, peer, kind))
            && (Mine(w.routes, peer, kind) <= 1 ==> Mine(v.routes, peer, kind) <= 1)
  {
    if kinds != [] {
      hide Mine, ResumeOne;
      var n := |kinds| - 1;
      MineResumeKinds(w, q, kinds[..n], policy, peer, kind);
      var v := ResumeKinds(w, q, kinds[..n], policy);
      ResumeOneExtends(w.routes, v, q, kinds[n], policy);
      MineResumeOne(v, q, kinds[n], policy, peer, kind);
    }
  }

  lemma MineResume(routes: seq<Route>, nextId: byte, q: DeviceId, policy: Policy, peer: DeviceId, kind: Kind)
    requires NoneStopped(routes) && Mine(routes, peer, kind) <= 1
    ensures var after := Mine(Resume(routes, nextId, q, policy).0, peer, kind);
            && after <= 1
            && (q != peer ==> after == Mine(routes, peer, kind))
  {
    hide Mine, ResumeKinds, AddSaved;
    RestNotStopped(routes, q);
    MineRest(routes, q, peer, kind);
    MineResumeKinds(Work(Rest(routes, q), nextId, Taken(routes, q)), q,
                    AddSaved(KindsOf(Taken(routes, q)), policy.saved, q, policy.resumeAll), policy, peer, kind);
  }

  /** A route of this kind that the peer asked for takes the place of this device's paused one. */
  ghost predicate Displaced(routes: seq<Route>, peer: DeviceId, kind: Kind) {
    && (exists r :: r in routes && Own(r, peer, kind) && r.status == Paused)
    && (exists r :: r in routes && r.peer == peer && r.kind == kind && !r.local)
  }

  lemma RestHas(routes: seq<Route>, peer: DeviceId, kind: Kind)
    requires Mine(routes, peer, kind) == 1 && exists r :: r in routes && Own(r, peer, kind) && r.status == Paused
    ensures !Wanted(Rest(routes, peer), peer, kind)
    ensures Has(Rest(routes, peer), peer, kind) <==> exists r :: r in routes && r.peer == peer && r.kind == kind && !r.local
  {
    var own :| own in routes && Own(own, peer, kind) && own.status == Paused;
    var i :| 0 <= i < |routes| && routes[i] == own;
    var rest := Rest(routes, peer);
    forall r | r in rest && r.peer == peer && r.kind == kind ensures r in routes && !r.local {
      Partition(routes, peer, r);
      var j :| 0 <= j < |routes| && routes[j] == r;
      if r.local { MineOnce(routes, peer, kind, i, j); }
    }
    if Has(rest, peer, kind) {
      var j :| 0 <= j < |rest| && rest[j].peer == peer && rest[j].kind == kind;
      assert rest[j] in rest;
    }
    if r :| r in routes && r.peer == peer && r.kind == kind && !r.local {
      Partition(routes, peer, r);
      var j :| 0 <= j < |rest| && rest[j] == r;
    }
  }

  /** After resuming, the kind is still this device's request unless it was displaced. */
  lemma ResumeExactly(routes: seq<Route>, nextId: byte, peer: DeviceId, policy: Policy, kind: Kind)
    requires NoneStopped(routes) && Mine(routes, peer, kind) == 1
    ensures var after := Resume(routes, nextId, peer, policy).0;
            && NoneStopped(after) && Has(after, peer, kind)
            && (Wanted(after, peer, kind) <==> !Displaced(routes, peer, kind))
  {
    MineSome(routes, peer, kind);
    var i :| 0 <= i < |routes| && Own(routes[i], peer, kind);
    var own := routes[i];
    hide Mine, Resume;
    if own.status == Paused {
      assert own in routes;
      ResumeKeeps(routes, nextId, peer, policy, own);
      RestHas(routes, peer, kind);
    } else {
      KeptAnyway(routes, nextId, peer, policy, kind, i);
    }
  }

  lemma ResumeExtends(routes: seq<Route>, nextId: byte, peer: DeviceId, policy: Policy)
    requires NoneStopped(routes)
    ensures Grows(Rest(routes, peer), Resume(routes, nextId, peer, policy).0) && NoneStopped(Resume(routes, nextId, peer, policy).0)
  {
    hide ResumeKinds, AddSaved;
    RestNotStopped(routes, peer);
    MineResumeKinds(Work(Rest(routes, peer), nextId, Taken(routes, peer)), peer,
                    AddSaved(KindsOf(Taken(routes, peer)), policy.saved, peer, policy.resumeAll), policy, peer, SendMixed);
  }

  lemma KeptAnyway(routes: seq<Route>, nextId: byte, peer: DeviceId, policy: Policy, kind: Kind, i: nat)
    requires NoneStopped(routes) && Mine(routes, peer, kind) == 1
    requires i < |routes| && Own(routes[i], peer, kind) && routes[i].status != Paused
    ensures var after := Resume(routes, nextId, peer, policy).0;
            && NoneStopped(after) && Has(after, peer, kind) && Wanted(after, peer, kind) && !Displaced(routes, peer, kind)
  {
    hide Mine, Resume, Rest;
    var own, rest := routes[i], Rest(routes, peer);
    Partition(routes, peer, own);
    forall r | r in routes && Own(r, peer, kind) ensures r == own {
      var j :| 0 <= j < |routes| && routes[j] == r;
      MineOnce(routes, peer, kind, i, j);
    }
    assert own in rest;
    var j :| 0 <= j < |rest| && rest[j] == own;
    ResumeExtends(routes, nextId, peer, policy);
    var after := Resume(routes, nextId, peer, policy).0;
    assert after[j] == own.(keep := after[j].keep) && after[j] in after;
  }
}
