/** The engine actor as the program keeps it: one object whose event handlers update its tables. */
module Actors {
  import opened Common
  import opened Routes
  import opened Node

  // ---------------------------------------------------------------- searching lists

  /** The first paused route of a kind is the one that is taken out. */
  lemma {:induction false} TakeKindAt(paused: seq<Route>, kind: Kind, i: nat)
    requires i < |paused| && paused[i].kind == kind && forall j :: 0 <= j < i ==> paused[j].kind != kind
    ensures TakeKind(paused, kind) == Some((paused[i], paused[..i] + paused[i + 1..]))
  {
    if i == 0 {
      assert paused[..0] + paused[1..] == paused[1..];
    } else {
      TakeKindAt(paused[1..], kind, i - 1);
      assert paused[1..][i - 1] == paused[i];
      assert [paused[0]] + (paused[1..][..i - 1] + paused[1..][i..]) == paused[..i] + paused[i + 1..];
    }
  }

  /** The newest matching route is the one that is marked. */
  lemma {:induction false} MarkKeepAt(routes: seq<Route>, peer: DeviceId, kind: Kind, keep: bool, i: nat)
    requires i < |routes| && routes[i].peer == peer && routes[i].kind == kind
    requires forall j :: i < j < |routes| ==> !(routes[j].peer == peer && routes[j].kind == kind)
    ensures MarkKeep(routes, peer, kind, keep) == routes[i := routes[i].(keep := keep)]
  {
    if i < |routes| - 1 { MarkKeepAt(routes[..|routes| - 1], peer, kind, keep, i); }
  }

  /** The first route with a key. */
  ghost predicate FirstAt(routes: seq<Route>, i: nat, peer: DeviceId, id: byte) {
    i < |routes| && KeyIs(routes[i], peer, id) && !HasKey(routes[..i], peer, id)
  }

  lemma {:induction false} FirstIsStopped(routes: seq<Route>, i: nat, peer: DeviceId, id: byte)
    requires FirstAt(routes, i, peer, id)
    ensures StopKey(routes, peer, id) == routes[..i] + routes[i + 1..]
  {
    hide KeyIs;
    var n := |routes| - 1;
    if i < n {
      var front := routes[..n];
      assert front[..i] == routes[..i] && front[i] == routes[i];
      FirstIsStopped(front, i, peer, id);
      assert front[..i] + front[i + 1..] + [routes[n]] == routes[..i] + routes[i + 1..];
    } else {
      assert routes[..n] + routes[n + 1..] == routes[..n];
    }
  }

  lemma {:induction false} FirstIsMarked(routes: seq<Route>, i: nat, peer: DeviceId, id: byte, keep: bool)
    requires FirstAt(routes, i, peer, id)
    ensures SetKeep(routes, peer, id, keep) == routes[i := routes[i].(keep := keep)]
  {
    hide KeyIs;
    var n := |routes| - 1;
    if i < n {
      var front := routes[..n];
      assert front[..i] == routes[..i] && front[i] == routes[i];
      FirstIsMarked(front, i, peer, id, keep);
    }
  }

  lemma {:induction false} FirstIsActivated(routes: seq<Route>, i: nat, peer: DeviceId, id: byte)
    requires FirstAt(routes, i, peer, id)
    ensures Activate(routes, peer, id) ==
            if routes[i].status == Starting then routes[i := routes[i].(status := Active, deadline := None)] else routes
  {
    hide KeyIs;
    var n := |routes| - 1;
    if i < n {
      var front := routes[..n];
      assert front[..i] == routes[..i] && front[i] == routes[i];
      FirstIsActivated(front, i, peer, id);
    }
  }

  lemma {:induction false} NoneToMark(routes: seq<Route>, peer: DeviceId, id: byte, keep: bool)
    requires !HasKey(routes, peer, id)
    ensures StopKey(routes, peer, id) == routes && SetKeep(routes, peer, id, keep) == routes && Activate(routes, peer, id) == routes
  {
    hide KeyIs;
    if routes != [] {
      assert KeyIs(routes[|routes| - 1], peer, id) == false;
      assert forall i :: 0 <= i < |routes| - 1 ==> routes[..|routes| - 1][i] == routes[i];
    }
  }

  /** The first waiting route with a key is the one an answer is for. */
  lemma {:induction false} AnswerAt(routes: seq<Route>, i: nat, peer: DeviceId, id: byte)
    requires i < |routes| && KeyIs(routes[i], peer, id) && routes[i].status == Requesting
    requires forall j :: 0 <= j < i ==> !(KeyIs(routes[j], peer, id) && routes[j].status == Requesting)
    ensures TakeRequested(routes, peer, id) == (Some(routes[i]), routes[..i] + routes[i + 1..])
  {
    hide KeyIs;
    var n := |routes| - 1;
    if i < n {
      AnswerAt(routes[..n], i, peer, id);
      assert routes[..n][..i] + routes[..n][i + 1..] + [routes[n]] == routes[..i] + routes[i + 1..];
    } else {
      NoAnswer(routes[..n], peer, id);
      assert routes[..n] + routes[n + 1..] == routes[..n];
    }
  }

  lemma {:induction false} NoAnswer(routes: seq<Route>, peer: DeviceId, id: byte)
    requires forall j :: 0 <= j < |routes| ==> !(KeyIs(routes[j], peer, id) && routes[j].status == Requesting)
    ensures TakeRequested(routes, peer, id) == (None, routes)
  {
    if routes != [] { NoAnswer(routes[..|routes| - 1], peer, id); }
  }

  lemma {:induction false} FeedIsFirst(routes: seq<Route>, except: DeviceId)
    ensures MicFed(routes, except) <==> Feed(routes, except).Some?
  {
    if routes != [] {
      var n := |routes| - 1;
      FeedIsFirst(routes[..n], except);
      if MicFed(routes[..n], except) {
        var i :| 0 <= i < n && routes[..n][i].kind == ReceiveMicToVirtualMic && routes[..n][i].status != Stopped && routes[..n][i].peer != except;
        assert routes[i].kind == ReceiveMicToVirtualMic;
      }
      if i :| 0 <= i < n && routes[i].kind == ReceiveMicToVirtualMic && routes[i].status != Stopped && routes[i].peer != except {
        assert routes[..n][i].kind == ReceiveMicToVirtualMic;
      }
    }
  }

  /** Resuming starts routes as a user would, never taking a microphone feed. */
  lemma StartsPlainly(routes: seq<Route>, nextId: byte, peer: DeviceId, kind: Kind, policy: Policy)
    ensures var (r, next) := StartAs(routes, Some(nextId), peer, kind, false, policy);
            next.Some? && (r, next.value) == Start(routes, nextId, peer, kind, policy)
  {
    hide HasRunning, MicFed, Feed;
    FeedIsFirst(routes, peer);
  }

  /** Take the first paused route of this kind out of the list. */
  method TakePaused(paused: seq<Route>, kind: Kind) returns (found: Option<Route>, rest: seq<Route>)
    ensures match TakeKind(paused, kind)
            case Some(p) => found == Some(p.0) && rest == p.1
            case None => found.None? && rest == paused
  {
    for i := 0 to |paused|
      invariant forall j :: 0 <= j < i ==> paused[j].kind != kind
    {
      if paused[i].kind == kind {
        TakeKindAt(paused, kind, i);
        return Some(paused[i]), paused[..i] + paused[i + 1..];
      }
    }
    NoneToTake(paused, kind);
    return None, paused;
  }

  lemma {:induction false} NoneToTake(paused: seq<Route>, kind: Kind)
    requires forall j :: 0 <= j < |paused| ==> paused[j].kind != kind
    ensures TakeKind(paused, kind).None?
  {
    if paused != [] { NoneToTake(paused[1..], kind); }
  }

  /** Kinds to resume: those of the paused routes, then the saved ones not listed yet. */
  method KindsToResume(paused: seq<Route>, peer: DeviceId, policy: Policy) returns (kinds: seq<Kind>)
    ensures kinds == AddSaved(KindsOf(paused), policy.saved, peer, policy.resumeAll)
  {
    kinds := [];
    for i := 0 to |paused|
      invariant kinds == KindsOf(paused[..i])
    {
      assert paused[..i + 1][..i] == paused[..i];
      kinds := kinds + [paused[i].kind];
    }
    assert paused[..|paused|] == paused;
    for i := 0 to |policy.saved|
      invariant AddSaved(kinds, policy.saved[i..], peer, policy.resumeAll) ==
                AddSaved(KindsOf(paused), policy.saved, peer, policy.resumeAll)
    {
      var s := policy.saved[i];
      assert policy.saved[i..][1..] == policy.saved[i + 1..];
      if s.peer == peer && (s.keep || policy.resumeAll) && s.kind !in kinds { kinds := kinds + [s.kind]; }
    }
  }

  class Actor {
    const me: Identity
    var trust: map<DeviceId, Trusted>
    var sessions: map<DeviceId, Session>
    var connIndex: map<ConnId, DeviceId>
    var pairings: map<DeviceId, Pairing>
    var unpaired: map<ConnId, Est>
    var dials: map<DeviceId, bool>
    var dialTargets: map<ConnId, DeviceId>
    var pairDials: map<ConnId, bool>
    var nextConn: ConnId
    var qr: Option<Qr>
    var routes: seq<Route>
    var outbox: seq<(ConnId, Reason)>

    ghost function Abs(): State
      reads this
    {
      State(Tables(trust, sessions, connIndex, pairings, unpaired), Dials(dials, dialTargets, pairDials, nextConn),
            qr, routes, outbox)
    }

    constructor (me: Identity, trust: map<DeviceId, Trusted>)
      ensures this.me == me
      ensures Abs() == State(Tables(trust, map[], map[], map[], map[]), Dials(map[], map[], map[], 1), None, [], [])
    {
      this.me, this.trust := me, trust;
      sessions, connIndex, pairings, unpaired := map[], map[], map[], map[];
      dials, dialTargets, pairDials, nextConn := map[], map[], map[], 1;
      qr, routes, outbox := None, [], [];
    }

    method SendClose(conn: ConnId, reason: Reason)
      modifies this`outbox
      ensures outbox == old(outbox) + [(conn, reason)]
    {
      outbox := outbox + [(conn, reason)];
    }

    // -------------------------------------------------------------- dialing

    method DialOut(target: Option<DeviceId>) returns (conn: ConnId)
      modifies this`nextConn, this`dialTargets
      ensures Abs() == old(Abs()).(d := StartDial(old(Abs()).d, target)) && conn == old(nextConn)
    {
      conn := nextConn;
      nextConn := nextConn + 1;
      if target.Some? { dialTargets := dialTargets[conn := target.value]; }
    }

    method CancelDialOf(id: DeviceId)
      modifies this`dials, this`dialTargets
      ensures Abs() == old(Abs()).(d := CancelDial(old(Abs()).d, id))
    {
      if id in dials { dials := dials[id := false]; }
      dialTargets := map c | c in dialTargets && dialTargets[c] != id :: dialTargets[c];
    }

    method TryDialTrusted(id: DeviceId, due: bool, reachable: bool)
      modifies this`dials, this`dialTargets, this`nextConn
      ensures Abs() == old(Abs()).(d := TryDial(old(Abs()).t, old(Abs()).d, id, due, reachable))
    {
      if id in sessions || id !in trust || trust[id].blocked { return; }
      if id !in dials { dials := dials[id := false]; }
      if dials[id] || !due || !reachable { return; }
      dials := dials[id := true];
      var _ := DialOut(Some(id));
    }

    method ConnectTo(id: DeviceId, reachable: bool)
      modifies this`dials, this`dialTargets, this`nextConn
      ensures Abs() == old(Abs()).(d := Connect(old(Abs()).t, old(Abs()).d, id, reachable))
    {
      if id !in dials { dials := dials[id := false]; }
      TryDialTrusted(id, true, reachable);
    }

    /** Pair with a scanned QR code (pinned to its device), or with an address or a discovered device. */
    method DialToPair(target: Option<DeviceId>)
      modifies this`nextConn, this`dialTargets, this`pairDials
      ensures Abs() == old(Abs()).(d := PairDial(old(Abs()).d, target))
    {
      var conn := DialOut(target);
      pairDials := pairDials[conn := target.Some?];
    }

    method OnDialFailed(conn: ConnId, target: Option<DeviceId>)
      modifies this`dials, this`dialTargets, this`pairDials
      ensures Abs() == old(Abs()).(d := DialFailed(old(Abs()).t, old(Abs()).d, conn, target))
    {
      pairDials := pairDials - {conn};
      dialTargets := dialTargets - {conn};
      if target.Some? && target.value in trust { dials := dials[target.value := false]; }
    }

    method OnHandshakeFailed(conn: ConnId)
      modifies this`dials, this`dialTargets, this`pairDials
      ensures Abs() == old(Abs()).(d := HandshakeFailed(old(Abs()).d, conn))
    {
      pairDials := pairDials - {conn};
      if conn in dialTargets {
        var id := dialTargets[conn];
        if id in dials { dials := dials[id := false]; }
      }
      dialTargets := dialTargets - {conn};
    }

    // -------------------------------------------------------------- routes

    method PauseRoutesFor(peer: DeviceId, now: nat)
      modifies this`routes
      ensures routes == Pause(old(routes), peer, now)
    {
      ghost var before := routes;
      for i := 0 to |routes|
        invariant |routes| == |before|
        invariant forall j :: 0 <= j < i ==> routes[j] == PauseOne(before[j], peer, now)
        invariant forall j :: i <= j < |before| ==> routes[j] == before[j]
      {
        var r := routes[i];
        if r.peer == peer {
          match r.status {
            case Active => routes := routes[i := r.(status := Paused, pausedAt := Some(now))];
            case Paused =>
            case _ =>
              routes := routes[i := if r.local then r.(status := Paused, pausedAt := Some(now)) else r.(status := Stopped)];
          }
        }
      }
      assert routes == PauseAll(before, peer, now);
      var kept := [];
      for i := 0 to |routes|
        invariant routes == PauseAll(before, peer, now) && kept == Live(routes[..i])
      {
        assert routes[..i + 1][..i] == routes[..i];
        if routes[i].status != Stopped { kept := kept + [routes[i]]; }
      }
      assert routes[..|routes|] == routes;
      routes := kept;
    }

    method RemoveRoutesFor(peer: DeviceId)
      modifies this`routes
      ensures routes == Without(old(routes), peer)
    {
      var kept := [];
      for i := 0 to |routes|
        invariant routes == old(routes) && kept == Without(routes[..i], peer)
      {
        assert routes[..i + 1][..i] == routes[..i];
        if routes[i].peer != peer { kept := kept + [routes[i]]; }
      }
      assert routes[..|routes|] == routes;
      routes := kept;
    }

    /** The route that feeds the virtual microphone, unless it is that device's own. */
    method FindFeed(except: DeviceId) returns (feed: Option<(DeviceId, byte)>)
      ensures feed == Feed(routes, except)
    {
      feed := None;
      for i := 0 to |routes|
        invariant feed == Feed(routes[..i], except)
      {
        assert routes[..i + 1][..i] == routes[..i];
        var r := routes[i];
        if feed.None? && r.kind == ReceiveMicToVirtualMic && r.status != Stopped && r.peer != except {
          feed := Some((r.peer, r.id));
        }
      }
      assert routes[..|routes|] == routes;
    }

    method FindRoute(peer: DeviceId, id: byte) returns (found: Option<nat>)
      ensures match found
              case Some(i) => FirstAt(routes, i, peer, id)
              case None => !HasKey(routes, peer, id)
    {
      for i := 0 to |routes|
        invariant !HasKey(routes[..i], peer, id)
      {
        if routes[i].peer == peer && routes[i].id == id { return Some(i); }
        assert forall j :: 0 <= j < i ==> routes[..i + 1][j] == routes[..i][j];
      }
      assert routes[..|routes|] == routes;
      return None;
    }

    method StopRouteByKey(peer: DeviceId, id: byte)
      modifies this`routes
      ensures routes == StopKey(old(routes), peer, id)
    {
      var found := FindRoute(peer, id);
      match found {
        case Some(i) =>
          FirstIsStopped(routes, i, peer, id);
          routes := routes[..i] + routes[i + 1..];
        case None => NoneToMark(routes, peer, id, false);
      }
    }

    /** Ask for a route, perhaps in place of another device's microphone feed; nothing happens if it runs
        already or may not start. `session` is the next id of the session with the peer. */
    method StartRoute(peer: DeviceId, session: Option<byte>, kind: Kind, replace: bool, policy: Policy) returns (next: Option<byte>)
      modifies this`routes
      ensures (routes, next) == StartAs(old(routes), session, peer, kind, replace, policy)
    {
      next := session;
      if HasRunning(routes, peer, kind) { return; }
      if !policy.capable(routes, kind) { return; }
      if kind == ReceiveMicToVirtualMic {
        var feed := FindFeed(peer);
        if feed.Some? {
          if !replace { return; }
          StopRouteByKey(feed.value.0, feed.value.1);
        }
      }
      if session.None? { return; }
      routes := routes + [Requested(peer, session.value, kind, policy.now)];
      next := Some(NextId(session.value));
    }

    /** The user's start: ids come from the session with the peer. */
    method StartRouteFor(peer: DeviceId, kind: Kind, replace: bool, policy: Policy)
      modifies this`routes, this`sessions
      ensures Abs() == Node.StartRoute(old(Abs()), peer, kind, replace, policy)
    {
      hide StartAs;
      var session := if peer in sessions then Some(sessions[peer].nextRoute) else None;
      var next := StartRoute(peer, session, kind, replace, policy);
      if peer in sessions && next.Some? { sessions := sessions[peer := sessions[peer].(nextRoute := next.value)]; }
    }

    /** The tick: stop what is overdue or paused for too long. */
    method SweepRoutes(now: nat)
      modifies this`routes
      ensures routes == Sweep(old(routes), now)
    {
      var keys := [];
      for i := 0 to |routes|
        invariant routes == old(routes) && keys == DueKeys(routes[..i], now)
      {
        assert routes[..i + 1][..i] == routes[..i];
        if Due(routes[i], now) { keys := keys + [(routes[i].peer, routes[i].id)]; }
      }
      assert routes[..|routes|] == routes;
      for i := 0 to |keys|
        invariant routes == StopKeys(old(routes), keys[..i])
      {
        assert keys[..i + 1][..i] == keys[..i];
        StopRouteByKey(keys[i].0, keys[i].1);
      }
      assert keys[..|keys|] == keys;
    }

    method ActivateRoute(peer: DeviceId, id: byte)
      modifies this`routes
      ensures routes == Activate(old(routes), peer, id)
    {
      var found := FindRoute(peer, id);
      match found {
        case Some(i) =>
          FirstIsActivated(routes, i, peer, id);
          if routes[i].status == Starting { routes := routes[i := routes[i].(status := Active, deadline := None)]; }
        case None => NoneToMark(routes, peer, id, false);
      }
    }

    method SetKeepRunning(peer: DeviceId, id: byte, keep: bool)
      modifies this`routes
      ensures routes == SetKeep(old(routes), peer, id, keep)
    {
      var found := FindRoute(peer, id);
      match found {
        case Some(i) =>
          FirstIsMarked(routes, i, peer, id, keep);
          routes := routes[i := routes[i].(keep := keep)];
        case None => NoneToMark(routes, peer, id, keep);
      }
    }

    /** The peer accepted a request. */
    method OnRouteAccept(peer: DeviceId, id: byte, opens: bool, ready: bool, now: nat)
      modifies this`routes
      ensures routes == RouteAccepted(old(routes), peer, id, opens, ready, now)
    {
      for i := 0 to |routes|
        invariant routes == old(routes)
        invariant forall j :: 0 <= j < i ==> !(KeyIs(routes[j], peer, id) && routes[j].status == Requesting)
      {
        if KeyIs(routes[i], peer, id) && routes[i].status == Requesting {
          AnswerAt(routes, i, peer, id);
          var r := routes[i];
          routes := routes[..i] + routes[i + 1..];
          if opens {
            routes := routes + [r.(status := Starting, deadline := Some(now + START_DEADLINE_MS))];
            if ready { ActivateRoute(peer, id); }
          }
          return;
        }
      }
      NoAnswer(routes, peer, id);
    }

    /** This device accepts a route the peer asked for; paused entries it replaces go. */
    method AcceptRouteFrom(peer: DeviceId, id: byte, kind: Kind, opens: bool, ready: bool, now: nat)
      modifies this`routes
      ensures routes == AcceptRoute(old(routes), peer, id, kind, opens, ready, now)
    {
      var kept := [];
      for i := 0 to |routes|
        invariant routes == old(routes) && kept == DropPaused(routes[..i], peer, id, kind)
      {
        assert routes[..i + 1][..i] == routes[..i];
        if !Replaced(routes[i], peer, id, kind) { kept := kept + [routes[i]]; }
      }
      assert routes[..|routes|] == routes;
      routes := kept;
      var duplicate := FindRoute(peer, id);
      if duplicate.Some? || !opens {
        assert duplicate.Some? ==> HasKey(routes, peer, id);
        return;
      }
      routes := routes + [Route(peer, id, kind, Starting, false, false, None, Some(now + START_DEADLINE_MS))];
      if ready { ActivateRoute(peer, id); }
    }

    method MarkNewest(peer: DeviceId, kind: Kind, keep: bool)
      requires Has(routes, peer, kind)
      modifies this`routes
      ensures routes == MarkKeep(old(routes), peer, kind, keep)
    {
      var i := |routes|;
      while i > 0 && !(routes[i - 1].peer == peer && routes[i - 1].kind == kind)
        invariant 0 <= i <= |routes|
        invariant forall j :: i <= j < |routes| ==> !(routes[j].peer == peer && routes[j].kind == kind)
      {
        i := i - 1;
      }
      MarkKeepAt(routes, peer, kind, keep, i - 1);
      routes := routes[i - 1 := routes[i - 1].(keep := keep)];
    }

    /** This device's paused routes are taken out of the list. */
    method TakeResumable(peer: DeviceId) returns (paused: seq<Route>)
      modifies this`routes
      ensures paused == Taken(old(routes), peer) && routes == Rest(old(routes), peer)
    {
      paused := [];
      var rest := [];
      for i := 0 to |routes|
        invariant routes == old(routes) && paused == Taken(routes[..i], peer) && rest == Rest(routes[..i], peer)
      {
        assert routes[..i + 1][..i] == routes[..i];
        if Resumable(routes[i], peer) { paused := paused + [routes[i]]; } else { rest := rest + [routes[i]]; }
      }
      assert routes[..|routes|] == routes;
      routes := rest;
    }

    /** Take this device's paused routes out, then start each kind or put its paused entry back. */
    method ResumeRoutes(peer: DeviceId, firstId: byte, policy: Policy) returns (nextId: byte)
      modifies this`routes
      ensures (routes, nextId) == Resume(old(routes), firstId, peer, policy)
    {
      hide Taken, Rest, AddSaved, KindsOf, ResumeOne;
      var paused := TakeResumable(peer);
      var kinds := KindsToResume(paused, peer, policy);
      nextId := firstId;
      ghost var w := Work(routes, firstId, paused);
      for i := 0 to |kinds|
        invariant Work(routes, nextId, paused) == ResumeKinds(w, peer, kinds[..i], policy)
      {
        assert kinds[..i + 1][..i] == kinds[..i];
        nextId, paused := ResumeKind(peer, nextId, paused, kinds[i], policy);
      }
      assert kinds[..|kinds|] == kinds;
    }

    method ResumeKind(peer: DeviceId, nextId: byte, paused: seq<Route>, kind: Kind, policy: Policy) returns (next: byte, left: seq<Route>)
      modifies this`routes
      ensures Work(routes, next, left) == ResumeOne(Work(old(routes), nextId, paused), peer, kind, policy)
    {
      left := paused;
      StartsPlainly(routes, nextId, peer, kind, policy);
      var started := StartRoute(peer, Some(nextId), kind, false, policy);
      next := started.value;
      if Has(routes, peer, kind) {
        MarkNewest(peer, kind, SavedKeep(policy.saved, peer, kind));
      } else {
        var found;
        found, left := TakePaused(paused, kind);
        if found.Some? { routes := routes + [found.value]; }
      }
    }

    // -------------------------------------------------------------- sessions

    method PromoteSession(id: DeviceId, est: Est, a: Ambient)
      modifies this
      ensures Abs() == Promote(me, old(Abs()), id, est, a)
    {
      hide Pause, Resume;
      if id in sessions {
        var prior := sessions[id];
        if KeepsPrior(me, id, prior, est, a.policy.now) {
          SendClose(est.conn, Superseded);
          CancelDialOf(id);
          return;
        }
        sessions := sessions - {id};
        connIndex := connIndex - {prior.est.conn};
        SendClose(prior.est.conn, Superseded);
        PauseRoutesFor(id, a.policy.now);
      }
      CancelDialOf(id);
      connIndex := connIndex[est.conn := id];
      var nextRoute := ResumeRoutes(id, FirstRouteId(est), a.policy);
      sessions := sessions[id := Session(est, a.policy.now, nextRoute)];
    }

    method OnEstablishedEvent(est: Est, a: Ambient)
      modifies this
      ensures Abs() == OnEstablished(me, old(Abs()), est, a)
    {
      hide Promote;
      dialTargets := dialTargets - {est.conn};
      var isPair, scanner := est.conn in pairDials, est.conn in pairDials && pairDials[est.conn];
      pairDials := pairDials - {est.conn};
      var id := me.idOf(est.key);
      if id in trust {
        if trust[id].blocked || trust[id].key != est.key { SendClose(est.conn, PermissionDenied); }
        else { PromoteSession(id, est, a); }
      } else if est.dialed {
        if isPair { BeginPairingWith(id, est, scanner, a); }
        else { SendClose(est.conn, PermissionDenied); }
      } else if !a.allowed {
        SendClose(est.conn, RateLimited);
      } else {
        unpaired := unpaired[est.conn := est];
      }
    }

    /** Pairings are told apart by their connection. */
    ghost predicate Distinct()
      reads this
    {
      forall a, b :: a in pairings && b in pairings && a != b ==> pairings[a].est.conn != pairings[b].est.conn
    }

    method FindPairing(conn: ConnId) returns (found: Option<DeviceId>)
      requires Distinct()
      ensures found == PairingOn(Abs().t, conn)
    {
      var ids := pairings.Keys;
      while ids != {}
        invariant ids <= pairings.Keys
        invariant forall id :: id in pairings && id !in ids ==> pairings[id].est.conn != conn
        decreases |ids|
      {
        var id :| id in ids;
        if pairings[id].est.conn == conn { return Some(id); }
        ids := ids - {id};
      }
      return None;
    }

    method LeaveWaiting(conn: ConnId)
      requires Distinct()
      modifies this`unpaired, this`pairings
      ensures Abs() == old(Abs()).(t := DropWaiting(old(Abs()).t, conn))
    {
      var found := FindPairing(conn);
      unpaired := unpaired - {conn};
      if found.Some? { pairings := pairings - {found.value}; }
    }

    method OnClosedEvent(conn: ConnId, reason: Reason, now: nat)
      requires Distinct()
      modifies this
      ensures Abs() == OnClosed(old(Abs()), conn, reason, now)
    {
      hide SessionEnded, DropWaiting;
      LeaveWaiting(conn);
      if conn !in connIndex { return; }
      var id := connIndex[conn];
      connIndex := connIndex - {conn};
      if id !in sessions || sessions[id].est.conn != conn { return; }
      sessions := sessions - {id};
      AfterSession(id, reason, now);
    }

    method NoAutoConnect(id: DeviceId)
      modifies this`trust
      ensures trust == SetAuto(old(trust), id, false)
    {
      if id in trust { trust := trust[id := trust[id].(autoConnect := false)]; }
    }

    method ForgetDialOf(id: DeviceId)
      modifies this`dials, this`dialTargets
      ensures Abs() == old(Abs()).(d := DropDial(old(Abs()).d, id))
    {
      CancelDialOf(id);
      dials := dials - {id};
    }

    method AfterSession(id: DeviceId, reason: Reason, now: nat)
      modifies this
      ensures Abs() == SessionEnded(old(Abs()), id, reason, now)
    {
      hide Pause, Without, SetAuto, DropDial;
      if reason == PermissionDenied || reason == PermissionRevoked {
        RemoveRoutesFor(id);
        ForgetDialOf(id);
        NoAutoConnect(id);
      } else if reason == UserStopped {
        RemoveRoutesFor(id);
      } else {
        PauseRoutesFor(id, now);
        if id in trust && trust[id].autoConnect { dials := dials[id := false]; }
      }
    }

    // -------------------------------------------------------------- pairing

    method BeginPairingWith(id: DeviceId, est: Est, qrScanner: bool, a: Ambient)
      modifies this`pairings, this`outbox
      ensures Abs() == BeginPairing(old(Abs()), id, est, qrScanner, a)
    {
      if !a.exporterOk {
        SendClose(est.conn, Unspecified);
        return;
      }
      if id in pairings { SendClose(pairings[id].est.conn, Superseded); }
      pairings := pairings[id := Pairing(est, false, false, qrScanner)];
    }

    method AbandonPairing(id: DeviceId, reason: Reason)
      modifies this`pairings, this`outbox
      ensures Abs() == EndPairing(old(Abs()), id, reason)
    {
      if id in pairings {
        SendClose(pairings[id].est.conn, reason);
        pairings := pairings - {id};
      }
    }

    method CompletePairing(id: DeviceId, a: Ambient)
      modifies this
      ensures Abs() == Complete(me, old(Abs()), id, a)
    {
      if id !in pairings { return; }
      var p := pairings[id];
      pairings := pairings - {id};
      trust := trust[id := Trusted(p.est.key, false, true)];
      if a.saved { PromoteSession(id, p.est, a); }
    }

    method ConfirmPairing(id: DeviceId, accept: bool, a: Ambient)
      modifies this
      ensures Abs() == Confirm(me, old(Abs()), id, accept, a)
    {
      if id !in pairings { return; }
      if !accept {
        AbandonPairing(id, PermissionDenied);
        return;
      }
      var p := pairings[id];
      pairings := pairings[id := p.(localConfirmed := true)];
      if p.peerConfirmed { CompletePairing(id, a); }
    }

    method OnPairRequestFrom(est: Est, proof: Option<Proof>, a: Ambient)
      modifies this
      ensures Abs() == OnPairRequest(me, old(Abs()), est, proof, a)
    {
      hide Complete;
      var id := me.idOf(est.key);
      if proof.Some? && qr.Some? && a.nowUnix <= qr.value.expires && me.verify(qr.value.secret, est.key, proof.value) {
        qr := None;
        BeginPairingWith(id, est, false, a);
        if id in pairings { pairings := pairings[id := pairings[id].(localConfirmed := true, peerConfirmed := true)]; }
        CompletePairing(id, a);
      } else if proof.None? && qr.Some? {
        BeginPairingWith(id, est, false, a);
      } else {
        SendClose(est.conn, PermissionDenied);
      }
    }

    method OnControlMsg(conn: ConnId, msg: Msg, a: Ambient)
      requires Distinct()
      modifies this
      ensures Abs() == OnControl(me, old(Abs()), conn, msg, a)
    {
      if conn in unpaired {
        var est := unpaired[conn];
        unpaired := unpaired - {conn};
        if msg.PairRequest? { OnPairRequestFrom(est, msg.proof, a); }
        else { SendClose(conn, PermissionDenied); }
        return;
      }
      var found := FindPairing(conn);
      if found.None? {
        if conn in connIndex { OnRouteMessage(connIndex[conn], msg, a.policy.now); }
        return;
      }
      if !msg.PairResult? { return; }
      var id := found.value;
      if !msg.accepted {
        AbandonPairing(id, PermissionDenied);
        return;
      }
      var p := pairings[id];
      pairings := pairings[id := p.(peerConfirmed := true)];
      if p.qrScanner || p.localConfirmed { CompletePairing(id, a); }
    }

    method OnRouteMessage(peer: DeviceId, msg: Msg, now: nat)
      modifies this`routes
      ensures routes == OnRouteMsg(old(routes), peer, msg, now)
    {
      match msg {
        case RouteAccept(route, opens, ready) => OnRouteAccept(peer, route, opens, ready, now);
        case RouteStop(route) => StopRouteByKey(peer, route);
        case _ =>
      }
    }

    // -------------------------------------------------------------- commands

    method EndSessionWith(id: DeviceId, reason: Reason)
      modifies this`sessions, this`connIndex, this`outbox
      ensures Abs() == old(Abs()).(t := Unlink(old(Abs()).t, id), outbox := old(outbox) + CloseOf(old(Abs()).t, id, reason))
    {
      if id in sessions {
        var conn := sessions[id].est.conn;
        sessions := sessions - {id};
        connIndex := connIndex - {conn};
        SendClose(conn, reason);
      }
    }

    method DisconnectFrom(id: DeviceId)
      modifies this
      ensures Abs() == Disconnect(old(Abs()), id)
    {
      ForgetDialOf(id);
      EndSessionWith(id, UserStopped);
      RemoveRoutesFor(id);
      NoAutoConnect(id);
    }

    method RevokeDevice(id: DeviceId)
      modifies this
      ensures Abs() == Revoke(old(Abs()), id)
    {
      RemoveRoutesFor(id);
      ForgetDialOf(id);
      EndSessionWith(id, PermissionRevoked);
    }

    method ForgetDevice(id: DeviceId)
      modifies this
      ensures Abs() == Forget(old(Abs()), id)
    {
      RevokeDevice(id);
      trust := trust - {id};
    }

    method BlockDevice(id: DeviceId, blocked: bool)
      modifies this
      ensures Abs() == SetBlocked(old(Abs()), id, blocked)
    {
      if id in trust { trust := trust[id := trust[id].(blocked := blocked)]; }
      if blocked { RevokeDevice(id); }
    }

    method DropStaleConnection(conn: ConnId)
      modifies this`unpaired, this`outbox
      ensures Abs() == DropUnpaired(old(Abs()), conn)
    {
      if conn in unpaired {
        unpaired := unpaired - {conn};
        SendClose(conn, Timeout);
      }
    }
  }
}
