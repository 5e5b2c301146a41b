/** A drop followed by a reconnect, through the node's own events. */
module Reconnect {
  import opened Common
  import opened Routes
  import opened Node
  import opened NodeTheorems
  import opened RouteLife

  /** The peer itself asked for a route of this kind that is running or paused. */
  ghost predicate Foreign(routes: seq<Route>, peer: DeviceId, kind: Kind) {
    exists r :: r in routes && r.peer == peer && r.kind == kind && !r.local && (r.status == Active || r.status == Paused)
  }

  lemma RestIsForeign(routes: seq<Route>, peer: DeviceId, now: nat, r: Route)
    requires r in Rest(Pause(routes, peer, now), peer) && r.peer == peer
    ensures !r.local && Foreign(routes, peer, r.kind)
  {
    Partition(Pause(routes, peer, now), peer, r);
    PauseOrigin(routes, peer, now, r);
    PauseOnlyPeer(routes, peer, now, r);
    var j :| 0 <= j < |routes| && r == PauseOne(routes[j], peer, now);
    assert routes[j] in routes;
  }

  lemma ForeignIsRest(routes: seq<Route>, peer: DeviceId, now: nat, kind: Kind)
    requires Foreign(routes, peer, kind)
    ensures Has(Rest(Pause(routes, peer, now), peer), peer, kind)
  {
    var rest := Rest(Pause(routes, peer, now), peer);
    var r :| r in routes && r.peer == peer && r.kind == kind && !r.local && (r.status == Active || r.status == Paused);
    var j :| 0 <= j < |routes| && routes[j] == r;
    PauseMember(routes, peer, now, j);
    Partition(Pause(routes, peer, now), peer, PauseOne(r, peer, now));
    var i :| 0 <= i < |rest| && rest[i] == PauseOne(r, peer, now);
  }

  lemma ForeignRest(routes: seq<Route>, peer: DeviceId, now: nat, kind: Kind)
    ensures Has(Rest(Pause(routes, peer, now), peer), peer, kind) <==> Foreign(routes, peer, kind)
    ensures !Wanted(Rest(Pause(routes, peer, now), peer), peer, kind)
  {
    var rest := Rest(Pause(routes, peer, now), peer);
    forall r | r in rest && r.peer == peer ensures !r.local && Foreign(routes, peer, r.kind) {
      RestIsForeign(routes, peer, now, r);
    }
    if Has(rest, peer, kind) {
      var i :| 0 <= i < |rest| && rest[i].peer == peer && rest[i].kind == kind;
      assert rest[i] in rest;
    }
    if Foreign(routes, peer, kind) { ForeignIsRest(routes, peer, now, kind); }
  }

  /** Pausing and resuming loses no kind this device asked for, and keeps it as this device's own
      request exactly when the peer had no route of that kind of its own. */
  lemma PauseThenResume(routes: seq<Route>, nextId: byte, peer: DeviceId, now: nat, policy: Policy, kind: Kind)
    requires NoneStopped(routes) && Wanted(routes, peer, kind)
    ensures var after := Resume(Pause(routes, peer, now), nextId, peer, policy).0;
            && Has(after, peer, kind) && NoneStopped(after)
            && (Wanted(after, peer, kind) <==> !Foreign(routes, peer, kind))
  {
    PauseKeeps(routes, peer, now, kind);
    RoutesRun(routes, peer, now);
    var r :| r in Pause(routes, peer, now) && Resumable(r, peer) && r.kind == kind;
    ResumeKeeps(Pause(routes, peer, now), nextId, peer, policy, r);
    ForeignRest(routes, peer, now, kind);
  }

  /** A reason that ends a session without ending its routes. */
  predicate IsDrop(reason: Reason) {
    reason != PermissionDenied && reason != PermissionRevoked && reason != UserStopped
  }

  // ---------------------------------------------------------------- what ends a request

  /** Completing the pairing with `id` makes a session. */
  ghost predicate CompletesAs(me: Identity, n: State, id: DeviceId, a: Ambient) {
    id in n.t.pairings && a.saved && !Rejects(me, n.t, id, n.t.pairings[id].est, a.policy.now)
  }

  /** The pairing state a verified proof leaves. */
  ghost function Proven(me: Identity, n: State, conn: ConnId, a: Ambient): State
    requires conn in n.t.unpaired
  {
    var est := n.t.unpaired[conn];
    BeginPairing(n.(t := n.t.(unpaired := n.t.unpaired - {conn}), qr := None), me.idOf(est.key), est, false, a)
  }

  /** This event makes a new session with `id`. */
  ghost predicate Connects(me: Identity, n: State, e: Event, a: Ambient, id: DeviceId) {
    match e
    case EstablishedEv(est) =>
      && me.idOf(est.key) == id && id in n.t.trust && !n.t.trust[id].blocked && n.t.trust[id].key == est.key
      && !Rejects(me, n.t, id, est, a.policy.now)
    case ConfirmEv(x, accept) =>
      x == id && accept && id in n.t.pairings && n.t.pairings[id].peerConfirmed && CompletesAs(me, n, id, a)
    case ControlEv(conn, msg) =>
      if conn in n.t.unpaired then
        && msg.PairRequest? && ProofHolds(me, n.qr, n.t.unpaired[conn].key, msg.proof, a.nowUnix)
        && me.idOf(n.t.unpaired[conn].key) == id && CompletesAs(me, Proven(me, n, conn, a), id, a)
      else
        && PairingOn(n.t, conn) == Some(id) && msg == PairResult(true)
        && (n.t.pairings[id].qrScanner || n.t.pairings[id].localConfirmed) && CompletesAs(me, n, id, a)
    case _ => false
  }

  /** A connection's end that ends the session with `id`. */
  ghost predicate EndsSession(n: State, conn: ConnId, id: DeviceId) {
    conn in n.t.connIndex && n.t.connIndex[conn] == id && id in n.t.sessions && n.t.sessions[id].est.conn == conn
  }

  /** A message of the session with some peer. */
  ghost predicate InSession(n: State, conn: ConnId) {
    conn !in n.t.unpaired && PairingOn(n.t, conn).None? && conn in n.t.connIndex
  }

  /** Exactly the events that end this device's request for a kind of route with `id`: the sweep when it is
      overdue, a stop that finds it first under its key, a request of the peer for the same kind or id while
      it is paused, a failed start, a microphone feed that is replaced, the user's disconnect, forget or
      block, a goodbye, and a reconnect that finds a route of that kind the peer asked for. */
  ghost predicate Loses(me: Identity, n: State, e: Event, a: Ambient, id: DeviceId, kind: Kind) {
    match e
    case SweepEv => Expires(n.routes, id, kind, a.policy.now)
    case StopRouteEv(p, route) => Hits(n.routes, p, route, id, kind)
    case AcceptRouteEv(p, route, k, _, _) => Yields(n.routes, p, route, k, id, kind)
    case StartRouteEv(p, k, replace) => LosesFeed(n.routes, p, k, replace, a.policy, id, kind)
    case DisconnectEv(p) => p == id
    case ForgetEv(p) => p == id
    case SetBlockedEv(p, blocked) => p == id && blocked
    case ClosedEv(conn, reason) => EndsSession(n, conn, id) && !IsDrop(reason)
    case ControlEv(conn, msg) =>
      || (InSession(n, conn) && MsgLoses(n.routes, n.t.connIndex[conn], msg, id, kind))
      || (Connects(me, n, e, a, id) && Displaces(n, id, kind))
    case _ => Connects(me, n, e, a, id) && Displaces(n, id, kind)
  }

  ghost predicate MsgLoses(routes: seq<Route>, p: DeviceId, msg: Msg, id: DeviceId, kind: Kind) {
    match msg
    case RouteAccept(route, opens, _) => !opens && Answers(routes, p, route, id, kind)
    case RouteStop(route) => Hits(routes, p, route, id, kind)
    case _ => false
  }

  /** On a new session a route the peer asked for stands in the place of this device's. */
  ghost predicate Displaces(n: State, id: DeviceId, kind: Kind) {
    if id in n.t.sessions then Foreign(n.routes, id, kind) else Displaced(n.routes, id, kind)
  }

  /** From one list to the next: nothing stopped, no request doubled, and one that was there is there
      exactly if it was not lost. */
  ghost predicate Follows(before: seq<Route>, after: seq<Route>, lost: bool, id: DeviceId, kind: Kind) {
    && NoneStopped(after) && Mine(after, id, kind) <= 1
    && (Mine(before, id, kind) == 1 ==> Mine(after, id, kind) == 1 - One(lost))
  }

  ghost predicate Tidy(routes: seq<Route>, id: DeviceId, kind: Kind) { NoneStopped(routes) && Mine(routes, id, kind) <= 1 }

  // ---------------------------------------------------------------- one event

  lemma FollowsSame(routes: seq<Route>, id: DeviceId, kind: Kind)
    requires Tidy(routes, id, kind)
    ensures Follows(routes, routes, false, id, kind)
  {
  }

  lemma FollowsWithout(routes: seq<Route>, p: DeviceId, id: DeviceId, kind: Kind)
    requires Tidy(routes, id, kind)
    ensures Follows(routes, Without(routes, p), p == id, id, kind)
  {
    hide Mine;
    RoutesRun(routes, p, 0);
    MineWithout(routes, p, id, kind);
  }

  lemma FollowsPause(routes: seq<Route>, p: DeviceId, now: nat, id: DeviceId, kind: Kind)
    requires Tidy(routes, id, kind)
    ensures Follows(routes, Pause(routes, p, now), false, id, kind)
  {
    hide Mine, Pause;
    RoutesRun(routes, p, now);
    MinePause(routes, p, now, id, kind);
  }

  /** A new session with `q`. */
  lemma FollowsPromote(n: State, q: DeviceId, est: Est, policy: Policy, id: DeviceId, kind: Kind)
    requires Tidy(n.routes, id, kind)
    ensures Follows(n.routes, RoutesOnPromote(n.t, n.routes, q, est, policy).0, q == id && Displaces(n, id, kind), id, kind)
  {
    hide Mine, Pause, Resume, Foreign, Displaced, NoneStopped, Has, Wanted;
    var first := FirstRouteId(est);
    var routes := if q in n.t.sessions then Pause(n.routes, q, policy.now) else n.routes;
    FollowsPause(n.routes, q, policy.now, id, kind);
    MineResume(routes, first, q, policy, id, kind);
    ResumeRuns(routes, first, q, policy);
    var after := Resume(routes, first, q, policy).0;
    if q == id && Mine(n.routes, id, kind) == 1 {
      WantedIsMine(after, id, kind);
      WantedIsMine(n.routes, id, kind);
      if id in n.t.sessions { PauseThenResume(n.routes, first, id, policy.now, policy, kind); }
      else { ResumeExactly(n.routes, first, id, policy, kind); }
    }
  }

  lemma PromoteRoutes(me: Identity, n: State, q: DeviceId, est: Est, a: Ambient, id: DeviceId, kind: Kind)
    requires Tidy(n.routes, id, kind)
    ensures Follows(n.routes, Promote(me, n, q, est, a).routes,
                    q == id && !Rejects(me, n.t, q, est, a.policy.now) && Displaces(n, id, kind), id, kind)
  {
    hide RoutesOnPromote, Follows, Tidy, Displaces;
    if Rejects(me, n.t, q, est, a.policy.now) { FollowsSame(n.routes, id, kind); }
    else { FollowsPromote(n, q, est, a.policy, id, kind); }
  }

  lemma CompleteRoutes(me: Identity, n: State, q: DeviceId, a: Ambient, id: DeviceId, kind: Kind)
    requires Tidy(n.routes, id, kind)
    ensures Follows(n.routes, Complete(me, n, q, a).routes, q == id && CompletesAs(me, n, id, a) && Displaces(n, id, kind), id, kind)
  {
    hide Promote, Follows, Tidy, Foreign, Displaced;
    if q in n.t.pairings && a.saved {
      PromoteRoutes(me, n.(t := Enroll(n.t, q)), q, n.t.pairings[q].est, a, id, kind);
    } else {
      FollowsSame(n.routes, id, kind);
    }
  }

  lemma EstablishedRoutes(me: Identity, n: State, est: Est, a: Ambient, id: DeviceId, kind: Kind)
    requires Tidy(n.routes, id, kind)
    ensures Follows(n.routes, OnEstablished(me, n, est, a).routes,
                    Connects(me, n, EstablishedEv(est), a, id) && Displaces(n, id, kind), id, kind)
  {
    hide Promote, Follows, Tidy, Foreign, Displaced;
    FollowsSame(n.routes, id, kind);
    PromoteRoutes(me, n.(d := EndDial(n.d, est.conn)), me.idOf(est.key), est, a, id, kind);
  }

  lemma ConfirmRoutes(me: Identity, n: State, q: DeviceId, accept: bool, a: Ambient, id: DeviceId, kind: Kind)
    requires Tidy(n.routes, id, kind)
    ensures Follows(n.routes, Confirm(me, n, q, accept, a).routes,
                    Connects(me, n, ConfirmEv(q, accept), a, id) && Displaces(n, id, kind), id, kind)
  {
    hide Complete, Follows, Tidy, Foreign, Displaced;
    FollowsSame(n.routes, id, kind);
    if q in n.t.pairings {
      CompleteRoutes(me, n.(t := Mark(n.t, q, true, n.t.pairings[q].peerConfirmed)), q, a, id, kind);
    }
  }

  /** The pairing that a verified proof confirms. */
  ghost function Marked(me: Identity, n: State, conn: ConnId, a: Ambient): State
    requires conn in n.t.unpaired
  {
    var q, n1 := me.idOf(n.t.unpaired[conn].key), Proven(me, n, conn, a);
    if q in n1.t.pairings then n1.(t := Mark(n1.t, q, true, true)) else n1
  }

  lemma ProofHandled(me: Identity, n: State, conn: ConnId, proof: Option<Proof>, a: Ambient)
    requires conn in n.t.unpaired
    ensures OnControl(me, n, conn, PairRequest(proof), a).routes ==
            if ProofHolds(me, n.qr, n.t.unpaired[conn].key, proof, a.nowUnix)
            then Complete(me, Marked(me, n, conn, a), me.idOf(n.t.unpaired[conn].key), a).routes else n.routes
  {
    hide Complete, ProofHolds;
  }

  lemma MarkedSame(me: Identity, n: State, conn: ConnId, a: Ambient, id: DeviceId)
    requires conn in n.t.unpaired
    ensures var n1, n2 := Proven(me, n, conn, a), Marked(me, n, conn, a);
            && n2.routes == n.routes && n2.t.sessions == n.t.sessions
            && (CompletesAs(me, n2, id, a) <==> CompletesAs(me, n1, id, a))
  {
  }

  lemma ProofRoutes(me: Identity, n: State, conn: ConnId, proof: Option<Proof>, a: Ambient, id: DeviceId, kind: Kind)
    requires Tidy(n.routes, id, kind) && conn in n.t.unpaired
    ensures Follows(n.routes, OnControl(me, n, conn, PairRequest(proof), a).routes,
                    Connects(me, n, ControlEv(conn, PairRequest(proof)), a, id) && Displaces(n, id, kind), id, kind)
  {
    hide OnControl, Complete, Follows, Tidy, Foreign, Displaced, ProofHolds, Marked, Proven, CompletesAs;
    FollowsSame(n.routes, id, kind);
    ProofHandled(me, n, conn, proof, a);
    MarkedSame(me, n, conn, a, id);
    CompleteRoutes(me, Marked(me, n, conn, a), me.idOf(n.t.unpaired[conn].key), a, id, kind);
  }

  lemma ResultHandled(me: Identity, n: State, conn: ConnId, q: DeviceId, accepted: bool, a: Ambient)
    requires conn !in n.t.unpaired && PairingOn(n.t, conn) == Some(q)
    ensures var n1 := n.(t := Mark(n.t, q, n.t.pairings[q].localConfirmed, true));
            OnControl(me, n, conn, PairResult(accepted), a).routes ==
            if accepted && (n.t.pairings[q].qrScanner || n.t.pairings[q].localConfirmed) then Complete(me, n1, q, a).routes else n.routes
  {
    hide Complete;
  }

  lemma ResultRoutes(me: Identity, n: State, conn: ConnId, accepted: bool, a: Ambient, id: DeviceId, kind: Kind)
    requires Tidy(n.routes, id, kind) && conn !in n.t.unpaired && PairingOn(n.t, conn).Some?
    ensures Follows(n.routes, OnControl(me, n, conn, PairResult(accepted), a).routes,
                    Connects(me, n, ControlEv(conn, PairResult(accepted)), a, id) && Displaces(n, id, kind), id, kind)
  {
    hide OnControl, Complete, Follows, Tidy, Foreign, Displaced;
    FollowsSame(n.routes, id, kind);
    var q := PairingOn(n.t, conn).value;
    ResultHandled(me, n, conn, q, accepted, a);
    CompleteRoutes(me, n.(t := Mark(n.t, q, n.t.pairings[q].localConfirmed, true)), q, a, id, kind);
  }

  lemma MsgRoutes(routes: seq<Route>, p: DeviceId, msg: Msg, now: nat, id: DeviceId, kind: Kind)
    requires Tidy(routes, id, kind)
    ensures Follows(routes, OnRouteMsg(routes, p, msg, now), MsgLoses(routes, p, msg, id, kind), id, kind)
  {
    hide Mine, Hits, Answers, StopKey, RouteAccepted;
    match msg
    case RouteAccept(route, opens, ready) =>
      AcceptedRuns(routes, p, route, opens, ready, now);
      MineAccepted(routes, p, route, opens, ready, now, id, kind);
    case RouteStop(route) =>
      StopRuns(routes, p, route);
      MineStop(routes, p, route, id, kind);
    case _ =>
  }

  lemma ControlRoutes(me: Identity, n: State, conn: ConnId, msg: Msg, a: Ambient, id: DeviceId, kind: Kind)
    requires Tidy(n.routes, id, kind)
    ensures Follows(n.routes, OnControl(me, n, conn, msg, a).routes, Loses(me, n, ControlEv(conn, msg), a, id, kind), id, kind)
  {
    hide Follows, Tidy, Displaces, OnRouteMsg, MsgLoses, OnPairRequest, OnPairResult, Connects;
    FollowsSame(n.routes, id, kind);
    NoConnect(me, n, conn, msg, a, id);
    if conn in n.t.unpaired {
      if msg.PairRequest? { ProofRoutes(me, n, conn, msg.proof, a, id, kind); }
    } else if PairingOn(n.t, conn).Some? {
      if msg.PairResult? { ResultRoutes(me, n, conn, msg.accepted, a, id, kind); }
    } else if conn in n.t.connIndex {
      MsgRoutes(n.routes, n.t.connIndex[conn], msg, a.policy.now, id, kind);
    }
  }

  lemma NoConnect(me: Identity, n: State, conn: ConnId, msg: Msg, a: Ambient, id: DeviceId)
    ensures Connects(me, n, ControlEv(conn, msg), a, id) ==>
              if conn in n.t.unpaired then msg.PairRequest? else PairingOn(n.t, conn).Some? && msg.PairResult?
  {
  }

  /** What a closed connection does to the routes. */
  lemma ClosedHandled(n: State, conn: ConnId, reason: Reason, now: nat)
    ensures OnClosed(n, conn, reason, now).routes ==
            if conn !in n.t.connIndex || !EndsSession(n, conn, n.t.connIndex[conn]) then n.routes
            else if IsDrop(reason) then Pause(n.routes, n.t.connIndex[conn], now)
            else Without(n.routes, n.t.connIndex[conn])
  {
    hide Pause, Without, DropDial, SetAuto, Unlink;
    assert DropWaiting(n.t, conn).connIndex == n.t.connIndex && DropWaiting(n.t, conn).sessions == n.t.sessions;
    hide DropWaiting;
  }

  lemma ClosedRoutes(me: Identity, n: State, conn: ConnId, reason: Reason, a: Ambient, id: DeviceId, kind: Kind)
    requires Tidy(n.routes, id, kind)
    ensures Follows(n.routes, OnClosed(n, conn, reason, a.policy.now).routes,
                    Loses(me, n, ClosedEv(conn, reason), a, id, kind), id, kind)
  {
    hide Follows, Tidy, Pause, Without, OnClosed;
    FollowsSame(n.routes, id, kind);
    ClosedHandled(n, conn, reason, a.policy.now);
    if conn in n.t.connIndex {
      FollowsWithout(n.routes, n.t.connIndex[conn], id, kind);
      FollowsPause(n.routes, n.t.connIndex[conn], a.policy.now, id, kind);
    }
  }

  lemma FollowsStart(routes: seq<Route>, session: Option<byte>, p: DeviceId, k: Kind, replace: bool, policy: Policy, id: DeviceId, kind: Kind)
    requires Tidy(routes, id, kind)
    ensures Follows(routes, StartAs(routes, session, p, k, replace, policy).0, LosesFeed(routes, p, k, replace, policy, id, kind), id, kind)
  {
    hide Mine, LosesFeed, StartAs, NoneStopped;
    StartRuns(routes, session, p, k, replace, policy);
    MineStart(routes, session, p, k, replace, policy, id, kind);
  }

  lemma FollowsStop(routes: seq<Route>, p: DeviceId, route: byte, id: DeviceId, kind: Kind)
    requires Tidy(routes, id, kind)
    ensures Follows(routes, StopKey(routes, p, route), Hits(routes, p, route, id, kind), id, kind)
  {
    hide Mine, Hits, StopKey, NoneStopped;
    StopRuns(routes, p, route);
    MineStop(routes, p, route, id, kind);
  }

  lemma FollowsAccept(routes: seq<Route>, p: DeviceId, route: byte, k: Kind, opens: bool, ready: bool, now: nat, id: DeviceId, kind: Kind)
    requires Tidy(routes, id, kind)
    ensures Follows(routes, AcceptRoute(routes, p, route, k, opens, ready, now), Yields(routes, p, route, k, id, kind), id, kind)
  {
    hide Mine, Yields, AcceptRoute, NoneStopped;
    AcceptRuns(routes, p, route, k, opens, ready, now);
    MineAccept(routes, p, route, k, opens, ready, now, id, kind);
  }

  lemma FollowsMarks(routes: seq<Route>, p: DeviceId, route: byte, keep: bool, id: DeviceId, kind: Kind)
    requires Tidy(routes, id, kind)
    ensures Follows(routes, Activate(routes, p, route), false, id, kind)
    ensures Follows(routes, SetKeep(routes, p, route, keep), false, id, kind)
  {
    hide Mine, Activate, SetKeep, NoneStopped;
    ActivateRuns(routes, p, route);
    MineActivate(routes, p, route, id, kind);
    SetKeepRuns(routes, p, route, keep);
    MineKeep(routes, p, route, keep, id, kind);
  }

  lemma FollowsSweep(routes: seq<Route>, now: nat, id: DeviceId, kind: Kind)
    requires Tidy(routes, id, kind)
    ensures Follows(routes, Sweep(routes, now), Expires(routes, id, kind, now), id, kind)
  {
    hide Mine, Expires, Sweep, NoneStopped;
    SweepRuns(routes, now);
    MineSweep(routes, id, kind, now);
  }

  /** Events about routes alone. */
  lemma RouteEventRoutes(me: Identity, n: State, e: Event, a: Ambient, id: DeviceId, kind: Kind)
    requires Tidy(n.routes, id, kind) && AboutRoutes(e)
    ensures Follows(n.routes, Handle(me, n, e, a).routes, Loses(me, n, e, a, id, kind), id, kind)
  {
    hide Tidy, Follows, Hits, Expires, Yields, LosesFeed, StopKey, Sweep, AcceptRoute, Activate, SetKeep, StartAs;
    match e
    case StopRouteEv(p, route) => FollowsStop(n.routes, p, route, id, kind);
    case AcceptRouteEv(p, route, k, opens, ready) => FollowsAccept(n.routes, p, route, k, opens, ready, a.policy.now, id, kind);
    case ReadyEv(p, route) => FollowsMarks(n.routes, p, route, false, id, kind);
    case KeepEv(p, route, keep) => FollowsMarks(n.routes, p, route, keep, id, kind);
    case SweepEv => FollowsSweep(n.routes, a.policy.now, id, kind);
  }

  lemma StartEventRoutes(n: State, p: DeviceId, k: Kind, replace: bool, policy: Policy, id: DeviceId, kind: Kind)
    requires Tidy(n.routes, id, kind)
    ensures Follows(n.routes, StartRoute(n, p, k, replace, policy).routes, LosesFeed(n.routes, p, k, replace, policy, id, kind), id, kind)
  {
    hide Tidy, Follows, StartAs, LosesFeed;
    FollowsStart(n.routes, if p in n.t.sessions then Some(n.t.sessions[p].nextRoute) else None, p, k, replace, policy, id, kind);
  }

  lemma DialsLoseNothing(me: Identity, n: State, e: Event, a: Ambient, id: DeviceId, kind: Kind)
    requires AboutDials(e)
    ensures !Loses(me, n, e, a, id, kind)
  {
  }

  lemma HandleRoutes(me: Identity, n: State, e: Event, a: Ambient, id: DeviceId, kind: Kind)
    requires Tidy(n.routes, id, kind)
    ensures Follows(n.routes, Handle(me, n, e, a).routes, Loses(me, n, e, a, id, kind), id, kind)
  {
    hide Follows, Tidy, Without, OnEstablished, OnControl, OnClosed, Confirm, StartRoute;
    FollowsSame(n.routes, id, kind);
    if AboutRoutes(e) {
      hide Handle, Loses;
      RouteEventRoutes(me, n, e, a, id, kind);
    } else if AboutDials(e) {
      hide Handle, Loses;
      DialsOnly(me, n, e, a);
      DialsLoseNothing(me, n, e, a, id, kind);
    } else {
      match e
      case ConfirmEv(q, accept) => hide Connects, Displaces; ConfirmRoutes(me, n, q, accept, a, id, kind);
      case EstablishedEv(est) => hide Connects, Displaces; EstablishedRoutes(me, n, est, a, id, kind);
      case ControlEv(conn, msg) => hide Loses; ControlRoutes(me, n, conn, msg, a, id, kind);
      case ClosedEv(conn, reason) => hide Loses; ClosedRoutes(me, n, conn, reason, a, id, kind);
      case DisconnectEv(q) => FollowsWithout(n.routes, q, id, kind);
      case ForgetEv(q) => FollowsWithout(n.routes, q, id, kind);
      case SetBlockedEv(q, _) => FollowsWithout(n.routes, q, id, kind);
      case StartRouteEv(p, k, replace) => hide LosesFeed; StartEventRoutes(n, p, k, replace, a.policy, id, kind);
      case _ =>
    }
  }

  /** One event, whatever it is: a kind of route this device asks for is still asked for afterwards if and
      only if the event is not one that loses it. */
  lemma LosesExactly(me: Identity, n: State, e: Event, a: Ambient, id: DeviceId, kind: Kind)
    requires Tidy(n.routes, id, kind) && Wanted(n.routes, id, kind)
    ensures Tidy(Handle(me, n, e, a).routes, id, kind)
    ensures Wanted(Handle(me, n, e, a).routes, id, kind) <==> !Loses(me, n, e, a, id, kind)
  {
    hide Handle, Loses, Mine, Wanted;
    HandleRoutes(me, n, e, a, id, kind);
    WantedIsMine(n.routes, id, kind);
    WantedIsMine(Handle(me, n, e, a).routes, id, kind);
  }

  // ---------------------------------------------------------------- whole runs

  ghost function After(me: Identity, n: State, ins: seq<Input>): State {
    if ins == [] then n else
    var i := ins[|ins| - 1];
    Handle(me, After(me, n, ins[..|ins| - 1]), i.e, i.a)
  }

  ghost predicate LosesAt(me: Identity, n: State, ins: seq<Input>, i: nat, id: DeviceId, kind: Kind)
    requires i < |ins|
  {
    Loses(me, After(me, n, ins[..i]), ins[i].e, ins[i].a, id, kind)
  }

  /** No event loses the request. */
  ghost predicate Untouched(me: Identity, n: State, ins: seq<Input>, id: DeviceId, kind: Kind) {
    forall i :: 0 <= i < |ins| ==> !LosesAt(me, n, ins, i, id, kind)
  }

  ghost predicate WantedAt(me: Identity, n: State, ins: seq<Input>, i: nat, id: DeviceId, kind: Kind)
    requires i <= |ins|
  {
    Wanted(After(me, n, ins[..i]).routes, id, kind)
  }

  /** The request is there before, between and after the events. */
  ghost predicate Throughout(me: Identity, n: State, ins: seq<Input>, id: DeviceId, kind: Kind) {
    forall i :: 0 <= i <= |ins| ==> WantedAt(me, n, ins, i, id, kind)
  }

  lemma UntouchedNext(me: Identity, n: State, g: seq<Input>, x: Input, id: DeviceId, kind: Kind)
    ensures Untouched(me, n, g + [x], id, kind) <==>
            Untouched(me, n, g, id, kind) && !Loses(me, After(me, n, g), x.e, x.a, id, kind)
  {
    hide Loses, After;
    var ins, m := g + [x], |g|;
    assert ins[..m] == g && ins[m] == x;
    forall i | 0 <= i < m ensures LosesAt(me, n, g, i, id, kind) == LosesAt(me, n, ins, i, id, kind) {
      assert g[..i] == ins[..i] && g[i] == ins[i];
    }
    assert LosesAt(me, n, ins, m, id, kind) == Loses(me, After(me, n, g), x.e, x.a, id, kind);
  }

  lemma ThroughoutNext(me: Identity, n: State, g: seq<Input>, x: Input, id: DeviceId, kind: Kind)
    ensures Throughout(me, n, g + [x], id, kind) <==>
            Throughout(me, n, g, id, kind) && Wanted(After(me, n, g + [x]).routes, id, kind)
  {
    hide Wanted, After;
    var ins, m := g + [x], |g|;
    forall i | 0 <= i <= m ensures WantedAt(me, n, g, i, id, kind) == WantedAt(me, n, ins, i, id, kind) {
      assert g[..i] == ins[..i];
    }
    assert ins[..m + 1] == ins;
    assert WantedAt(me, n, ins, m + 1, id, kind) == Wanted(After(me, n, ins).routes, id, kind);
  }

  lemma ThroughoutEnd(me: Identity, n: State, ins: seq<Input>, id: DeviceId, kind: Kind)
    requires Throughout(me, n, ins, id, kind)
    ensures Wanted(After(me, n, ins).routes, id, kind)
  {
    hide Wanted, After;
    assert ins[..|ins|] == ins;
    assert WantedAt(me, n, ins, |ins|, id, kind);
  }

  lemma {:induction false} AfterTidy(me: Identity, n: State, ins: seq<Input>, id: DeviceId, kind: Kind)
    requires Tidy(n.routes, id, kind)
    ensures Tidy(After(me, n, ins).routes, id, kind)
  {
    if ins != [] {
      hide Handle, Mine;
      var g, i := ins[..|ins| - 1], ins[|ins| - 1];
      AfterTidy(me, n, g, id, kind);
      HandleRoutes(me, After(me, n, g), i.e, i.a, id, kind);
    }
  }

  /** Through any events at all, drops and reconnects included: the kind stays asked for throughout if and
      only if none of them loses it. */
  lemma {:induction false} SurvivesFlapping(me: Identity, n: State, ins: seq<Input>, id: DeviceId, kind: Kind)
    requires Tidy(n.routes, id, kind) && Wanted(n.routes, id, kind)
    ensures Throughout(me, n, ins, id, kind) <==> Untouched(me, n, ins, id, kind)
  {
    if ins == [] {
      hide Wanted;
      assert After(me, n, ins[..0]) == n;
    } else {
      hide Loses, Handle, Wanted, Tidy, Throughout, Untouched;
      var g, x := ins[..|ins| - 1], ins[|ins| - 1];
      assert ins == g + [x];
      SurvivesFlapping(me, n, g, id, kind);
      AfterTidy(me, n, g, id, kind);
      UntouchedNext(me, n, g, x, id, kind);
      ThroughoutNext(me, n, g, x, id, kind);
      if Throughout(me, n, g, id, kind) {
        ThroughoutEnd(me, n, g, id, kind);
        LosesExactly(me, After(me, n, g), x.e, x.a, id, kind);
      }
    }
  }

  lemma {:induction false} RunIsAfter(me: Identity, w: World, ins: seq<Input>)
    ensures Run(me, w, ins).n == After(me, w.n, ins)
  {
    if ins != [] { RunIsAfter(me, w, ins[..|ins| - 1]); }
  }

  /** In every run of a device that starts without routes, no stopped route stays and this device asks a
      peer for a kind at most once. */
  lemma AlwaysTidy(me: Identity, w: World, ins: seq<Input>, id: DeviceId, kind: Kind)
    requires w.n.routes == []
    ensures Tidy(Run(me, w, ins).n.routes, id, kind)
  {
    RunIsAfter(me, w, ins);
    AfterTidy(me, w.n, ins, id, kind);
  }

  /** The sweep, for a route whose key no other route has: its deadline has passed, or it has been paused for
      over two minutes and is not to be kept running. */
  lemma SweptAlone(routes: seq<Route>, i: nat, id: DeviceId, kind: Kind, now: nat)
    requires Mine(routes, id, kind) == 1 && i < |routes| && Own(routes[i], id, kind)
    requires forall j :: 0 <= j < |routes| && j != i ==> !KeyIs(routes[j], id, routes[i].id)
    ensures Expires(routes, id, kind, now) <==>
            || (routes[i].deadline.Some? && now > routes[i].deadline.value)
            || (routes[i].status == Paused && !routes[i].keep && routes[i].pausedAt.Some?
                && now > routes[i].pausedAt.value + 120_000)
  {
    hide Overdue, Mine;
    OverdueAlone(routes, i, now);
    forall j | 0 <= j < |routes| && Own(routes[j], id, kind) ensures j == i { MineOnce(routes, id, kind, i, j); }
  }

  // ---------------------------------------------------------------- a drop and the next connection

  lemma ClosedPauses(me: Identity, n: State, conn: ConnId, reason: Reason, now: nat)
    requires Agree(me, n.t) && conn in n.t.connIndex && IsDrop(reason)
    ensures var id, n1 := n.t.connIndex[conn], OnClosed(n, conn, reason, now);
            n1.routes == Pause(n.routes, id, now) && id !in n1.t.sessions && n1.t.trust == n.t.trust
  {
    hide Pause;
    assert DropWaiting(n.t, conn).connIndex == n.t.connIndex && DropWaiting(n.t, conn).sessions == n.t.sessions;
  }

  /** A new session leaves a route or a paused entry of the kind. */
  lemma PromoteHas(n: State, id: DeviceId, est: Est, policy: Policy, kind: Kind)
    requires Tidy(n.routes, id, kind) && Wanted(n.routes, id, kind)
    ensures Has(RoutesOnPromote(n.t, n.routes, id, est, policy).0, id, kind)
  {
    hide Mine, Pause, Resume, Foreign, Displaced, NoneStopped, Has, Wanted;
    WantedIsMine(n.routes, id, kind);
    if id in n.t.sessions { PauseThenResume(n.routes, FirstRouteId(est), id, policy.now, policy, kind); }
    else { ResumeExactly(n.routes, FirstRouteId(est), id, policy, kind); }
  }

  /** The session with `id` drops, anything happens, and `id` connects again. The request outlives the time
      between exactly if no event loses it; the new session then has a route or a paused entry of the kind,
      whatever fails to start, and it is this device's request exactly if it was not displaced. */
  lemma {:induction false} DropLosesNoKind(me: Identity, n: State, conn: ConnId, reason: Reason, now: nat,
                                           mid: seq<Input>, est: Est, a: Ambient, kind: Kind)
    requires Agree(me, n.t) && conn in n.t.connIndex && IsDrop(reason)
    requires Tidy(n.routes, n.t.connIndex[conn], kind) && Wanted(n.routes, n.t.connIndex[conn], kind)
    ensures var id, n1 := n.t.connIndex[conn], OnClosed(n, conn, reason, now);
            var n2 := After(me, n1, mid);
            && (Throughout(me, n1, mid, id, kind) <==> Untouched(me, n1, mid, id, kind))
            && (Untouched(me, n1, mid, id, kind) && Connects(me, n2, EstablishedEv(est), a, id) ==>
                  var after := OnEstablished(me, n2, est, a);
                  && id in after.t.sessions && after.t.sessions[id].est == est && Has(after.routes, id, kind)
                  && (Wanted(after.routes, id, kind) <==> !Displaces(n2, id, kind)))
  {
    var id, n1 := n.t.connIndex[conn], OnClosed(n, conn, reason, now);
    ClosedPauses(me, n, conn, reason, now);
    DropKeeps(n.routes, id, now, kind);
    hide OnClosed, Tidy, Wanted, Throughout, Untouched, Displaces;
    SurvivesFlapping(me, n1, mid, id, kind);
    AfterTidy(me, n1, mid, id, kind);
    if Untouched(me, n1, mid, id, kind) && Connects(me, After(me, n1, mid), EstablishedEv(est), a, id) {
      ThroughoutEnd(me, n1, mid, id, kind);
      ConnectsKeeps(me, After(me, n1, mid), est, a, id, kind);
    }
  }

  lemma DropKeeps(routes: seq<Route>, id: DeviceId, now: nat, kind: Kind)
    requires Tidy(routes, id, kind) && Wanted(routes, id, kind)
    ensures Tidy(Pause(routes, id, now), id, kind) && Wanted(Pause(routes, id, now), id, kind)
  {
    hide Pause, Mine;
    FollowsPause(routes, id, now, id, kind);
    WantedIsMine(routes, id, kind);
    WantedIsMine(Pause(routes, id, now), id, kind);
  }

  lemma ConnectsKeeps(me: Identity, n: State, est: Est, a: Ambient, id: DeviceId, kind: Kind)
    requires Tidy(n.routes, id, kind) && Wanted(n.routes, id, kind) && Connects(me, n, EstablishedEv(est), a, id)
    ensures var after := OnEstablished(me, n, est, a);
            && id in after.t.sessions && after.t.sessions[id].est == est && Has(after.routes, id, kind)
            && (Wanted(after.routes, id, kind) <==> !Displaces(n, id, kind))
  {
    LosesExactly(me, n, EstablishedEv(est), a, id, kind);
    PromoteHas(n, id, est, a.policy, kind);
    hide RoutesOnPromote, Displaces, Wanted, Tidy, Has;
    assert OnEstablished(me, n, est, a).routes == RoutesOnPromote(n.t, n.routes, id, est, a.policy).0;
  }

  /** The same when a newer connection supersedes the session without a drop in between. */
  lemma SupersedeLosesNoKind(me: Identity, n: State, id: DeviceId, est: Est, a: Ambient, kind: Kind)
    requires NoneStopped(n.routes) && id in n.t.sessions && !Rejects(me, n.t, id, est, a.policy.now) && Wanted(n.routes, id, kind)
    ensures var after := Promote(me, n, id, est, a);
            && Has(after.routes, id, kind) && NoneStopped(after.routes)
            && (Wanted(after.routes, id, kind) <==> !Foreign(n.routes, id, kind))
  {
    PauseThenResume(n.routes, FirstRouteId(est), id, a.policy.now, a.policy, kind);
    hide Pause, Resume, Wanted, Foreign, Has;
  }

  // ---------------------------------------------------------------- a request that does not survive

  ghost function At(now: nat): Ambient { Ambient(0, true, true, true, Policy((_, _) => true, [], false, now)) }

  /** Device 7 is trusted. It is dialed and connects, system audio is requested and the connection drops a
      second later; 34 s into the pause the deadline of the request has passed; then it connects again. */
  ghost function LostRun(): seq<Input> {
    [Input(TryDialEv(7, true, true), At(0)), Input(EstablishedEv(Est(1, 7, true)), At(0)),
     Input(StartRouteEv(7, SendSystemAudio, false), At(0)), Input(ClosedEv(1, NetworkLost), At(1_000)),
     Input(SweepEv, At(35_001)), Input(TryDialEv(7, true, true), At(35_002)),
     Input(EstablishedEv(Est(2, 7, true)), At(36_000))]
  }

  ghost function Seven(): Identity { Identity(1, (k: nat) => k, (_, _, _) => false) }

  ghost function Fresh(): State {
    State(Tables(map[7 := Trusted(7, false, true)], map[], map[], map[], map[]), Dials(map[], map[], map[], 1), None, [], [])
  }

  lemma AfterNext(me: Identity, n: State, g: seq<Input>, x: Input)
    ensures After(me, n, g + [x]) == Handle(me, After(me, n, g), x.e, x.a)
  {
    hide Handle;
    assert (g + [x])[..|g|] == g;
  }

  lemma ResumeNothing(nextId: byte, q: DeviceId, policy: Policy)
    requires policy.saved == [] && !policy.resumeAll
    ensures Resume([], nextId, q, policy) == ([], nextId)
  {
    assert KindsOf(Taken([], q)) == [];
    assert AddSaved([], policy.saved, q, policy.resumeAll) == [];
  }

  /** Device 7 is trusted and has no session. */
  ghost predicate Alone(n: State) {
    && n.t.trust == map[7 := Trusted(7, false, true)] && n.t.sessions == map[] && n.t.connIndex == map[]
    && n.t.unpaired == map[] && n.t.pairings == map[]
  }

  /** It connects, without routes to resume. */
  lemma Connecting(n: State, conn: ConnId, now: nat)
    requires Alone(n) && n.routes == []
    ensures var n1 := Handle(Seven(), n, EstablishedEv(Est(conn, 7, true)), At(now));
            && n1.routes == [] && n1.t == n.t.(sessions := map[7 := Session(Est(conn, 7, true), now, 2)], connIndex := map[conn := 7])
  {
    hide Resume;
    ResumeNothing(2, 7, At(now).policy);
    assert n.t.sessions[7 := Session(Est(conn, 7, true), now, 2)] == map[7 := Session(Est(conn, 7, true), now, 2)];
    assert n.t.connIndex[conn := 7] == map[conn := 7];
  }

  lemma Dialing(n: State, now: nat)
    ensures var n1 := Handle(Seven(), n, TryDialEv(7, true, true), At(now)); n1.t == n.t && n1.routes == n.routes
  {
  }

  ghost function Asked(): Route { Requested(7, 2, SendSystemAudio, 0) }

  lemma Asking(n: State)
    requires n.routes == [] && 7 in n.t.sessions && n.t.sessions[7].nextRoute == 2
    ensures var n1 := Handle(Seven(), n, StartRouteEv(7, SendSystemAudio, false), At(0));
            && n1.routes == [Asked()] && n1.t == n.t.(sessions := n1.t.sessions)
            && n1.t.sessions == n.t.sessions[7 := n.t.sessions[7].(nextRoute := 4)]
  {
  }

  lemma PausingOne(r: Route, now: nat)
    requires r.local && r.status == Requesting
    ensures Pause([r], r.peer, now) == [r.(status := Paused, pausedAt := Some(now))]
  {
    var paused := r.(status := Paused, pausedAt := Some(now));
    assert PauseAll([r], r.peer, now) == [paused];
    assert Live([]) == [] && [paused][..0] == [];
    assert Live([paused]) == Live([]) + [paused];
  }

  lemma Dropping(n: State, conn: ConnId, est: Est)
    requires n.routes == [Asked()] && n.t.connIndex == map[conn := 7] && n.t.unpaired == map[] && n.t.pairings == map[]
    requires n.t.trust == map[7 := Trusted(7, false, true)] && n.t.sessions.Keys == {7} && n.t.sessions[7].est.conn == conn
    ensures var n1 := Handle(Seven(), n, ClosedEv(conn, NetworkLost), At(1_000));
            Alone(n1) && n1.routes == [Asked().(status := Paused, pausedAt := Some(1_000))]
  {
    PausingOne(Asked(), 1_000);
    hide Pause;
    assert PairingOn(n.t, conn).None?;
    assert n.t.unpaired - {conn} == map[];
    assert n.t.sessions - {7} == map[] && n.t.connIndex - {conn} == map[];
  }

  lemma Sweeping(n: State)
    requires n.routes == [Asked().(status := Paused, pausedAt := Some(1_000))]
    ensures Handle(Seven(), n, SweepEv, At(35_001)) == n.(routes := [])
  {
    SweepOne(n.routes[0], 35_001);
    assert n.routes == [n.routes[0]];
  }

  lemma SweepOne(r: Route, now: nat)
    requires Due(r, now)
    ensures Sweep([r], now) == []
  {
    hide Due;
    var k := (r.peer, r.id);
    assert DueKeys([], now) == [];
    assert DueKeys([r], now) == [] + [k] == [k];
    var none: seq<(DeviceId, byte)> := [];
    assert [k][..0] == none && StopKeys([r], none) == [r];
    assert !HasKey([], r.peer, r.id);
    var nothing: seq<Route> := [];
    assert [r][..0] == nothing && StopKey([r], r.peer, r.id) == nothing;
  }

  /** A run in which a request does not survive a drop of 35 seconds, well below the two minutes: it is
      wanted before and after the drop, and after the reconnect nothing of its kind is left. */
  lemma {:induction false} RequestExpires()
    ensures var ins := LostRun();
            && Wanted(After(Seven(), Fresh(), ins[..3]).routes, 7, SendSystemAudio)
            && Wanted(After(Seven(), Fresh(), ins[..4]).routes, 7, SendSystemAudio)
            && var last := After(Seven(), Fresh(), ins);
               7 in last.t.sessions && !Has(last.routes, 7, SendSystemAudio)
  {
    hide Handle, Wanted, Has;
    var me, n, ins := Seven(), Fresh(), LostRun();
    var s0 := After(me, n, ins[..0]);
    forall k: nat | k < 7 ensures After(me, n, ins[..k + 1]) == Handle(me, After(me, n, ins[..k]), ins[k].e, ins[k].a) {
      AfterNext(me, n, ins[..k], ins[k]);
      assert ins[..k + 1] == ins[..k] + [ins[k]];
    }
    assert s0 == n && Alone(n);
    var s1, s2, s3 := After(me, n, ins[..1]), After(me, n, ins[..2]), After(me, n, ins[..3]);
    var s4, s5, s6 := After(me, n, ins[..4]), After(me, n, ins[..5]), After(me, n, ins[..6]);
    Dialing(s0, 0);
    Connecting(s1, 1, 0);
    Asking(s2);
    Dropping(s3, 1, Est(1, 7, true));
    WantedAlone(s3.routes[0]);
    WantedAlone(s4.routes[0]);
    Sweeping(s4);
    Dialing(s5, 35_002);
    Connecting(s6, 2, 36_000);
    assert ins[..7] == ins;
    NothingHas();
  }

  lemma WantedAlone(r: Route)
    requires Own(r, 7, SendSystemAudio) && r.status != Stopped
    ensures Wanted([r], 7, SendSystemAudio)
  {
    assert r in [r];
  }

  lemma NothingHas()
    ensures !Has([], 7, SendSystemAudio)
  {
  }
}
