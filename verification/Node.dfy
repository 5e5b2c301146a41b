/**
 The connection manager of the engine actor (sp-engine/src/actor.rs): sessions, pending pairings,
 dials and the trust store of one device, and what each event does to them.
 */
module Node {
  import opened Common
  import opened Routes

  type Key = nat
  type ConnId = nat
  type Secret = nat
  type Proof = nat

  /** This device, and what cryptography says: the id of a key, and whether a pairing proof for a QR
      secret by the holder of a key verifies. */
  datatype Identity = Identity(self: DeviceId, idOf: Key -> DeviceId, verify: (Secret, Key, Proof) -> bool)

  datatype Reason =
    | Unspecified | UserStopped | PeerStopped | PermissionDenied | PermissionRevoked | DeviceBusy
    | AudioDeviceLost | CallInterruption | Superseded | IncompatibleVersion | NetworkLost
    | UnsupportedEndpoint | Timeout | RateLimited | VirtualMicBusy

  /** An authenticated connection. */
  datatype Est = Est(conn: ConnId, key: Key, dialed: bool)

  datatype Session = Session(est: Est, connectedAt: nat, nextRoute: byte)

  datatype Pairing = Pairing(est: Est, localConfirmed: bool, peerConfirmed: bool, qrScanner: bool)

  datatype Trusted = Trusted(key: Key, blocked: bool, autoConnect: bool)

  datatype Qr = Qr(secret: Secret, expires: nat)

  /** Who is trusted, connected, or on the way to it. */
  datatype Tables = Tables(
    trust: map<DeviceId, Trusted>,
    sessions: map<DeviceId, Session>,
    connIndex: map<ConnId, DeviceId>,
    pairings: map<DeviceId, Pairing>,
    unpaired: map<ConnId, Est>)

  /** The dials in progress. */
  datatype Dials = Dials(
    /** Devices with a dial state; true while a dial is in flight. */
    states: map<DeviceId, bool>,
    targets: map<ConnId, DeviceId>,
    /** Outgoing pairing dials; true for QR pairing. */
    pairing: map<ConnId, bool>,
    nextConn: ConnId)

  datatype State = State(
    t: Tables,
    d: Dials,
    qr: Option<Qr>,
    routes: seq<Route>,
    /** Close commands sent to session tasks, oldest first. */
    outbox: seq<(ConnId, Reason)>)

  /** What surrounds an event: the wall clock, whether the TLS exporter, the trust store and the pairing
      limiter agree, and the route policy with the
      monotonic clock. */
  datatype Ambient = Ambient(nowUnix: nat, exporterOk: bool, saved: bool, allowed: bool, policy: Policy)

  const TIE_BREAK_MS: nat := 5000

  // ---------------------------------------------------------------- dialing

  function Idle(states: map<DeviceId, bool>, id: DeviceId): map<DeviceId, bool> {
    if id in states then states[id := false] else states
  }

  function OtherTargets(targets: map<ConnId, DeviceId>, id: DeviceId): map<ConnId, DeviceId> {
    map c | c in targets && targets[c] != id :: targets[c]
  }

  function CancelDial(d: Dials, id: DeviceId): Dials {
    d.(states := Idle(d.states, id), targets := OtherTargets(d.targets, id))
  }

  /** Cancel, and forget the device's dial state. */
  function DropDial(d: Dials, id: DeviceId): Dials {
    CancelDial(d, id).(states := Idle(d.states, id) - {id})
  }

  function EnsureDial(d: Dials, id: DeviceId): Dials {
    if id in d.states then d else d.(states := d.states[id := false])
  }

  /** Allocate a connection id and start a dial task. */
  function StartDial(d: Dials, target: Option<DeviceId>): Dials {
    d.(nextConn := d.nextConn + 1,
       targets := if target.Some? then d.targets[d.nextConn := target.value] else d.targets)
  }

  /** Dial a trusted device that has no session, when its timer is due and it has an address. */
  function TryDial(t: Tables, d: Dials, id: DeviceId, due: bool, reachable: bool): Dials {
    if id in t.sessions || id !in t.trust || t.trust[id].blocked then d else
    var d1 := EnsureDial(d, id);
    if d1.states[id] || !due || !reachable then d1
    else StartDial(d1.(states := d1.states[id := true]), Some(id))
  }

  function Connect(t: Tables, d: Dials, id: DeviceId, reachable: bool): Dials {
    TryDial(t, EnsureDial(d, id), id, true, reachable)
  }

  /** A pairing dial: with a scanned QR code the connection is pinned to the code's device. */
  function PairDial(d: Dials, target: Option<DeviceId>): Dials {
    StartDial(d, target).(pairing := d.pairing[d.nextConn := target.Some?])
  }

  function EndDial(d: Dials, conn: ConnId): Dials {
    d.(pairing := d.pairing - {conn}, targets := d.targets - {conn})
  }

  function DialFailed(t: Tables, d: Dials, conn: ConnId, target: Option<DeviceId>): Dials {
    if target.Some? && target.value in t.trust
    then EndDial(d, conn).(states := d.states[target.value := false]) else EndDial(d, conn)
  }

  function HandshakeFailed(d: Dials, conn: ConnId): Dials {
    if conn in d.targets then EndDial(d, conn).(states := Idle(d.states, d.targets[conn])) else EndDial(d, conn)
  }

  // ---------------------------------------------------------------- sessions

  function Link(t: Tables, id: DeviceId, s: Session): Tables {
    t.(sessions := t.sessions[id := s], connIndex := t.connIndex[s.est.conn := id])
  }

  function Unlink(t: Tables, id: DeviceId): Tables {
    if id !in t.sessions then t
    else t.(sessions := t.sessions - {id}, connIndex := t.connIndex - {t.sessions[id].est.conn})
  }

  /** The Close command for a device's session, if it has one. */
  function CloseOf(t: Tables, id: DeviceId, reason: Reason): seq<(ConnId, Reason)> {
    if id in t.sessions then [(t.sessions[id].est.conn, reason)] else []
  }

  /** Simultaneous dials: keep the prior connection if it, and not the new one, was dialed by the lower id. */
  predicate KeepsPrior(me: Identity, id: DeviceId, prior: Session, est: Est, now: nat) {
    var localLower := me.self < id;
    prior.est.dialed == localLower && est.dialed != localLower && now - prior.connectedAt < TIE_BREAK_MS
  }

  predicate Rejects(me: Identity, t: Tables, id: DeviceId, est: Est, now: nat) {
    id in t.sessions && KeepsPrior(me, id, t.sessions[id], est, now)
  }

  function FirstRouteId(est: Est): byte { if est.dialed then 2 else 1 }

  /** The routes when a connection becomes the session: paused if it replaces one, then resumed. */
  function RoutesOnPromote(t: Tables, routes: seq<Route>, id: DeviceId, est: Est, policy: Policy): (seq<Route>, byte) {
    Resume(if id in t.sessions then Pause(routes, id, policy.now) else routes, FirstRouteId(est), id, policy)
  }

  function Promote(me: Identity, n: State, id: DeviceId, est: Est, a: Ambient): State {
    if Rejects(me, n.t, id, est, a.policy.now)
    then n.(d := CancelDial(n.d, id), outbox := n.outbox + [(est.conn, Superseded)])
    else
      var (routes, nextRoute) := RoutesOnPromote(n.t, n.routes, id, est, a.policy);
      State(Link(Unlink(n.t, id), id, Session(est, a.policy.now, nextRoute)), CancelDial(n.d, id), n.qr, routes,
            n.outbox + CloseOf(n.t, id, Superseded))
  }

  function OnEstablished(me: Identity, n: State, est: Est, a: Ambient): State {
    var id := me.idOf(est.key);
    var n1 := n.(d := EndDial(n.d, est.conn));
    if id in n.t.trust then
      if n.t.trust[id].blocked || n.t.trust[id].key != est.key then n1.(outbox := n.outbox + [(est.conn, PermissionDenied)])
      else Promote(me, n1, id, est, a)
    else if est.dialed then
      if est.conn in n.d.pairing then BeginPairing(n1, id, est, n.d.pairing[est.conn], a)
      else n1.(outbox := n.outbox + [(est.conn, PermissionDenied)])
    else if !a.allowed then n1.(outbox := n.outbox + [(est.conn, RateLimited)])
    else n1.(t := n.t.(unpaired := n.t.unpaired[est.conn := est]))
  }

  /** The pairing, if any, that uses this connection. */
  ghost function PairingOn(t: Tables, conn: ConnId): Option<DeviceId> {
    if exists id :: id in t.pairings && t.pairings[id].est.conn == conn
    then var id :| id in t.pairings && t.pairings[id].est.conn == conn; Some(id)
    else None
  }

  /** The connection leaves the waiting tables. */
  ghost function DropWaiting(t: Tables, conn: ConnId): Tables {
    t.(unpaired := t.unpaired - {conn},
       pairings := if PairingOn(t, conn).Some? then t.pairings - {PairingOn(t, conn).value} else t.pairings)
  }

  function SetAuto(trust: map<DeviceId, Trusted>, id: DeviceId, auto: bool): map<DeviceId, Trusted> {
    if id in trust then trust[id := trust[id].(autoConnect := auto)] else trust
  }

  /** The session with `id` is gone. */
  function SessionEnded(n: State, id: DeviceId, reason: Reason, now: nat): State {
    if reason == PermissionDenied || reason == PermissionRevoked then
      n.(t := n.t.(trust := SetAuto(n.t.trust, id, false)), d := DropDial(n.d, id), routes := Without(n.routes, id))
    else if reason == UserStopped then n.(routes := Without(n.routes, id))
    else n.(d := if id in n.t.trust && n.t.trust[id].autoConnect then n.d.(states := n.d.states[id := false]) else n.d,
            routes := Pause(n.routes, id, now))
  }

  ghost function OnClosed(n: State, conn: ConnId, reason: Reason, now: nat): State {
    var t := DropWaiting(n.t, conn);
    if conn !in t.connIndex then n.(t := t) else
    var id := t.connIndex[conn];
    if id !in t.sessions || t.sessions[id].est.conn != conn then n.(t := t.(connIndex := t.connIndex - {conn}))
    else SessionEnded(n.(t := Unlink(t, id)), id, reason, now)
  }

  // ---------------------------------------------------------------- pairing

  function BeginPairing(n: State, id: DeviceId, est: Est, qrScanner: bool, a: Ambient): State {
    if !a.exporterOk then n.(outbox := n.outbox + [(est.conn, Unspecified)])
    else n.(t := n.t.(pairings := n.t.pairings[id := Pairing(est, false, false, qrScanner)]),
            outbox := if id in n.t.pairings then n.outbox + [(n.t.pairings[id].est.conn, Superseded)] else n.outbox)
  }

  function EndPairing(n: State, id: DeviceId, reason: Reason): State {
    if id !in n.t.pairings then n
    else n.(t := n.t.(pairings := n.t.pairings - {id}), outbox := n.outbox + [(n.t.pairings[id].est.conn, reason)])
  }

  function Mark(t: Tables, id: DeviceId, mine: bool, theirs: bool): Tables
    requires id in t.pairings
  {
    t.(pairings := t.pairings[id := t.pairings[id].(localConfirmed := mine, peerConfirmed := theirs)])
  }

  function Enroll(t: Tables, id: DeviceId): Tables
    requires id in t.pairings
  {
    t.(pairings := t.pairings - {id}, trust := t.trust[id := Trusted(t.pairings[id].est.key, false, true)])
  }

  /** The device becomes trusted; its connection becomes a session if the store could be written. */
  function Complete(me: Identity, n: State, id: DeviceId, a: Ambient): State {
    if id !in n.t.pairings then n
    else if a.saved then Promote(me, n.(t := Enroll(n.t, id)), id, n.t.pairings[id].est, a)
    else n.(t := Enroll(n.t, id))
  }

  function Confirm(me: Identity, n: State, id: DeviceId, accept: bool, a: Ambient): State {
    if id !in n.t.pairings then n
    else if !accept then EndPairing(n, id, PermissionDenied)
    else
      var p := n.t.pairings[id];
      var n1 := n.(t := Mark(n.t, id, true, p.peerConfirmed));
      if p.peerConfirmed then Complete(me, n1, id, a) else n1
  }

  datatype Msg =
    | PairRequest(proof: Option<Proof>)
    | PairResult(accepted: bool)
    /** The peer accepts a request of this device; `opens` and `ready` tell how its pipeline starts. */
    | RouteAccept(route: byte, opens: bool, ready: bool)
    /** The peer stops or rejects a route. */
    | RouteStop(route: byte)
    | OtherMsg

  predicate ProofHolds(me: Identity, qr: Option<Qr>, key: Key, proof: Option<Proof>, nowUnix: nat) {
    proof.Some? && qr.Some? && nowUnix <= qr.value.expires && me.verify(qr.value.secret, key, proof.value)
  }

  /** A verified QR proof: the code is used up and the device is paired at once. */
  function AcceptProof(me: Identity, n: State, est: Est, a: Ambient): State {
    var id := me.idOf(est.key);
    var n1 := BeginPairing(n.(qr := None), id, est, false, a);
    Complete(me, if id in n1.t.pairings then n1.(t := Mark(n1.t, id, true, true)) else n1, id, a)
  }

  function OnPairRequest(me: Identity, n: State, est: Est, proof: Option<Proof>, a: Ambient): State {
    if ProofHolds(me, n.qr, est.key, proof, a.nowUnix) then AcceptProof(me, n, est, a)
    else if proof.None? && n.qr.Some? then BeginPairing(n, me.idOf(est.key), est, false, a)
    else n.(outbox := n.outbox + [(est.conn, PermissionDenied)])
  }

  function OnPairResult(me: Identity, n: State, id: DeviceId, accepted: bool, a: Ambient): State
    requires id in n.t.pairings
  {
    if !accepted then EndPairing(n, id, PermissionDenied) else
    var p := n.t.pairings[id];
    var n1 := n.(t := Mark(n.t, id, p.localConfirmed, true));
    if p.qrScanner || p.localConfirmed then Complete(me, n1, id, a) else n1
  }

  /** A message of an established session, as far as it changes which routes there are. */
  function OnRouteMsg(routes: seq<Route>, peer: DeviceId, msg: Msg, now: nat): seq<Route> {
    match msg
    case RouteAccept(route, opens, ready) => RouteAccepted(routes, peer, route, opens, ready, now)
    case RouteStop(route) => StopKey(routes, peer, route)
    case _ => routes
  }

  /** Pairing messages of connections that are not sessions yet, and route messages of those that are. */
  ghost function OnControl(me: Identity, n: State, conn: ConnId, msg: Msg, a: Ambient): State {
    if conn in n.t.unpaired then
      var n1 := n.(t := n.t.(unpaired := n.t.unpaired - {conn}));
      if msg.PairRequest? then OnPairRequest(me, n1, n.t.unpaired[conn], msg.proof, a)
      else n1.(outbox := n.outbox + [(conn, PermissionDenied)])
    else match PairingOn(n.t, conn)
      case Some(id) => if msg.PairResult? then OnPairResult(me, n, id, msg.accepted, a) else n
      case None =>
        if conn in n.t.connIndex then n.(routes := OnRouteMsg(n.routes, n.t.connIndex[conn], msg, a.policy.now)) else n
  }

  // ---------------------------------------------------------------- commands

  function Disconnect(n: State, id: DeviceId): State {
    var t := Unlink(n.t, id);
    n.(t := t.(trust := SetAuto(t.trust, id, false)), d := DropDial(n.d, id), routes := Without(n.routes, id),
       outbox := n.outbox + CloseOf(n.t, id, UserStopped))
  }

  function Revoke(n: State, id: DeviceId): State {
    n.(t := Unlink(n.t, id), d := DropDial(n.d, id), routes := Without(n.routes, id),
       outbox := n.outbox + CloseOf(n.t, id, PermissionRevoked))
  }

  function Forget(n: State, id: DeviceId): State {
    var n1 := Revoke(n, id);
    n1.(t := n1.t.(trust := n1.t.trust - {id}))
  }

  function Block(trust: map<DeviceId, Trusted>, id: DeviceId, blocked: bool): map<DeviceId, Trusted> {
    if id in trust then trust[id := trust[id].(blocked := blocked)] else trust
  }

  function SetBlocked(n: State, id: DeviceId, blocked: bool): State {
    var n1 := n.(t := n.t.(trust := Block(n.t.trust, id, blocked)));
    if blocked then Revoke(n1, id) else n1
  }

  /** The periodic tick closes connections that waited too long for a pairing request. */
  function DropUnpaired(n: State, conn: ConnId): State {
    if conn !in n.t.unpaired then n
    else n.(t := n.t.(unpaired := n.t.unpaired - {conn}), outbox := n.outbox + [(conn, Timeout)])
  }

  // ---------------------------------------------------------------- routes

  /** The user starts a route; ids come from the session with the peer, if there is one. */
  function StartRoute(n: State, peer: DeviceId, kind: Kind, replace: bool, policy: Policy): State {
    var session := if peer in n.t.sessions then Some(n.t.sessions[peer].nextRoute) else None;
    var (routes, next) := StartAs(n.routes, session, peer, kind, replace, policy);
    n.(routes := routes,
       t := if peer in n.t.sessions && next.Some?
            then n.t.(sessions := n.t.sessions[peer := n.t.sessions[peer].(nextRoute := next.value)]) else n.t)
  }

  // ---------------------------------------------------------------- events

  datatype Event =
    | StartPairingEv(secret: Secret, expires: nat)
    | StopPairingEv
    | PairWithQrEv(device: DeviceId)
    | PairPlainEv
    | ConfirmEv(id: DeviceId, accept: bool)
    | ConnectEv(id: DeviceId, reachable: bool)
    | TryDialEv(id: DeviceId, due: bool, reachable: bool)
    | DisconnectEv(id: DeviceId)
    | ForgetEv(id: DeviceId)
    | SetBlockedEv(id: DeviceId, blocked: bool)
    | IncomingEv
    | DialFailedEv(conn: ConnId, target: Option<DeviceId>)
    | HandshakeFailedEv(conn: ConnId)
    | EstablishedEv(est: Est)
    | ControlEv(conn: ConnId, msg: Msg)
    | ClosedEv(conn: ConnId, reason: Reason)
    | DropUnpairedEv(conn: ConnId)
    | DropPairingEv(id: DeviceId)
    | StartRouteEv(peer: DeviceId, kind: Kind, replace: bool)
    /** A route ends by its key: the user, a failing device, or a microphone feed that is taken over. */
    | StopRouteEv(peer: DeviceId, route: byte)
    /** A route the peer asked for is accepted, by policy or by the user. */
    | AcceptRouteEv(peer: DeviceId, route: byte, kind: Kind, opens: bool, ready: bool)
    | ReadyEv(peer: DeviceId, route: byte)
    | KeepEv(peer: DeviceId, route: byte, keep: bool)
    | SweepEv

  ghost function Handle(me: Identity, n: State, e: Event, a: Ambient): State {
    match e
    case StartPairingEv(secret, expires) => n.(qr := Some(Qr(secret, expires)))
    case StopPairingEv => n.(qr := None)
    case PairWithQrEv(device) => if device == me.self then n else n.(d := PairDial(n.d, Some(device)))
    case PairPlainEv => n.(d := PairDial(n.d, None))
    case ConfirmEv(id, accept) => Confirm(me, n, id, accept, a)
    case ConnectEv(id, reachable) => n.(d := Connect(n.t, n.d, id, reachable))
    case TryDialEv(id, due, reachable) => n.(d := TryDial(n.t, n.d, id, due, reachable))
    case DisconnectEv(id) => Disconnect(n, id)
    case ForgetEv(id) => Forget(n, id)
    case SetBlockedEv(id, blocked) => SetBlocked(n, id, blocked)
    case IncomingEv => n.(d := n.d.(nextConn := n.d.nextConn + 1))
    case DialFailedEv(conn, target) => n.(d := DialFailed(n.t, n.d, conn, target))
    case HandshakeFailedEv(conn) => n.(d := HandshakeFailed(n.d, conn))
    case EstablishedEv(est) => OnEstablished(me, n, est, a)
    case ControlEv(conn, msg) => OnControl(me, n, conn, msg, a)
    case ClosedEv(conn, reason) => OnClosed(n, conn, reason, a.policy.now)
    case DropUnpairedEv(conn) => DropUnpaired(n, conn)
    case DropPairingEv(id) => EndPairing(n, id, Timeout)
    case StartRouteEv(peer, kind, replace) => StartRoute(n, peer, kind, replace, a.policy)
    case StopRouteEv(peer, route) => n.(routes := StopKey(n.routes, peer, route))
    case AcceptRouteEv(peer, route, kind, opens, ready) =>
      n.(routes := AcceptRoute(n.routes, peer, route, kind, opens, ready, a.policy.now))
    case ReadyEv(peer, route) => n.(routes := Activate(n.routes, peer, route))
    case KeepEv(peer, route, keep) => n.(routes := SetKeep(n.routes, peer, route, keep))
    case SweepEv => n.(routes := Sweep(n.routes, a.policy.now))
  }
}
