/** What every sequence of events leaves true of one device's connection tables and trust store. */
module NodeTheorems {
  import opened Common
  import opened Routes
  import opened Node

  // ---------------------------------------------------------------- the world around a node

  /** How a connection id came to be: accepted, or dialed (pinned to a device, for a scanned QR code). */
  datatype Origin = Inbound | Outbound(pinned: Option<DeviceId>, qr: bool)

  /** The node, plus the history its environment and its users left. */
  datatype World = World(
    n: State,
    origins: map<ConnId, Origin>,
    /** Connections that were established or failed. */
    ended: set<ConnId>,
    /** Connections whose pairing the local user confirmed while it was shown. */
    confirmed: set<ConnId>,
    /** Connections on which the peer accepted. */
    accepted: set<ConnId>,
    offered: set<Secret>,
    spent: set<Secret>)

  ghost predicate Injective(me: Identity) { forall a, b :: me.idOf(a) == me.idOf(b) ==> a == b }

  /** What the transport and the random generator guarantee: each connection ends its setup once, a
      pinned dial reaches the pinned device, and QR secrets are fresh. */
  ghost predicate Possible(me: Identity, w: World, e: Event) {
    match e
    case EstablishedEv(est) =>
      && est.conn in w.origins && est.conn !in w.ended
      && est.dialed == w.origins[est.conn].Outbound?
      && (est.dialed && w.origins[est.conn].pinned.Some? ==> me.idOf(est.key) == w.origins[est.conn].pinned.value)
    case DialFailedEv(conn, target) =>
      conn in w.origins && conn !in w.ended && w.origins[conn].Outbound? && w.origins[conn].pinned == target
    case HandshakeFailedEv(conn) => conn in w.origins && conn !in w.ended
    case StartPairingEv(secret, _) => secret !in w.offered
    case _ => true
  }

  ghost function OriginOf(e: Event): Origin {
    match e
    case PairWithQrEv(device) => Outbound(Some(device), true)
    case PairPlainEv => Outbound(None, false)
    case ConnectEv(id, _) => Outbound(Some(id), false)
    case TryDialEv(id, _, _) => Outbound(Some(id), false)
    case _ => Inbound
  }

  /** The QR secret whose proof this event verifies, if it does. */
  ghost function Verified(me: Identity, n: State, e: Event, a: Ambient): Option<Secret> {
    if e.ControlEv? && e.conn in n.t.unpaired && e.msg.PairRequest?
       && ProofHolds(me, n.qr, n.t.unpaired[e.conn].key, e.msg.proof, a.nowUnix)
    then Some(n.qr.value.secret) else None
  }

  ghost function EndedBy(e: Event): set<ConnId> {
    match e
    case EstablishedEv(est) => {est.conn}
    case DialFailedEv(conn, _) => {conn}
    case HandshakeFailedEv(conn) => {conn}
    case _ => {}
  }

  ghost function ConfirmedBy(t: Tables, e: Event): set<ConnId> {
    if e.ConfirmEv? && e.accept && e.id in t.pairings then {t.pairings[e.id].est.conn} else {}
  }

  ghost function AcceptedBy(e: Event): set<ConnId> {
    if e.ControlEv? && e.msg == PairResult(true) then {e.conn} else {}
  }

  ghost function Next(me: Identity, w: World, e: Event, a: Ambient): World {
    var n := Handle(me, w.n, e, a);
    var proven := Verified(me, w.n, e, a);
    World(n,
          if n.d.nextConn == w.n.d.nextConn then w.origins else w.origins[w.n.d.nextConn := OriginOf(e)],
          w.ended + EndedBy(e),
          w.confirmed + ConfirmedBy(w.n.t, e),
          w.accepted + AcceptedBy(e),
          if e.StartPairingEv? then w.offered + {e.secret} else w.offered,
          if proven.Some? then w.spent + {proven.value} else w.spent)
  }

  datatype Input = Input(e: Event, a: Ambient)

  ghost function Run(me: Identity, w: World, ins: seq<Input>): World {
    if ins == [] then w else
    var i := ins[|ins| - 1];
    Next(me, Run(me, w, ins[..|ins| - 1]), i.e, i.a)
  }

  ghost predicate PossibleRun(me: Identity, w: World, ins: seq<Input>) {
    forall i :: 0 <= i < |ins| ==> Possible(me, Run(me, w, ins[..i]), ins[i].e)
  }

  // ---------------------------------------------------------------- consistency

  /** The connection index is exactly the inverse of the session table. */
  ghost predicate Indexed(sessions: map<DeviceId, Session>, index: map<ConnId, DeviceId>) {
    && (forall id :: id in sessions ==> sessions[id].est.conn in index && index[sessions[id].est.conn] == id)
    && (forall c :: c in index ==> index[c] in sessions && sessions[index[c]].est.conn == c)
  }

  ghost predicate PairedOn(pairings: map<DeviceId, Pairing>, conn: ConnId) {
    exists id :: id in pairings && pairings[id].est.conn == conn
  }

  /** A connection is used in at most one place. */
  ghost predicate Apart(pairings: map<DeviceId, Pairing>, unpaired: map<ConnId, Est>, index: map<ConnId, DeviceId>) {
    && (forall c :: c in unpaired ==> unpaired[c].conn == c && c !in index && !PairedOn(pairings, c))
    && (forall c :: c in index ==> !PairedOn(pairings, c))
    && (forall a, b :: a in pairings && b in pairings && a != b ==> pairings[a].est.conn != pairings[b].est.conn)
  }

  /** No table uses this connection. */
  ghost predicate Unused(t: Tables, conn: ConnId) {
    conn !in t.unpaired && conn !in t.connIndex && !PairedOn(t.pairings, conn)
  }

  /** Every session's device is trusted, not blocked, and uses the stored key. */
  ghost predicate SessionsTrusted(sessions: map<DeviceId, Session>, trust: map<DeviceId, Trusted>) {
    forall id :: id in sessions ==> id in trust && !trust[id].blocked && trust[id].key == sessions[id].est.key
  }

  /** Trusted devices and pending pairings are filed under the id of their key. */
  ghost predicate FiledTrust(me: Identity, trust: map<DeviceId, Trusted>) {
    forall id :: id in trust ==> me.idOf(trust[id].key) == id
  }

  ghost predicate FiledPairings(me: Identity, pairings: map<DeviceId, Pairing>) {
    forall id :: id in pairings ==> me.idOf(pairings[id].est.key) == id
  }

  /** The tables of one node agree with each other. */
  ghost predicate Agree(me: Identity, t: Tables) {
    && Indexed(t.sessions, t.connIndex)
    && Apart(t.pairings, t.unpaired, t.connIndex)
    && SessionsTrusted(t.sessions, t.trust)
    && FiledTrust(me, t.trust) && FiledPairings(me, t.pairings)
  }

  // ---------------------------------------------------------------- events of one kind

  predicate AboutDials(e: Event) {
    e.PairWithQrEv? || e.PairPlainEv? || e.ConnectEv? || e.TryDialEv? || e.IncomingEv? || e.DialFailedEv? || e.HandshakeFailedEv?
  }

  predicate AboutRoutes(e: Event) {
    e.StopRouteEv? || e.AcceptRouteEv? || e.ReadyEv? || e.KeepEv? || e.SweepEv?
  }

  /** Events about dials leave everything else alone. */
  lemma DialsOnly(me: Identity, n: State, e: Event, a: Ambient)
    requires AboutDials(e)
    ensures Handle(me, n, e, a) == n.(d := Handle(me, n, e, a).d)
  {
    hide TryDial, Connect, PairDial, DialFailed, HandshakeFailed;
  }

  /** Events about routes leave everything else alone. */
  lemma RoutesOnly(me: Identity, n: State, e: Event, a: Ambient)
    requires AboutRoutes(e)
    ensures Handle(me, n, e, a) == n.(routes := Handle(me, n, e, a).routes)
  {
    hide StopKey, AcceptRoute, Activate, SetKeep, Sweep;
  }

  /** Starting a route changes the routes and a session's next route id. */
  lemma StartsOnly(n: State, peer: DeviceId, kind: Kind, replace: bool, policy: Policy)
    ensures var n1 := StartRoute(n, peer, kind, replace, policy);
            && n1 == n.(routes := n1.routes, t := n.t.(sessions := n1.t.sessions))
            && n1.t.sessions.Keys == n.t.sessions.Keys
            && forall id :: id in n.t.sessions ==> n1.t.sessions[id] == n.t.sessions[id].(nextRoute := n1.t.sessions[id].nextRoute)
  {
    hide StartAs;
  }

  // ---------------------------------------------------------------- routes stay running

  lemma {:induction false} WithoutMembers(routes: seq<Route>, peer: DeviceId, r: Route)
    ensures r in Without(routes, peer) <==> r in routes && r.peer != peer
  {
    if routes != [] { WithoutMembers(routes[..|routes| - 1], peer, r); }
  }

  lemma RoutesRun(routes: seq<Route>, peer: DeviceId, now: nat)
    requires NoneStopped(routes)
    ensures NoneStopped(Pause(routes, peer, now)) && NoneStopped(Without(routes, peer))
  {
    forall r ensures r in Pause(routes, peer, now) ==> r.status != Stopped
             ensures r in Without(routes, peer) ==> r.status != Stopped
    {
      LiveMembers(PauseAll(routes, peer, now), r);
      WithoutMembers(routes, peer, r);
    }
  }

  lemma {:induction false} ResumeKindsRun(w: Work, peer: DeviceId, kinds: seq<Kind>, policy: Policy)
    requires Extends(w.routes, w, peer)
    ensures Extends(w.routes, ResumeKinds(w, peer, kinds, policy), peer)
  {
    if kinds != [] {
      ResumeKindsRun(w, peer, kinds[..|kinds| - 1], policy);
      ResumeOneExtends(w.routes, ResumeKinds(w, peer, kinds[..|kinds| - 1], policy), peer, kinds[|kinds| - 1], policy);
    }
  }

  lemma ResumeRuns(routes: seq<Route>, nextId: byte, peer: DeviceId, policy: Policy)
    requires NoneStopped(routes)
    ensures NoneStopped(Resume(routes, nextId, peer, policy).0)
  {
    RestNotStopped(routes, peer);
    ResumeKindsRun(Work(Rest(routes, peer), nextId, Taken(routes, peer)), peer,
                   AddSaved(KindsOf(Taken(routes, peer)), policy.saved, peer, policy.resumeAll), policy);
  }

  // ---------------------------------------------------------------- map by map

  lemma IndexedRemove(sessions: map<DeviceId, Session>, index: map<ConnId, DeviceId>, id: DeviceId)
    requires Indexed(sessions, index) && id in sessions
    ensures Indexed(sessions - {id}, index - {sessions[id].est.conn})
  {
  }

  lemma IndexedAdd(sessions: map<DeviceId, Session>, index: map<ConnId, DeviceId>, id: DeviceId, s: Session)
    requires Indexed(sessions, index) && id !in sessions && s.est.conn !in index
    ensures Indexed(sessions[id := s], index[s.est.conn := id])
  {
  }

  lemma ApartRemovePairing(pairings: map<DeviceId, Pairing>, unpaired: map<ConnId, Est>, index: map<ConnId, DeviceId>, id: DeviceId)
    requires Apart(pairings, unpaired, index) && id in pairings
    ensures Apart(pairings - {id}, unpaired, index)
    ensures !PairedOn(pairings - {id}, pairings[id].est.conn)
  {
    forall c | PairedOn(pairings - {id}, c) ensures PairedOn(pairings, c) {
      var x :| x in pairings - {id} && (pairings - {id})[x].est.conn == c;
      assert x in pairings;
    }
  }

  /** A pairing for `id` with a connection no other entry uses. */
  lemma ApartPutPairing(pairings: map<DeviceId, Pairing>, unpaired: map<ConnId, Est>, index: map<ConnId, DeviceId>, id: DeviceId, p: Pairing)
    requires Apart(pairings, unpaired, index)
    requires if id in pairings && pairings[id].est.conn == p.est.conn then true
             else p.est.conn !in unpaired && p.est.conn !in index && !PairedOn(pairings, p.est.conn)
    ensures Apart(pairings[id := p], unpaired, index)
  {
    forall c | PairedOn(pairings[id := p], c) ensures PairedOn(pairings, c) || c == p.est.conn {
      var x :| x in pairings[id := p] && (pairings[id := p])[x].est.conn == c;
      assert x != id ==> x in pairings;
    }
    if id in pairings && pairings[id].est.conn == p.est.conn { assert PairedOn(pairings, p.est.conn); }
  }

  lemma ApartSmaller(pairings: map<DeviceId, Pairing>, unpaired: map<ConnId, Est>, index: map<ConnId, DeviceId>,
                     conns: set<ConnId>, gone: set<ConnId>)
    requires Apart(pairings, unpaired, index)
    ensures Apart(pairings, unpaired - conns, index - gone)
  {
  }

  lemma ApartIndex(pairings: map<DeviceId, Pairing>, unpaired: map<ConnId, Est>, index: map<ConnId, DeviceId>, conn: ConnId, id: DeviceId)
    requires Apart(pairings, unpaired, index) && conn !in unpaired && !PairedOn(pairings, conn)
    ensures Apart(pairings, unpaired, index[conn := id])
  {
  }

  lemma ApartUnpaired(pairings: map<DeviceId, Pairing>, unpaired: map<ConnId, Est>, index: map<ConnId, DeviceId>, est: Est)
    requires Apart(pairings, unpaired, index) && est.conn !in index && !PairedOn(pairings, est.conn)
    ensures Apart(pairings, unpaired[est.conn := est], index)
  {
  }

  // ---------------------------------------------------------------- table by table

  lemma UnlinkAgree(me: Identity, t: Tables, id: DeviceId)
    requires Agree(me, t)
    ensures Agree(me, Unlink(t, id)) && id !in Unlink(t, id).sessions
  {
    if id in t.sessions {
      IndexedRemove(t.sessions, t.connIndex, id);
      ApartSmaller(t.pairings, t.unpaired, t.connIndex, {}, {t.sessions[id].est.conn});
      assert t.unpaired - {} == t.unpaired;
    }
  }

  lemma LinkAgree(me: Identity, t: Tables, id: DeviceId, s: Session)
    requires Agree(me, t) && Unused(t, s.est.conn) && id !in t.sessions
    requires id in t.trust && !t.trust[id].blocked && t.trust[id].key == s.est.key
    ensures Agree(me, Link(t, id, s))
  {
    IndexedAdd(t.sessions, t.connIndex, id, s);
    ApartIndex(t.pairings, t.unpaired, t.connIndex, s.est.conn, id);
  }

  /** A connection replaces the session of its device. */
  lemma RelinkAgree(me: Identity, t: Tables, id: DeviceId, s: Session)
    requires Agree(me, t) && Unused(t, s.est.conn)
    requires id in t.trust && !t.trust[id].blocked && t.trust[id].key == s.est.key
    ensures Agree(me, Link(Unlink(t, id), id, s))
  {
    UnlinkAgree(me, t, id);
    LinkAgree(me, Unlink(t, id), id, s);
  }

  lemma PairAgree(me: Identity, t: Tables, id: DeviceId, p: Pairing)
    requires Agree(me, t) && me.idOf(p.est.key) == id
    requires (id in t.pairings && t.pairings[id].est.conn == p.est.conn) || Unused(t, p.est.conn)
    ensures Agree(me, t.(pairings := t.pairings[id := p]))
  {
    ApartPutPairing(t.pairings, t.unpaired, t.connIndex, id, p);
  }

  lemma MarkAgree(me: Identity, t: Tables, id: DeviceId, mine: bool, theirs: bool)
    requires Agree(me, t) && id in t.pairings
    ensures Agree(me, Mark(t, id, mine, theirs))
  {
    PairAgree(me, t, id, t.pairings[id].(localConfirmed := mine, peerConfirmed := theirs));
  }

  lemma UnpairAgree(me: Identity, t: Tables, id: DeviceId)
    requires Agree(me, t) && id in t.pairings
    ensures var t1 := t.(pairings := t.pairings - {id}); Agree(me, t1) && Unused(t1, t.pairings[id].est.conn)
  {
    ApartRemovePairing(t.pairings, t.unpaired, t.connIndex, id);
    assert PairedOn(t.pairings, t.pairings[id].est.conn);
  }

  lemma EnrollAgree(me: Identity, t: Tables, id: DeviceId)
    requires Injective(me) && Agree(me, t) && id in t.pairings
    ensures Agree(me, Enroll(t, id)) && Unused(Enroll(t, id), t.pairings[id].est.conn)
  {
    UnpairAgree(me, t, id);
    assert id in t.trust ==> t.trust[id].key == t.pairings[id].est.key;
    assert SessionsTrusted(t.sessions, Enroll(t, id).trust);
  }

  lemma ForgetUnpairedAgree(me: Identity, t: Tables, conn: ConnId)
    requires Agree(me, t)
    ensures Agree(me, t.(unpaired := t.unpaired - {conn}))
    ensures conn in t.unpaired ==> Unused(t.(unpaired := t.unpaired - {conn}), conn)
  {
    ApartSmaller(t.pairings, t.unpaired, t.connIndex, {conn}, {});
    assert t.connIndex - {} == t.connIndex;
  }

  lemma DropWaitingAgree(me: Identity, t: Tables, conn: ConnId)
    requires Agree(me, t)
    ensures Agree(me, DropWaiting(t, conn))
  {
    var t1 := t.(unpaired := t.unpaired - {conn});
    ForgetUnpairedAgree(me, t, conn);
    if PairingOn(t, conn).Some? { UnpairAgree(me, t1, PairingOn(t, conn).value); }
  }

  /** Changing how one device is listed keeps agreement if its key stays and a session is not blocked. */
  lemma TrustAgree(me: Identity, t: Tables, trust: map<DeviceId, Trusted>)
    requires Agree(me, t) && FiledTrust(me, trust)
    requires forall x :: x in t.sessions ==> x in trust && trust[x].key == t.trust[x].key && !trust[x].blocked
    ensures Agree(me, t.(trust := trust))
  {
  }

  // ---------------------------------------------------------------- event by event

  lemma PromoteAgree(me: Identity, n: State, id: DeviceId, est: Est, a: Ambient)
    requires Agree(me, n.t) && Unused(n.t, est.conn)
    requires id in n.t.trust && !n.t.trust[id].blocked && n.t.trust[id].key == est.key
    ensures Agree(me, Promote(me, n, id, est, a).t)
  {
    RelinkAgree(me, n.t, id, Session(est, a.policy.now, RoutesOnPromote(n.t, n.routes, id, est, a.policy).1));
  }

  lemma CompleteAgree(me: Identity, n: State, id: DeviceId, a: Ambient)
    requires Injective(me) && Agree(me, n.t)
    ensures Agree(me, Complete(me, n, id, a).t)
  {
    if id in n.t.pairings {
      EnrollAgree(me, n.t, id);
      PromoteAgree(me, n.(t := Enroll(n.t, id)), id, n.t.pairings[id].est, a);
    }
  }

  lemma BeginPairingAgree(me: Identity, n: State, est: Est, qr: bool, a: Ambient)
    requires Agree(me, n.t) && Unused(n.t, est.conn)
    ensures Agree(me, BeginPairing(n, me.idOf(est.key), est, qr, a).t)
  {
    PairAgree(me, n.t, me.idOf(est.key), Pairing(est, false, false, qr));
  }

  lemma AcceptProofAgree(me: Identity, n: State, est: Est, a: Ambient)
    requires Injective(me) && Agree(me, n.t) && Unused(n.t, est.conn)
    ensures Agree(me, AcceptProof(me, n, est, a).t)
  {
    var id := me.idOf(est.key);
    BeginPairingAgree(me, n.(qr := None), est, false, a);
    var n1 := BeginPairing(n.(qr := None), id, est, false, a);
    if id in n1.t.pairings {
      MarkAgree(me, n1.t, id, true, true);
      CompleteAgree(me, n1.(t := Mark(n1.t, id, true, true)), id, a);
    }
  }

  lemma EndPairingAgree(me: Identity, n: State, id: DeviceId, reason: Reason)
    requires Agree(me, n.t)
    ensures Agree(me, EndPairing(n, id, reason).t)
  {
    if id in n.t.pairings { UnpairAgree(me, n.t, id); }
  }

  lemma OnPairResultAgree(me: Identity, n: State, id: DeviceId, accepted: bool, a: Ambient)
    requires Injective(me) && Agree(me, n.t) && id in n.t.pairings
    ensures Agree(me, OnPairResult(me, n, id, accepted, a).t)
  {
    var p := n.t.pairings[id];
    EndPairingAgree(me, n, id, PermissionDenied);
    MarkAgree(me, n.t, id, p.localConfirmed, true);
    CompleteAgree(me, n.(t := Mark(n.t, id, p.localConfirmed, true)), id, a);
  }

  lemma ConfirmAgree(me: Identity, n: State, id: DeviceId, accept: bool, a: Ambient)
    requires Injective(me) && Agree(me, n.t)
    ensures Agree(me, Confirm(me, n, id, accept, a).t)
  {
    if id in n.t.pairings {
      var p := n.t.pairings[id];
      EndPairingAgree(me, n, id, PermissionDenied);
      MarkAgree(me, n.t, id, true, p.peerConfirmed);
      CompleteAgree(me, n.(t := Mark(n.t, id, true, p.peerConfirmed)), id, a);
    }
  }

  lemma OnControlAgree(me: Identity, n: State, conn: ConnId, msg: Msg, a: Ambient)
    requires Injective(me) && Agree(me, n.t)
    ensures Agree(me, OnControl(me, n, conn, msg, a).t)
  {
    if conn in n.t.unpaired {
      ForgetUnpairedAgree(me, n.t, conn);
      var n1, est := n.(t := n.t.(unpaired := n.t.unpaired - {conn})), n.t.unpaired[conn];
      BeginPairingAgree(me, n1, est, false, a);
      AcceptProofAgree(me, n1, est, a);
    } else if PairingOn(n.t, conn).Some? && msg.PairResult? {
      OnPairResultAgree(me, n, PairingOn(n.t, conn).value, msg.accepted, a);
    }
  }

  lemma OnEstablishedAgree(me: Identity, n: State, est: Est, a: Ambient)
    requires Agree(me, n.t) && Unused(n.t, est.conn)
    ensures Agree(me, OnEstablished(me, n, est, a).t)
  {
    var id := me.idOf(est.key);
    var n1 := n.(d := EndDial(n.d, est.conn));
    ApartUnpaired(n.t.pairings, n.t.unpaired, n.t.connIndex, est);
    if id in n.t.trust {
      if !n.t.trust[id].blocked && n.t.trust[id].key == est.key { PromoteAgree(me, n1, id, est, a); }
    } else if est.dialed && est.conn in n.d.pairing {
      BeginPairingAgree(me, n1, est, n.d.pairing[est.conn], a);
    }
  }

  lemma OnClosedAgree(me: Identity, n: State, conn: ConnId, reason: Reason, now: nat)
    requires Agree(me, n.t)
    ensures Agree(me, OnClosed(n, conn, reason, now).t)
  {
    var t := DropWaiting(n.t, conn);
    DropWaitingAgree(me, n.t, conn);
    if conn in t.connIndex {
      var id := t.connIndex[conn];
      UnlinkAgree(me, t, id);
      SessionEndedAgree(me, n.(t := Unlink(t, id)), id, reason, now);
    }
  }

  lemma AutoAgree(me: Identity, t: Tables, id: DeviceId)
    requires Agree(me, t)
    ensures Agree(me, t.(trust := SetAuto(t.trust, id, false)))
  {
    TrustAgree(me, t, SetAuto(t.trust, id, false));
  }

  lemma SessionEndedAgree(me: Identity, n: State, id: DeviceId, reason: Reason, now: nat)
    requires Agree(me, n.t)
    ensures Agree(me, SessionEnded(n, id, reason, now).t)
  {
    AutoAgree(me, n.t, id);
  }

  /** A session is ended before its device stops being trusted. */
  lemma RevokeAgree(me: Identity, t: Tables, id: DeviceId, trust: map<DeviceId, Trusted>)
    requires Agree(me, t) && FiledTrust(me, trust)
    requires forall x :: x in t.trust && x != id ==> x in trust && trust[x] == t.trust[x]
    ensures Agree(me, Unlink(t, id).(trust := trust))
  {
    UnlinkAgree(me, t, id);
    TrustAgree(me, Unlink(t, id), trust);
  }

  lemma SetBlockedAgree(me: Identity, n: State, id: DeviceId, blocked: bool)
    requires Agree(me, n.t)
    ensures Agree(me, SetBlocked(n, id, blocked).t)
  {
    var trust := Block(n.t.trust, id, blocked);
    RevokeAgree(me, n.t, id, trust);
    if blocked {
      assert SetBlocked(n, id, blocked).t == Unlink(n.t, id).(trust := trust);
    } else {
      TrustAgree(me, n.t, trust);
    }
  }

  /** Starting a route moves nothing but the session's next route id. */
  lemma StartRouteAgree(me: Identity, n: State, peer: DeviceId, kind: Kind, replace: bool, policy: Policy)
    requires Agree(me, n.t)
    ensures Agree(me, StartRoute(n, peer, kind, replace, policy).t)
  {
    StartsOnly(n, peer, kind, replace, policy);
    hide StartRoute;
  }

  lemma CommandAgree(me: Identity, n: State, id: DeviceId)
    requires Agree(me, n.t)
    ensures Agree(me, Disconnect(n, id).t) && Agree(me, Forget(n, id).t)
  {
    UnlinkAgree(me, n.t, id);
    AutoAgree(me, Unlink(n.t, id), id);
    RevokeAgree(me, n.t, id, n.t.trust - {id});
    hide Agree, Unlink;
  }

  /** Every event keeps the tables of a node in agreement. */
  lemma {:induction false} HandleAgree(me: Identity, n: State, e: Event, a: Ambient)
    requires Injective(me) && Agree(me, n.t) && (e.EstablishedEv? ==> Unused(n.t, e.est.conn))
    ensures Agree(me, Handle(me, n, e, a).t)
  {
    hide Agree, Unused, Confirm, Disconnect, Forget, SetBlocked, OnEstablished, OnControl, OnClosed, EndPairing, StartRoute;
    if AboutDials(e) {
      hide Handle;
      DialsOnly(me, n, e, a);
    } else if AboutRoutes(e) {
      hide Handle;
      RoutesOnly(me, n, e, a);
    } else {
      match e
      case ConfirmEv(id, accept) => ConfirmAgree(me, n, id, accept, a);
      case DisconnectEv(id) => CommandAgree(me, n, id);
      case ForgetEv(id) => CommandAgree(me, n, id);
      case SetBlockedEv(id, blocked) => SetBlockedAgree(me, n, id, blocked);
      case EstablishedEv(est) => OnEstablishedAgree(me, n, est, a);
      case ControlEv(conn, msg) => OnControlAgree(me, n, conn, msg, a);
      case ClosedEv(conn, reason) => OnClosedAgree(me, n, conn, reason, a.policy.now);
      case DropUnpairedEv(conn) => ForgetUnpairedAgree(me, n.t, conn);
      case DropPairingEv(id) => EndPairingAgree(me, n, id, Timeout);
      case StartRouteEv(peer, kind, replace) => StartRouteAgree(me, n, peer, kind, replace, a.policy);
      case _ =>
    }
  }

  // ---------------------------------------------------------------- which connection is the session

  /** The connection of a trusted device becomes its session. */
  ghost predicate Takes(n: State, after: State, id: DeviceId, est: Est, now: nat) {
    && id in after.t.sessions && after.t.sessions[id].est == est && after.t.sessions[id].connectedAt == now
    && (forall x :: x != id ==> (x in after.t.sessions <==> x in n.t.sessions))
    && (forall x :: x != id && x in n.t.sessions ==> after.t.sessions[x] == n.t.sessions[x])
    && after.t.trust == n.t.trust && after.t.pairings == n.t.pairings && after.t.unpaired == n.t.unpaired
    // and no dial for it is left
    && after.d.states == (if id in n.d.states then n.d.states[id := false] else n.d.states)
    && (forall c :: c in after.d.targets <==> c in n.d.targets && c != est.conn && n.d.targets[c] != id)
    && after.d.pairing == n.d.pairing - {est.conn} && after.d.nextConn == n.d.nextConn
  }

  /** A device that is trusted, not blocked and shows the stored key connects while it has a session: the newer
      connection takes over and the older is closed, except within five seconds of an older one that the device
      with the lower id dialed, when the other dialed the newer; then the newer is closed and nothing changes. */
  lemma NewestWins(me: Identity, n: State, est: Est, a: Ambient)
    requires var id := me.idOf(est.key);
             id in n.t.trust && !n.t.trust[id].blocked && n.t.trust[id].key == est.key && id in n.t.sessions
    ensures var id, after := me.idOf(est.key), OnEstablished(me, n, est, a);
            var prior := n.t.sessions[id];
            var tie := (if me.self < id then prior.est.dialed && !est.dialed else !prior.est.dialed && est.dialed)
                       && a.policy.now < prior.connectedAt + 5_000;
            && (tie ==> after.t == n.t && after.routes == n.routes && after.outbox == n.outbox + [(est.conn, Superseded)])
            && (!tie ==> Takes(n, after, id, est, a.policy.now) && after.outbox == n.outbox + [(prior.est.conn, Superseded)])
            && (est.conn != prior.est.conn ==>
                  (tie <==> id in after.t.sessions && after.t.sessions[id] == prior))
  {
    hide Resume, Pause;
  }

  /** Without a session, the connection of such a device becomes it; one that is blocked or shows another key
      is closed. */
  lemma TrustedConnects(me: Identity, n: State, est: Est, a: Ambient)
    requires me.idOf(est.key) in n.t.trust && me.idOf(est.key) !in n.t.sessions
    ensures var id, after := me.idOf(est.key), OnEstablished(me, n, est, a);
            if !n.t.trust[id].blocked && n.t.trust[id].key == est.key
            then Takes(n, after, id, est, a.policy.now) && after.outbox == n.outbox
            else after.t == n.t && after.routes == n.routes && after.outbox == n.outbox + [(est.conn, PermissionDenied)]
  {
    hide Resume, Pause;
  }
}
