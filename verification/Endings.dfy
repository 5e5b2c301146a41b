/** How a session ends: by the user, by the peer, or by a drop (sp-engine/src/actor.rs). */
module Endings {
  import opened Common
  import opened Routes
  import opened Node
  import opened NodeTheorems

  /** The device has no session any more, its connection is known no more, and every other device's is as it was. */
  ghost predicate SessionGone(n: State, after: State, id: DeviceId) {
    && id !in after.t.sessions
    && (forall x :: x != id ==> (x in after.t.sessions <==> x in n.t.sessions))
    && (forall x :: x != id && x in n.t.sessions ==> after.t.sessions[x] == n.t.sessions[x])
    && (id in n.t.sessions ==> n.t.sessions[id].est.conn !in after.t.connIndex)
    && (forall c :: c in after.t.connIndex ==> c in n.t.connIndex && after.t.connIndex[c] == n.t.connIndex[c])
    && (forall c :: c in n.t.connIndex && (id in n.t.sessions ==> c != n.t.sessions[id].est.conn) ==> c in after.t.connIndex)
    && after.t.pairings == n.t.pairings && after.t.unpaired == n.t.unpaired
  }

  /** No dial state and no recorded dial is the device's, and every other device's is as it was. */
  ghost predicate DialGone(n: State, after: State, id: DeviceId) {
    && id !in after.d.states && (forall c :: c in after.d.targets ==> after.d.targets[c] != id)
    && (forall x :: x != id ==> (x in after.d.states <==> x in n.d.states))
    && (forall x :: x != id && x in n.d.states ==> after.d.states[x] == n.d.states[x])
    && (forall c :: c in n.d.targets && n.d.targets[c] != id ==> c in after.d.targets && after.d.targets[c] == n.d.targets[c])
    && (forall c :: c in after.d.targets ==> c in n.d.targets)
    && after.d.pairing == n.d.pairing && after.d.nextConn == n.d.nextConn
  }

  /** Exactly the other devices' routes are left. */
  ghost predicate RoutesGone(n: State, after: State, id: DeviceId) {
    forall r :: r in after.routes <==> r in n.routes && r.peer != id
  }

  /** Only this entry of the trust store is touched. */
  ghost predicate OnlyEntry(before: map<DeviceId, Trusted>, after: map<DeviceId, Trusted>, id: DeviceId) {
    && (forall x :: x != id ==> (x in after <==> x in before))
    && forall x :: x != id && x in before ==> after[x] == before[x]
  }

  ghost predicate Closes(n: State, after: State, id: DeviceId, reason: Reason) {
    after.outbox == n.outbox + if id in n.t.sessions then [(n.t.sessions[id].est.conn, reason)] else []
  }

  lemma UnlinkIs(me: Identity, n: State, after: State, id: DeviceId)
    requires Agree(me, n.t) && after.t == Unlink(n.t, id).(trust := after.t.trust)
    ensures SessionGone(n, after, id)
  {
  }

  lemma BlockedUnlink(n: State, id: DeviceId)
    ensures var t := n.t.(trust := Block(n.t.trust, id, true));
            Unlink(t, id) == Unlink(n.t, id).(trust := t.trust) && CloseOf(t, id, PermissionRevoked) == CloseOf(n.t, id, PermissionRevoked)
  {
  }

  lemma DropIs(n: State, after: State, id: DeviceId)
    requires after.d == DropDial(n.d, id)
    ensures DialGone(n, after, id)
  {
  }

  lemma WithoutExactly(routes: seq<Route>, peer: DeviceId)
    ensures forall r :: r in Without(routes, peer) <==> r in routes && r.peer != peer
  {
    forall r ensures r in Without(routes, peer) <==> r in routes && r.peer != peer { WithoutMembers(routes, peer, r); }
  }

  /** Disconnecting: nothing of the device stays but its trust, which no longer connects on its own. */
  lemma DisconnectEnds(me: Identity, n: State, id: DeviceId, a: Ambient)
    requires Agree(me, n.t)
    ensures var after := Handle(me, n, DisconnectEv(id), a);
            && SessionGone(n, after, id) && DialGone(n, after, id) && RoutesGone(n, after, id) && Closes(n, after, id, UserStopped)
            && OnlyEntry(n.t.trust, after.t.trust, id) && (id in after.t.trust <==> id in n.t.trust)
            && (id in n.t.trust ==> after.t.trust[id] == Trusted(n.t.trust[id].key, n.t.trust[id].blocked, false))
  {
    hide Without, SessionGone, DialGone, Unlink, DropDial, Agree;
    var after := Handle(me, n, DisconnectEv(id), a);
    WithoutExactly(n.routes, id);
    UnlinkTrust(n.t, id);
    UnlinkIs(me, n, after, id);
    DropIs(n, after, id);
  }

  /** Forgetting and blocking: the same, and the trust itself goes or is marked. */
  lemma ForgetEnds(me: Identity, n: State, id: DeviceId, a: Ambient)
    requires Agree(me, n.t)
    ensures var after := Handle(me, n, ForgetEv(id), a);
            && SessionGone(n, after, id) && DialGone(n, after, id) && RoutesGone(n, after, id) && Closes(n, after, id, PermissionRevoked)
            && OnlyEntry(n.t.trust, after.t.trust, id) && id !in after.t.trust
  {
    hide Without, SessionGone, DialGone, Unlink, DropDial, Agree;
    var after := Handle(me, n, ForgetEv(id), a);
    WithoutExactly(n.routes, id);
    UnlinkTrust(n.t, id);
    UnlinkIs(me, n, after, id);
    DropIs(n, after, id);
  }

  lemma BlockEnds(me: Identity, n: State, id: DeviceId, blocked: bool, a: Ambient)
    requires Agree(me, n.t)
    ensures var after := Handle(me, n, SetBlockedEv(id, blocked), a);
            && OnlyEntry(n.t.trust, after.t.trust, id) && (id in after.t.trust <==> id in n.t.trust)
            && (id in n.t.trust ==> after.t.trust[id] == Trusted(n.t.trust[id].key, blocked, n.t.trust[id].autoConnect))
            && (if blocked
                then SessionGone(n, after, id) && DialGone(n, after, id) && RoutesGone(n, after, id) && Closes(n, after, id, PermissionRevoked)
                else after == n.(t := n.t.(trust := after.t.trust)))
  {
    hide Without, SessionGone, DialGone, Unlink, DropDial, Agree;
    if blocked {
      var after := Handle(me, n, SetBlockedEv(id, blocked), a);
      WithoutExactly(n.routes, id);
      UnlinkTrust(n.t, id);
      BlockedUnlink(n, id);
      UnlinkIs(me, n, after, id);
      DropIs(n, after, id);
    }
  }

  /** The connection of a session closes. A peer that refuses or revokes is not dialed again and its routes go; a
      peer that stops keeps its trust; after any other end the routes are paused, and a device that connects on its
      own may be dialed again at once. */
  lemma ClosedEnds(me: Identity, n: State, conn: ConnId, reason: Reason, a: Ambient)
    requires Agree(me, n.t) && conn in n.t.connIndex
    ensures var id, after := n.t.connIndex[conn], Handle(me, n, ClosedEv(conn, reason), a);
            && SessionGone(n, after, id) && OnlyEntry(n.t.trust, after.t.trust, id) && after.outbox == n.outbox && after.qr == n.qr
            && (id in after.t.trust <==> id in n.t.trust)
            && (if reason == PermissionDenied || reason == PermissionRevoked then
                  && DialGone(n, after, id) && RoutesGone(n, after, id)
                  && (id in n.t.trust ==> after.t.trust[id] == Trusted(n.t.trust[id].key, n.t.trust[id].blocked, false))
                else if reason == UserStopped then
                  after.d == n.d && after.t.trust == n.t.trust && RoutesGone(n, after, id)
                else
                  && after.t.trust == n.t.trust && after.routes == Pause(n.routes, id, a.policy.now)
                  && after.d == if id in n.t.trust && n.t.trust[id].autoConnect then n.d.(states := n.d.states[id := false]) else n.d)
  {
    hide Without, Pause, SessionGone, DialGone, Unlink, DropDial, Handle;
    var id, after := n.t.connIndex[conn], Handle(me, n, ClosedEv(conn, reason), a);
    ClosedShape(me, n, conn, reason, a);
    WithoutExactly(n.routes, id);
    UnlinkTrust(n.t, id);
    UnlinkIs(me, n, after, id);
    AutoEntry(n.t.trust, id);
    hide Agree, SetAuto, OnlyEntry;
    if reason == PermissionDenied || reason == PermissionRevoked { DropIs(n, after, id); }
  }

  lemma AutoEntry(trust: map<DeviceId, Trusted>, id: DeviceId)
    ensures OnlyEntry(trust, SetAuto(trust, id, false), id) && OnlyEntry(trust, trust, id)
    ensures id in SetAuto(trust, id, false) <==> id in trust
    ensures id in trust ==> SetAuto(trust, id, false)[id] == Trusted(trust[id].key, trust[id].blocked, false)
  {
  }

  lemma ClosedShape(me: Identity, n: State, conn: ConnId, reason: Reason, a: Ambient)
    requires Agree(me, n.t) && conn in n.t.connIndex
    ensures Handle(me, n, ClosedEv(conn, reason), a) ==
            SessionEnded(n.(t := Unlink(n.t, n.t.connIndex[conn])), n.t.connIndex[conn], reason, a.policy.now)
  {
    hide SessionEnded, Unlink, DropWaiting;
    ClosedAlone(me, n, conn);
  }

  lemma UnlinkTrust(t: Tables, id: DeviceId)
    ensures Unlink(t, id).trust == t.trust
  {
  }

  lemma ClosedAlone(me: Identity, n: State, conn: ConnId)
    requires Agree(me, n.t) && conn in n.t.connIndex
    ensures DropWaiting(n.t, conn) == n.t
  {
    assert !PairedOn(n.t.pairings, conn);
    assert n.t.unpaired - {conn} == n.t.unpaired;
  }

  lemma PairingOnIs(me: Identity, t: Tables, conn: ConnId)
    requires Agree(me, t)
    ensures match PairingOn(t, conn)
            case None => forall x :: x in t.pairings ==> t.pairings[x].est.conn != conn
            case Some(id) => forall x :: x in t.pairings ==> (t.pairings[x].est.conn == conn <==> x == id)
  {
    hide Indexed, SessionsTrusted, FiledTrust, FiledPairings;
    if x :| x in t.pairings && t.pairings[x].est.conn == conn { assert PairingOn(t, conn).Some?; }
  }

  /** A connection that waits, or that pairs, closes: only its entry goes. */
  lemma ClosedWaiting(me: Identity, n: State, conn: ConnId, reason: Reason, a: Ambient)
    requires Agree(me, n.t) && conn !in n.t.connIndex
    ensures var after := Handle(me, n, ClosedEv(conn, reason), a);
            && after == n.(t := n.t.(unpaired := n.t.unpaired - {conn}, pairings := after.t.pairings))
            && (forall x :: x in after.t.pairings <==> x in n.t.pairings && n.t.pairings[x].est.conn != conn)
            && (forall x :: x in after.t.pairings ==> after.t.pairings[x] == n.t.pairings[x])
  {
    PairingOnIs(me, n.t, conn);
    hide Agree, PairingOn;
  }

  // ---------------------------------------------------------------- dialing

  /** What a dial attempt for a device does: it is marked and recorded under a fresh connection id exactly if the
      device is trusted, not blocked, has no session and no dial in flight, its timer is due and it has an address. */
  lemma DialStarts(me: Identity, n: State, id: DeviceId, due: bool, reachable: bool, a: Ambient)
    ensures var after := Handle(me, n, TryDialEv(id, due, reachable), a);
            var starts := id in n.t.trust && !n.t.trust[id].blocked && id !in n.t.sessions
                          && (id in n.d.states ==> !n.d.states[id]) && due && reachable;
            && after == n.(d := after.d) && after.d.pairing == n.d.pairing
            && (starts ==> after.d.nextConn == n.d.nextConn + 1
                           && after.d.targets == n.d.targets[n.d.nextConn := id] && after.d.states == n.d.states[id := true])
            && (!starts ==> after.d.nextConn == n.d.nextConn && after.d.targets == n.d.targets
                            && (forall x :: x in n.d.states ==> x in after.d.states && after.d.states[x] == n.d.states[x])
                            && (forall x :: x in after.d.states && x !in n.d.states ==> x == id && !after.d.states[x]))
  {
  }

  /** A pairing dial is recorded as one, with the device it is pinned to if a code was scanned; this device's own
      code starts none. */
  lemma PairingDialStarts(me: Identity, n: State, device: Option<DeviceId>, a: Ambient)
    ensures Handle(me, n, PairWithQrEv(me.self), a) == n
    ensures device != Some(me.self) ==>
            var after := Handle(me, n, if device.Some? then PairWithQrEv(device.value) else PairPlainEv, a);
            && after == n.(d := after.d) && after.d.nextConn == n.d.nextConn + 1 && after.d.states == n.d.states
            && after.d.pairing == n.d.pairing[n.d.nextConn := device.Some?]
            && after.d.targets == if device.Some? then n.d.targets[n.d.nextConn := device.value] else n.d.targets
  {
  }

  /** A connection that comes in takes an id of its own. */
  lemma ArrivalTakesId(me: Identity, n: State, a: Ambient)
    ensures Handle(me, n, IncomingEv, a) == n.(d := n.d.(nextConn := n.d.nextConn + 1))
  {
  }

  /** A dial ends without a connection: its records go, and the device it was for may be dialed again. */
  lemma DialEnds(me: Identity, n: State, conn: ConnId, target: Option<DeviceId>, a: Ambient)
    ensures var after := Handle(me, n, DialFailedEv(conn, target), a);
            && after == n.(d := after.d) && after.d.nextConn == n.d.nextConn
            && after.d.pairing == n.d.pairing - {conn} && after.d.targets == n.d.targets - {conn}
            && after.d.states == if target.Some? && target.value in n.t.trust then n.d.states[target.value := false] else n.d.states
    ensures var after := Handle(me, n, HandshakeFailedEv(conn), a);
            && after == n.(d := after.d) && after.d.nextConn == n.d.nextConn
            && after.d.pairing == n.d.pairing - {conn} && after.d.targets == n.d.targets - {conn}
            && after.d.states == if conn in n.d.targets && n.d.targets[conn] in n.d.states
                                 then n.d.states[n.d.targets[conn] := false] else n.d.states
  {
  }
}
