/** How a pairing comes about: with a scanned code, by comparing codes, and how it fails
    (sp-engine/src/actor.rs). */
module PairingRuns {
  import opened Common
  import opened Routes
  import opened Node
  import opened NodeTheorems

  /** The device is trusted with this key, and the connection is its session. */
  ghost predicate Paired(n: State, id: DeviceId, est: Est, now: nat) {
    && id in n.t.trust && n.t.trust[id] == Trusted(est.key, false, true)
    && id in n.t.sessions && n.t.sessions[id].est == est && n.t.sessions[id].connectedAt == now
    && est.conn in n.t.connIndex && n.t.connIndex[est.conn] == id
    && id !in n.t.pairings && est.conn !in n.t.unpaired
  }

  /** A connection of a device without a session waits for a pairing request. */
  ghost predicate Waits(me: Identity, n: State, est: Est) {
    && Agree(me, n.t) && est.conn in n.t.unpaired && n.t.unpaired[est.conn] == est
    && me.idOf(est.key) !in n.t.sessions
  }

  // ---------------------------------------------------------------- requests

  /** A request with a proof pairs at once if a code is shown, has not expired and the proof verifies, and uses the
      code up; with a trust store that cannot be written the device is only remembered. Any other proof is refused
      and changes nothing. */
  lemma CodeRequest(me: Identity, n: State, est: Est, proof: Proof, a: Ambient)
    requires Waits(me, n, est) && a.exporterOk
    ensures var id, after := me.idOf(est.key), Handle(me, n, ControlEv(est.conn, PairRequest(Some(proof))), a);
            var holds := n.qr.Some? && a.nowUnix <= n.qr.value.expires && me.verify(n.qr.value.secret, est.key, proof);
            && (holds && a.saved ==> Paired(after, id, est, a.policy.now) && after.qr == None)
            && (holds && !a.saved ==>
                  && after.t.trust == n.t.trust[id := Trusted(est.key, false, true)]
                  && id !in after.t.sessions && after.qr == None)
            && (!holds ==> after == n.(t := n.t.(unpaired := n.t.unpaired - {est.conn}), outbox := n.outbox + [(est.conn, PermissionDenied)]))
  {
    hide Resume;
  }

  /** Without the means to derive a code from the connection, a valid proof is used up: for nothing, or to complete
      a pairing that the same device had under way on another connection. */
  lemma CodeRequestFails(me: Identity, n: State, est: Est, proof: Proof, a: Ambient)
    requires Waits(me, n, est) && !a.exporterOk && a.saved && n.qr.Some?
    requires a.nowUnix <= n.qr.value.expires && me.verify(n.qr.value.secret, est.key, proof)
    ensures var id, after := me.idOf(est.key), Handle(me, n, ControlEv(est.conn, PairRequest(Some(proof))), a);
            if id in n.t.pairings
            then Paired(after, id, n.t.pairings[id].est, a.policy.now) && after.qr == None && est.conn !in after.t.unpaired
            else after == n.(t := n.t.(unpaired := n.t.unpaired - {est.conn}), qr := None, outbox := n.outbox + [(est.conn, Unspecified)])
  {
    hide Resume;
  }

  /** A request without a proof starts a pairing for both sides to confirm while a code is shown, in place of one
      that the device already had, and is refused otherwise. */
  lemma PlainRequest(me: Identity, n: State, est: Est, a: Ambient)
    requires Waits(me, n, est)
    ensures var id, after := me.idOf(est.key), Handle(me, n, ControlEv(est.conn, PairRequest(None)), a);
            var left := n.t.(unpaired := n.t.unpaired - {est.conn});
            if n.qr.None? then after == n.(t := left, outbox := n.outbox + [(est.conn, PermissionDenied)])
            else if !a.exporterOk then after == n.(t := left, outbox := n.outbox + [(est.conn, Unspecified)])
            else
              after == n.(t := left.(pairings := n.t.pairings[id := Pairing(est, false, false, false)]),
                          outbox := n.outbox + if id in n.t.pairings then [(n.t.pairings[id].est.conn, Superseded)] else [])
  {
    hide Agree;
    if me.idOf(est.key) !in n.t.pairings { assert n.outbox + [] == n.outbox; }
  }

  /** Any other message of a connection that waits closes it. */
  lemma OtherMessageCloses(me: Identity, n: State, est: Est, msg: Msg, a: Ambient)
    requires Waits(me, n, est) && !msg.PairRequest?
    ensures Handle(me, n, ControlEv(est.conn, msg), a) ==
            n.(t := n.t.(unpaired := n.t.unpaired - {est.conn}), outbox := n.outbox + [(est.conn, PermissionDenied)])
  {
  }

  /** A connection, or a pairing, that has waited too long is closed, and nothing else. */
  lemma WaitingExpires(me: Identity, n: State, conn: ConnId, id: DeviceId, a: Ambient)
    ensures Handle(me, n, DropUnpairedEv(conn), a) ==
            if conn in n.t.unpaired
            then n.(t := n.t.(unpaired := n.t.unpaired - {conn}), outbox := n.outbox + [(conn, Timeout)]) else n
    ensures Handle(me, n, DropPairingEv(id), a) ==
            if id in n.t.pairings
            then n.(t := n.t.(pairings := n.t.pairings - {id}), outbox := n.outbox + [(n.t.pairings[id].est.conn, Timeout)]) else n
  {
  }

  // ---------------------------------------------------------------- confirmations

  /** A pairing of a device without a session, which no other pairing shares its connection with. */
  ghost predicate Shows(n: State, id: DeviceId, p: Pairing) {
    && id in n.t.pairings && n.t.pairings[id] == p && id !in n.t.sessions
    && p.est.conn !in n.t.unpaired
    && forall x :: x in n.t.pairings && x != id ==> n.t.pairings[x].est.conn != p.est.conn
  }

  lemma OnlyOne(n: State, id: DeviceId, p: Pairing)
    requires Shows(n, id, p)
    ensures PairingOn(n.t, p.est.conn) == Some(id)
  {
  }

  /** The user's answer: with the peer's acceptance it completes the pairing, without it it is noted; a refusal ends
      the pairing and closes the connection. */
  lemma Confirms(me: Identity, n: State, id: DeviceId, p: Pairing, accept: bool, a: Ambient)
    requires Shows(n, id, p) && a.saved
    ensures var after := Handle(me, n, ConfirmEv(id, accept), a);
            if !accept then
              after == n.(t := n.t.(pairings := n.t.pairings - {id}), outbox := n.outbox + [(p.est.conn, PermissionDenied)])
            else if p.peerConfirmed then Paired(after, id, p.est, a.policy.now)
            else after == n.(t := n.t.(pairings := n.t.pairings[id := p.(localConfirmed := true)]))
  {
    hide Resume;
  }

  /** The peer's answer, likewise; the device that scanned the code needs no answer of its own user. */
  lemma PeerConfirms(me: Identity, n: State, id: DeviceId, p: Pairing, accept: bool, a: Ambient)
    requires Shows(n, id, p) && a.saved
    ensures var after := Handle(me, n, ControlEv(p.est.conn, PairResult(accept)), a);
            if !accept then
              after == n.(t := n.t.(pairings := n.t.pairings - {id}), outbox := n.outbox + [(p.est.conn, PermissionDenied)])
            else if p.localConfirmed || p.qrScanner then Paired(after, id, p.est, a.policy.now)
            else after == n.(t := n.t.(pairings := n.t.pairings[id := p.(peerConfirmed := true)]))
  {
    hide Resume;
    OnlyOne(n, id, p);
  }

  // ---------------------------------------------------------------- whole pairings

  /** Two devices compare codes: once both have accepted, in either order, they are paired. */
  lemma ComparedCodesPair(me: Identity, n: State, est: Est, a: Ambient, b: Ambient, c: Ambient, peerFirst: bool)
    requires Waits(me, n, est) && n.qr.Some? && a.exporterOk && b.saved && c.saved
    ensures var id := me.idOf(est.key);
            var mine, theirs := ConfirmEv(id, true), ControlEv(est.conn, PairResult(true));
            var n1 := Handle(me, n, ControlEv(est.conn, PairRequest(None)), a);
            var n2 := Handle(me, n1, if peerFirst then theirs else mine, b);
            id !in n2.t.sessions && Paired(Handle(me, n2, if peerFirst then mine else theirs, c), id, est, c.policy.now)
  {
    hide Handle;
    var id := me.idOf(est.key);
    PlainRequest(me, n, est, a);
    var n1 := Handle(me, n, ControlEv(est.conn, PairRequest(None)), a);
    var p := Pairing(est, false, false, false);
    RequestShows(me, n, n1, est);
    if peerFirst {
      PeerConfirms(me, n1, id, p, true, b);
      var n2 := Handle(me, n1, ControlEv(est.conn, PairResult(true)), b);
      ShowsMarked(n1, n2, id, p, p.(peerConfirmed := true));
      Confirms(me, n2, id, p.(peerConfirmed := true), true, c);
    } else {
      Confirms(me, n1, id, p, true, b);
      var n2 := Handle(me, n1, ConfirmEv(id, true), b);
      ShowsMarked(n1, n2, id, p, p.(localConfirmed := true));
      PeerConfirms(me, n2, id, p.(localConfirmed := true), true, c);
    }
  }

  lemma RequestShows(me: Identity, n: State, n1: State, est: Est)
    requires Waits(me, n, est)
    requires n1.t == n.t.(unpaired := n.t.unpaired - {est.conn}, pairings := n.t.pairings[me.idOf(est.key) := Pairing(est, false, false, false)])
    ensures Shows(n1, me.idOf(est.key), Pairing(est, false, false, false))
  {
    assert !PairedOn(n.t.pairings, est.conn);
  }

  lemma ShowsMarked(n: State, n1: State, id: DeviceId, p: Pairing, q: Pairing)
    requires Shows(n, id, p) && q.est == p.est && n1.t == n.t.(pairings := n.t.pairings[id := q])
    ensures Shows(n1, id, q)
  {
  }

  /** The device that scans a code: it dials the device of the code, and is paired when that accepts. */
  lemma ScannedCodePairs(me: Identity, n: State, est: Est, a: Ambient, b: Ambient)
    requires Agree(me, n.t) && Unused(n.t, est.conn) && est.dialed
    requires est.conn in n.d.pairing && n.d.pairing[est.conn]
    requires me.idOf(est.key) !in n.t.trust && a.exporterOk && b.saved
    ensures var id := me.idOf(est.key);
            var n1 := Handle(me, n, EstablishedEv(est), a);
            && id !in n1.t.trust && id in n1.t.pairings && n1.t.pairings[id] == Pairing(est, false, false, true)
            && Paired(Handle(me, n1, ControlEv(est.conn, PairResult(true)), b), id, est, b.policy.now)
  {
    var id := me.idOf(est.key);
    var n1 := Handle(me, n, EstablishedEv(est), a);
    assert n1.t == n.t.(pairings := n.t.pairings[id := Pairing(est, false, false, true)]);
    hide Handle;
    ScanShows(me, n, n1, est);
    PeerConfirms(me, n1, id, Pairing(est, false, false, true), true, b);
  }

  lemma ScanShows(me: Identity, n: State, n1: State, est: Est)
    requires Agree(me, n.t) && Unused(n.t, est.conn) && me.idOf(est.key) !in n.t.trust
    requires n1.t == n.t.(pairings := n.t.pairings[me.idOf(est.key) := Pairing(est, false, false, true)])
    ensures Shows(n1, me.idOf(est.key), Pairing(est, false, false, true))
  {
  }

  /** An unknown device that connects waits for its request if the limiter allows it; one that this device dialed for
      another reason, or that the limiter stops, is closed. */
  lemma StrangerConnects(me: Identity, n: State, est: Est, a: Ambient)
    requires me.idOf(est.key) !in n.t.trust
    ensures var after := Handle(me, n, EstablishedEv(est), a);
            && after.t.trust == n.t.trust && after.t.sessions == n.t.sessions
            && (!est.dialed && a.allowed ==> after.t == n.t.(unpaired := n.t.unpaired[est.conn := est]) && after.outbox == n.outbox)
            && (!est.dialed && !a.allowed ==> after.t == n.t && after.outbox == n.outbox + [(est.conn, RateLimited)])
            && (est.dialed && est.conn !in n.d.pairing ==> after.t == n.t && after.outbox == n.outbox + [(est.conn, PermissionDenied)])
  {
  }
}
