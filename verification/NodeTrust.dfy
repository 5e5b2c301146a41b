/** Trust is earned, QR codes are single use, and no trusted device becomes undialable. */
module NodeTrust {
  import opened Common
  import opened Routes
  import opened Node
  import opened NodeTheorems
  import opened NodeRuns

  // ---------------------------------------------------------------- dialing again

  /** A trusted device without a session can be dialed, or a recorded dial for it is still under way,
      and whichever way that dial ends, the device can be dialed again or has a session. */
  lemma NeverUndialable(me: Identity, w: World, id: DeviceId)
    requires Injective(me) && Consistent(me, w)
    requires id in w.n.t.trust && !w.n.t.trust[id].blocked && id !in w.n.t.sessions
    ensures !InFlight(w.n.d, id) ==>
              var d := TryDial(w.n.t, w.n.d, id, true, true);
              InFlight(d, id) && d.targets == w.n.d.targets[w.n.d.nextConn := id]
    ensures InFlight(w.n.d, id) ==>
              exists c :: c in w.n.d.targets && w.n.d.targets[c] == id && c in w.origins && c !in w.ended
  {
    if InFlight(w.n.d, id) {
      var c :| c in w.n.d.targets && w.n.d.targets[c] == id;
      assert c in w.origins && c !in w.ended;
    }
  }

  lemma PromoteFrees(me: Identity, n: State, id: DeviceId, est: Est, a: Ambient)
    ensures !InFlight(Promote(me, n, id, est, a).d, id) && id in Promote(me, n, id, est, a).t.sessions
  {
  }

  lemma EstablishedFrees(me: Identity, n: State, est: Est, a: Ambient, id: DeviceId)
    requires me.idOf(est.key) == id && id in n.t.trust && !n.t.trust[id].blocked && n.t.trust[id].key == est.key
    ensures !InFlight(OnEstablished(me, n, est, a).d, id) && id in OnEstablished(me, n, est, a).t.sessions
  {
    PromoteFrees(me, n.(d := EndDial(n.d, est.conn)), id, est, a);
    hide Promote;
  }

  lemma FailureFrees(n: State, conn: ConnId, target: Option<DeviceId>, id: DeviceId)
    requires conn in n.d.targets && n.d.targets[conn] == id && id in n.t.trust
    ensures target == Some(id) ==> !InFlight(DialFailed(n.t, n.d, conn, target), id)
    ensures !InFlight(HandshakeFailed(n.d, conn), id)
  {
  }

  /** However the recorded dial of a device ends, the device is not in flight afterwards. */
  lemma DialEndFrees(me: Identity, w: World, e: Event, a: Ambient, id: DeviceId)
    requires Injective(me) && Consistent(me, w) && Possible(me, w, e)
    requires e.DialFailedEv? || e.HandshakeFailedEv? || e.EstablishedEv?
    requires var c := if e.EstablishedEv? then e.est.conn else e.conn; c in w.n.d.targets && w.n.d.targets[c] == id
    requires id in w.n.t.trust && !w.n.t.trust[id].blocked
    ensures !InFlight(Handle(me, w.n, e, a).d, id)
    ensures e.EstablishedEv? ==> id in Handle(me, w.n, e, a).t.sessions
  {
    hide OnEstablished, DialFailed, HandshakeFailed, InFlight, Recorded, UsedEnded;
    if e.EstablishedEv? {
      assert w.n.t.trust[id].key == e.est.key;
      EstablishedFrees(me, w.n, e.est, a, id);
    } else {
      FailureFrees(w.n, e.conn, if e.DialFailedEv? then e.target else None, id);
    }
  }

  // ---------------------------------------------------------------- what a pairing entry stands on

  /** Marks on pending pairings are backed by what users and peers did. */
  ghost predicate Vouched(pairings: map<DeviceId, Pairing>, confirmed: set<ConnId>, accepted: set<ConnId>, origins: map<ConnId, Origin>) {
    forall id :: id in pairings ==>
      var p := pairings[id];
      && (p.localConfirmed ==> p.est.conn in confirmed)
      && (p.peerConfirmed ==> p.est.conn in accepted)
      && (p.qrScanner ==> p.est.conn in origins && origins[p.est.conn] == Outbound(Some(id), true))
  }

  lemma VouchedMore(pairings: map<DeviceId, Pairing>, w: World, w1: World)
    requires Vouched(pairings, w.confirmed, w.accepted, w.origins)
    requires w.confirmed <= w1.confirmed && w.accepted <= w1.accepted
    requires forall c :: c in w.origins ==> c in w1.origins && w1.origins[c] == w.origins[c]
    ensures Vouched(pairings, w1.confirmed, w1.accepted, w1.origins)
  {
  }

  lemma CompletePairings(me: Identity, n: State, id: DeviceId, a: Ambient)
    ensures Complete(me, n, id, a).t.pairings == n.t.pairings - {id}
    ensures Complete(me, n, id, a).t.trust ==
            if id in n.t.pairings then n.t.trust[id := Trusted(n.t.pairings[id].est.key, false, true)] else n.t.trust
    ensures Complete(me, n, id, a).qr == n.qr
  {
    if id !in n.t.pairings { assert n.t.pairings - {id} == n.t.pairings; }
  }

  /** Pairings and trust after a proof was accepted, whichever connection ends up paired. */
  lemma ProofPairings(me: Identity, n: State, est: Est, a: Ambient)
    ensures var n1, id := AcceptProof(me, n, est, a), me.idOf(est.key);
            && n1.t.pairings == n.t.pairings - {id} && n1.qr == None
            && (forall x :: x in n1.t.trust && x != id ==> x in n.t.trust)
  {
    var id := me.idOf(est.key);
    var n1 := BeginPairing(n.(qr := None), id, est, false, a);
    var n2 := if id in n1.t.pairings then n1.(t := Mark(n1.t, id, true, true)) else n1;
    CompletePairings(me, n2, id, a);
    assert n2.t.pairings - {id} == n.t.pairings - {id};
  }

  /** Why `id` may be in the trust store after this event although it was not before. */
  ghost predicate Earned(me: Identity, w: World, e: Event, a: Ambient, id: DeviceId) {
    var w1 := Next(me, w, e, a);
    // both sides accepted the pairing that was shown for this device
    || (id in w.n.t.pairings && w.n.t.pairings[id].est.conn in w1.confirmed && w.n.t.pairings[id].est.conn in w1.accepted)
    // its key proved knowledge of the unexpired QR secret
    || (Verified(me, w.n, e, a).Some? && me.idOf(w.n.t.unpaired[e.conn].key) == id)
    // it accepted on a connection this device pinned to it by a scanned QR code
    || (e.ControlEv? && e.msg == PairResult(true) && e.conn in w.origins && w.origins[e.conn] == Outbound(Some(id), true))
  }

  ghost predicate TrustFollows(me: Identity, w: World, e: Event, a: Ambient) {
    forall x :: x in Handle(me, w.n, e, a).t.trust && x !in w.n.t.trust ==> Earned(me, w, e, a, x)
  }

  ghost predicate Backed(w: World) { Vouched(w.n.t.pairings, w.confirmed, w.accepted, w.origins) }

  lemma OriginsGrow(me: Identity, w: World, e: Event, a: Ambient)
    requires Tracked(w)
    ensures var w1 := Next(me, w, e, a); forall c :: c in w.origins ==> c in w1.origins && w1.origins[c] == w.origins[c]
  {
  }

  lemma ConfirmBacked(me: Identity, w: World, id: DeviceId, accept: bool, a: Ambient)
    requires Backed(w) && Tracked(w)
    ensures Backed(Next(me, w, ConfirmEv(id, accept), a))
    ensures TrustFollows(me, w, ConfirmEv(id, accept), a)
  {
    var e, n := ConfirmEv(id, accept), w.n;
    var w1 := Next(me, w, e, a);
    OriginsGrow(me, w, e, a);
    VouchedMore(n.t.pairings, w, w1);
    if id in n.t.pairings && accept {
      var p := n.t.pairings[id];
      assert p.est.conn in w1.confirmed;
      var n1 := n.(t := Mark(n.t, id, true, p.peerConfirmed));
      assert Vouched(n1.t.pairings, w1.confirmed, w1.accepted, w1.origins);
      CompletePairings(me, n1, id, a);
    }
  }

  /** What a pairing result does to the pairings and the trust store. */
  lemma ResultShape(me: Identity, n: State, id: DeviceId, accepted: bool, a: Ambient)
    requires id in n.t.pairings
    ensures var n1, p := OnPairResult(me, n, id, accepted, a), n.t.pairings[id];
            && n1.qr == n.qr
            && (forall x :: x in n1.t.pairings ==> x in n.t.pairings)
            && (forall x :: x in n1.t.pairings && x != id ==> n1.t.pairings[x] == n.t.pairings[x])
            && (id in n1.t.pairings ==> accepted && n1.t.pairings[id] == p.(peerConfirmed := true))
            && (forall x :: x in n1.t.trust && x !in n.t.trust ==> x == id && accepted && (p.qrScanner || p.localConfirmed))
  {
    var p := n.t.pairings[id];
    CompletePairings(me, n.(t := Mark(n.t, id, p.localConfirmed, true)), id, a);
  }

  lemma ResultHandled(me: Identity, n: State, conn: ConnId, accepted: bool, a: Ambient)
    requires conn !in n.t.unpaired
    ensures Handle(me, n, ControlEv(conn, PairResult(accepted)), a) ==
            if PairingOn(n.t, conn).Some? then OnPairResult(me, n, PairingOn(n.t, conn).value, accepted, a) else n
  {
    hide OnPairResult;
  }

  lemma ResultBacked(me: Identity, w: World, conn: ConnId, accepted: bool, a: Ambient)
    requires Backed(w) && Tracked(w) && conn !in w.n.t.unpaired
    ensures Backed(Next(me, w, ControlEv(conn, PairResult(accepted)), a))
    ensures TrustFollows(me, w, ControlEv(conn, PairResult(accepted)), a)
  {
    hide Handle, OnPairResult;
    var e, on := ControlEv(conn, PairResult(accepted)), PairingOn(w.n.t, conn);
    var w1 := Next(me, w, e, a);
    OriginsGrow(me, w, e, a);
    VouchedMore(w.n.t.pairings, w, w1);
    ResultHandled(me, w.n, conn, accepted, a);
    if on.Some? { ResultShape(me, w.n, on.value, accepted, a); }
  }

  lemma RequestBacked(me: Identity, w: World, conn: ConnId, msg: Msg, a: Ambient)
    requires Backed(w) && Tracked(w) && conn in w.n.t.unpaired
    ensures Backed(Next(me, w, ControlEv(conn, msg), a))
    ensures TrustFollows(me, w, ControlEv(conn, msg), a)
  {
    var e, n := ControlEv(conn, msg), w.n;
    var w1 := Next(me, w, e, a);
    OriginsGrow(me, w, e, a);
    VouchedMore(n.t.pairings, w, w1);
    if msg.PairRequest? {
      var n1, est := n.(t := n.t.(unpaired := n.t.unpaired - {conn})), n.t.unpaired[conn];
      if ProofHolds(me, n.qr, est.key, msg.proof, a.nowUnix) {
        ProofPairings(me, n1, est, a);
        assert w1.n == AcceptProof(me, n1, est, a);
      }
    }
  }

  lemma PromoteShape(me: Identity, n: State, id: DeviceId, est: Est, a: Ambient)
    ensures Promote(me, n, id, est, a).t.pairings == n.t.pairings && Promote(me, n, id, est, a).t.trust == n.t.trust
    ensures Promote(me, n, id, est, a).qr == n.qr
  {
  }

  /** A new connection changes no trust, and at most starts a pairing. */
  lemma EstablishedShape(me: Identity, n: State, est: Est, a: Ambient)
    ensures var n1, id := OnEstablished(me, n, est, a), me.idOf(est.key);
            && n1.t.trust == n.t.trust && n1.qr == n.qr
            && (n1.t.pairings == n.t.pairings
                || (est.conn in n.d.pairing
                    && n1.t.pairings == n.t.pairings[id := Pairing(est, false, false, n.d.pairing[est.conn])]))
  {
    PromoteShape(me, n.(d := EndDial(n.d, est.conn)), me.idOf(est.key), est, a);
    hide Promote;
  }

  lemma EstablishedBacked(me: Identity, w: World, est: Est, a: Ambient)
    requires Backed(w) && Tracked(w) && Possible(me, w, EstablishedEv(est))
    ensures Backed(Next(me, w, EstablishedEv(est), a))
    ensures TrustFollows(me, w, EstablishedEv(est), a)
  {
    hide OnEstablished, Earned;
    var e, id := EstablishedEv(est), me.idOf(est.key);
    var w1 := Next(me, w, e, a);
    OriginsGrow(me, w, e, a);
    VouchedMore(w.n.t.pairings, w, w1);
    if est.conn in w.n.d.pairing && w.n.d.pairing[est.conn] {
      assert w.origins[est.conn] == Outbound(Some(id), true);
    }
    EstablishedShape(me, w.n, est, a);
    hide Tracked, Possible;
  }

  lemma ClosedShape(n: State, conn: ConnId, reason: Reason, now: nat)
    ensures var n1 := OnClosed(n, conn, reason, now);
            n1.t.trust.Keys == n.t.trust.Keys && n1.t.pairings == DropWaiting(n.t, conn).pairings && n1.qr == n.qr
  {
    var t := DropWaiting(n.t, conn);
    if conn in t.connIndex { EndedShape(n.(t := Unlink(t, t.connIndex[conn])), t.connIndex[conn], reason, now); }
  }

  lemma EndedShape(n: State, id: DeviceId, reason: Reason, now: nat)
    ensures var n1 := SessionEnded(n, id, reason, now);
            n1.t.trust.Keys == n.t.trust.Keys && n1.t.pairings == n.t.pairings && n1.qr == n.qr
  {
  }

  lemma ClosedBacked(me: Identity, w: World, conn: ConnId, reason: Reason, a: Ambient)
    requires Backed(w) && Tracked(w)
    ensures Backed(Next(me, w, ClosedEv(conn, reason), a))
    ensures TrustFollows(me, w, ClosedEv(conn, reason), a)
  {
    var w1 := Next(me, w, ClosedEv(conn, reason), a);
    ClosedShape(w.n, conn, reason, a.policy.now);
    assert w1.confirmed == w.confirmed && w1.accepted == w.accepted && w1.n.t.trust.Keys == w.n.t.trust.Keys;
    OriginsGrow(me, w, ClosedEv(conn, reason), a);
    VouchedMore(w.n.t.pairings, w, w1);
  }

  /** An event that adds no pairing mark and no trusted device. */
  lemma NothingNew(me: Identity, w: World, e: Event, a: Ambient)
    requires Backed(w) && Tracked(w)
    requires var n1 := Handle(me, w.n, e, a);
             && (forall x :: x in n1.t.trust ==> x in w.n.t.trust)
             && (forall x :: x in n1.t.pairings ==> x in w.n.t.pairings && n1.t.pairings[x] == w.n.t.pairings[x])
    ensures Backed(Next(me, w, e, a)) && TrustFollows(me, w, e, a)
  {
    OriginsGrow(me, w, e, a);
    hide Handle;
    VouchedMore(w.n.t.pairings, w, Next(me, w, e, a));
  }

  lemma CommandShape(n: State, id: DeviceId, blocked: bool)
    ensures Disconnect(n, id).t.trust.Keys == n.t.trust.Keys && Disconnect(n, id).t.pairings == n.t.pairings
    ensures Forget(n, id).t.trust.Keys <= n.t.trust.Keys && Forget(n, id).t.pairings == n.t.pairings
    ensures SetBlocked(n, id, blocked).t.trust.Keys == n.t.trust.Keys && SetBlocked(n, id, blocked).t.pairings == n.t.pairings
    ensures Disconnect(n, id).qr == n.qr && Forget(n, id).qr == n.qr && SetBlocked(n, id, blocked).qr == n.qr
  {
    hide DropDial, Without, CloseOf;
  }

  lemma NextBacked(me: Identity, w: World, e: Event, a: Ambient)
    requires Backed(w) && Tracked(w) && Possible(me, w, e)
    ensures Backed(Next(me, w, e, a)) && TrustFollows(me, w, e, a)
  {
    hide Tracked, Backed, TrustFollows, Next, Confirm, OnEstablished, OnClosed, OnControl, Disconnect, Forget, SetBlocked, StartRoute;
    if e.ConfirmEv? {
      ConfirmBacked(me, w, e.id, e.accept, a);
    } else if e.EstablishedEv? {
      EstablishedBacked(me, w, e.est, a);
    } else if e.ClosedEv? {
      ClosedBacked(me, w, e.conn, e.reason, a);
    } else if e.ControlEv? {
      if e.conn in w.n.t.unpaired { RequestBacked(me, w, e.conn, e.msg, a); }
      else if e.msg.PairResult? { ResultBacked(me, w, e.conn, e.msg.accepted, a); }
      else { OtherMsgShape(me, w.n, e.conn, e.msg, a); NothingNew(me, w, e, a); }
    } else {
      OtherShape(me, w.n, e, a);
      hide Handle;
      NothingNew(me, w, e, a);
    }
  }

  lemma OtherMsgShape(me: Identity, n: State, conn: ConnId, msg: Msg, a: Ambient)
    requires conn !in n.t.unpaired && !msg.PairResult?
    ensures OnControl(me, n, conn, msg, a).t == n.t && OnControl(me, n, conn, msg, a).qr == n.qr
  {
    hide OnRouteMsg;
  }

  lemma OtherShape(me: Identity, n: State, e: Event, a: Ambient)
    requires !e.ConfirmEv? && !e.EstablishedEv? && !e.ClosedEv? && !e.ControlEv?
    ensures var n1 := Handle(me, n, e, a);
            && (forall x :: x in n1.t.trust ==> x in n.t.trust)
            && (forall x :: x in n1.t.pairings ==> x in n.t.pairings && n1.t.pairings[x] == n.t.pairings[x])
            && (!e.StartPairingEv? && !e.StopPairingEv? ==> n1.qr == n.qr)
  {
    hide Disconnect, Forget, SetBlocked, StartRoute;
    if AboutDials(e) {
      hide Handle;
      DialsOnly(me, n, e, a);
    } else if AboutRoutes(e) {
      hide Handle;
      RoutesOnly(me, n, e, a);
    } else {
      match e
      case DisconnectEv(id) => CommandShape(n, id, false);
      case ForgetEv(id) => CommandShape(n, id, false);
      case SetBlockedEv(id, blocked) => CommandShape(n, id, blocked);
      case StartRouteEv(peer, kind, replace) => StartsOnly(n, peer, kind, replace, a.policy);
      case _ =>
    }
  }

  // ---------------------------------------------------------------- QR codes

  /** The offered code has not been used, and only offered codes have been. */
  ghost predicate Codes(w: World) {
    && (w.n.qr.Some? ==> w.n.qr.value.secret in w.offered && w.n.qr.value.secret !in w.spent)
    && w.spent <= w.offered
  }

  /** A verified proof uses the code up; only starting and stopping pairing change it otherwise. */
  lemma HandleQr(me: Identity, n: State, e: Event, a: Ambient)
    ensures Handle(me, n, e, a).qr ==
            (if Verified(me, n, e, a).Some? || e.StopPairingEv? then None
             else if e.StartPairingEv? then Some(Qr(e.secret, e.expires)) else n.qr)
  {
    hide Confirm, OnEstablished, OnClosed, OnControl;
    match e
    case ConfirmEv(id, accept) => ConfirmQr(me, n, id, accept, a);
    case EstablishedEv(est) => EstablishedShape(me, n, est, a);
    case ClosedEv(conn, reason) => ClosedShape(n, conn, reason, a.policy.now);
    case ControlEv(conn, msg) => ControlQr(me, n, conn, msg, a);
    case _ => OtherQr(me, n, e, a);
  }

  lemma OtherQr(me: Identity, n: State, e: Event, a: Ambient)
    requires !e.ConfirmEv? && !e.EstablishedEv? && !e.ClosedEv? && !e.ControlEv?
    ensures Handle(me, n, e, a).qr ==
            if e.StopPairingEv? then None else if e.StartPairingEv? then Some(Qr(e.secret, e.expires)) else n.qr
  {
    OtherShape(me, n, e, a);
    if !e.StartPairingEv? && !e.StopPairingEv? { hide Handle; }
  }

  lemma ConfirmQr(me: Identity, n: State, id: DeviceId, accept: bool, a: Ambient)
    ensures Confirm(me, n, id, accept, a).qr == n.qr
  {
    if id in n.t.pairings { CompletePairings(me, n.(t := Mark(n.t, id, true, n.t.pairings[id].peerConfirmed)), id, a); }
    hide Complete;
  }

  lemma ControlQr(me: Identity, n: State, conn: ConnId, msg: Msg, a: Ambient)
    ensures OnControl(me, n, conn, msg, a).qr == if Verified(me, n, ControlEv(conn, msg), a).Some? then None else n.qr
  {
    hide AcceptProof, OnPairResult;
    if conn in n.t.unpaired {
      ProofPairings(me, n.(t := n.t.(unpaired := n.t.unpaired - {conn})), n.t.unpaired[conn], a);
    } else if PairingOn(n.t, conn).Some? && msg.PairResult? {
      ResultShape(me, n, PairingOn(n.t, conn).value, msg.accepted, a);
    }
  }

  lemma NextCodes(me: Identity, w: World, e: Event, a: Ambient)
    requires Codes(w) && Possible(me, w, e)
    ensures Codes(Next(me, w, e, a))
  {
    HandleQr(me, w.n, e, a);
  }

  // ---------------------------------------------------------------- whole runs

  ghost predicate Sound(me: Identity, w: World) { Consistent(me, w) && Backed(w) && Codes(w) }

  lemma {:induction false} AlwaysSound(me: Identity, trust: map<DeviceId, Trusted>, nextConn: ConnId, ins: seq<Input>)
    requires Injective(me) && FiledTrust(me, trust) && PossibleRun(me, InitWorld(trust, nextConn), ins)
    ensures Sound(me, Run(me, InitWorld(trust, nextConn), ins))
  {
    AlwaysConsistent(me, trust, nextConn, ins);
    if ins != [] {
      var w0, front, i := InitWorld(trust, nextConn), ins[..|ins| - 1], ins[|ins| - 1];
      PossiblePrefix(me, w0, ins);
      AlwaysSound(me, trust, nextConn, front);
      NextBacked(me, Run(me, w0, front), i.e, i.a);
      NextCodes(me, Run(me, w0, front), i.e, i.a);
    }
  }

  /** In every run, a device that enters the trust store has earned it with that very event. */
  lemma {:induction false} TrustIsEarned(me: Identity, trust: map<DeviceId, Trusted>, nextConn: ConnId, ins: seq<Input>, id: DeviceId)
    requires Injective(me) && FiledTrust(me, trust) && ins != []
    requires PossibleRun(me, InitWorld(trust, nextConn), ins)
    ensures var before, after := Run(me, InitWorld(trust, nextConn), ins[..|ins| - 1]), Run(me, InitWorld(trust, nextConn), ins);
            id !in before.n.t.trust && id in after.n.t.trust ==>
              Earned(me, before, ins[|ins| - 1].e, ins[|ins| - 1].a, id)
  {
    var w0, front, i := InitWorld(trust, nextConn), ins[..|ins| - 1], ins[|ins| - 1];
    PossiblePrefix(me, w0, ins);
    AlwaysSound(me, trust, nextConn, front);
    NextBacked(me, Run(me, w0, front), i.e, i.a);
  }

  /** The secret whose proof input number `i` of a run verifies, if it does. */
  ghost function VerifiedAt(me: Identity, w: World, ins: seq<Input>, i: nat): Option<Secret>
    requires i < |ins|
  {
    Verified(me, Run(me, w, ins[..i]).n, ins[i].e, ins[i].a)
  }

  /** A secret verified during a run is spent at its end. */
  lemma {:induction false} VerifiedIsSpent(me: Identity, w: World, ins: seq<Input>, i: nat)
    requires i < |ins| && VerifiedAt(me, w, ins, i).Some?
    ensures VerifiedAt(me, w, ins, i).value in Run(me, w, ins).spent
  {
    hide Handle;
    var front := ins[..|ins| - 1];
    if i < |front| {
      assert front[..i] == ins[..i] && front[i] == ins[i];
      VerifiedIsSpent(me, w, front, i);
    }
  }

  lemma PossibleTake(me: Identity, w: World, ins: seq<Input>, j: nat)
    requires j <= |ins| && PossibleRun(me, w, ins)
    ensures PossibleRun(me, w, ins[..j])
  {
    hide Run, Possible;
    forall k | 0 <= k < j ensures Possible(me, Run(me, w, ins[..j][..k]), ins[..j][k].e) {
      assert ins[..j][..k] == ins[..k];
    }
  }

  lemma VerifiedUnspent(me: Identity, w: World, e: Event, a: Ambient)
    requires Codes(w) && Verified(me, w.n, e, a).Some?
    ensures Verified(me, w.n, e, a).value !in w.spent
  {
  }

  /** Across any run, each QR secret admits at most one verified proof. */
  lemma {:induction false} QrSecretOnce(me: Identity, trust: map<DeviceId, Trusted>, nextConn: ConnId, ins: seq<Input>, i: nat, j: nat)
    requires Injective(me) && FiledTrust(me, trust) && PossibleRun(me, InitWorld(trust, nextConn), ins)
    requires i < j < |ins|
    ensures var a, b := VerifiedAt(me, InitWorld(trust, nextConn), ins, i), VerifiedAt(me, InitWorld(trust, nextConn), ins, j);
            a.Some? && b.Some? ==> a.value != b.value
  {
    hide Verified, Consistent, Backed, Codes, Run, PossibleRun, InitWorld;
    var w0, front := InitWorld(trust, nextConn), ins[..j];
    PossibleTake(me, w0, ins, j);
    AlwaysSound(me, trust, nextConn, front);
    assert front[..i] == ins[..i] && front[i] == ins[i];
    assert VerifiedAt(me, w0, front, i) == VerifiedAt(me, w0, ins, i);
    if VerifiedAt(me, w0, ins, i).Some? && VerifiedAt(me, w0, ins, j).Some? {
      VerifiedIsSpent(me, w0, front, i);
      VerifiedUnspent(me, Run(me, w0, front), ins[j].e, ins[j].a);
    }
  }
}
