/** Whole runs of one node: the tables stay consistent, dials end, trust is earned, codes are single use. */
module NodeRuns {
  import opened Common
  import opened Routes
  import opened Node
  import opened NodeTheorems
  import opened RouteLife

  // ---------------------------------------------------------------- dials

  ghost predicate InFlight(d: Dials, id: DeviceId) { id in d.states && d.states[id] }

  ghost predicate Targeted(d: Dials, id: DeviceId) { exists c :: c in d.targets && d.targets[c] == id }

  /** A dial in flight is for a trusted, unblocked device and is still recorded. */
  ghost predicate Recorded(d: Dials, trust: map<DeviceId, Trusted>) {
    forall id :: InFlight(d, id) ==> id in trust && !trust[id].blocked && Targeted(d, id)
  }

  /** Whatever was in flight before for a device other than `id` still is. */
  lemma CancelRecorded(d: Dials, id: DeviceId, trust: map<DeviceId, Trusted>, after: map<DeviceId, Trusted>)
    requires Recorded(d, trust)
    requires forall x :: x in trust && x != id && !trust[x].blocked ==> x in after && !after[x].blocked
    ensures Recorded(CancelDial(d, id), after) && Recorded(DropDial(d, id), after)
    ensures !InFlight(CancelDial(d, id), id)
  {
    forall x | InFlight(CancelDial(d, id), x) || InFlight(DropDial(d, id), x)
      ensures x != id && InFlight(d, x) && Targeted(CancelDial(d, id), x) && Targeted(DropDial(d, id), x)
    {
      assert InFlight(d, x);
      var c :| c in d.targets && d.targets[c] == x;
      assert c in OtherTargets(d.targets, id);
      assert c in CancelDial(d, id).targets && c in DropDial(d, id).targets;
    }
  }

  lemma TrustRecorded(d: Dials, trust: map<DeviceId, Trusted>, after: map<DeviceId, Trusted>)
    requires Recorded(d, trust)
    requires forall x :: x in trust && !trust[x].blocked ==> x in after && !after[x].blocked
    ensures Recorded(d, after)
  {
  }

  /** Ending one dial matters only to the device it was for. */
  lemma EndDialTargets(d: Dials, conn: ConnId, id: DeviceId)
    requires Targeted(d, id) && !(conn in d.targets && d.targets[conn] == id)
    ensures Targeted(EndDial(d, conn), id)
  {
    var c :| c in d.targets && d.targets[c] == id;
    assert c in EndDial(d, conn).targets;
  }

  /** A dial that ends for `id` and clears its flag. */
  lemma EndedRecorded(d: Dials, conn: ConnId, id: DeviceId, trust: map<DeviceId, Trusted>, after: Dials)
    requires Recorded(d, trust) && (conn in d.targets ==> d.targets[conn] == id)
    requires after.targets == d.targets - {conn} && !InFlight(after, id)
    requires forall x :: InFlight(after, x) ==> InFlight(d, x)
    ensures Recorded(after, trust)
  {
    forall x | InFlight(after, x) ensures x in trust && !trust[x].blocked && Targeted(after, x) {
      EndDialTargets(d, conn, x);
      var c :| c in EndDial(d, conn).targets && EndDial(d, conn).targets[c] == x;
      assert c in after.targets;
    }
  }

  lemma StartRecorded(d: Dials, target: Option<DeviceId>, trust: map<DeviceId, Trusted>)
    requires Recorded(d, trust) && d.nextConn !in d.targets
    ensures Recorded(StartDial(d, target), trust) && Recorded(PairDial(d, target), trust)
  {
    forall x | InFlight(d, x) ensures Targeted(StartDial(d, target), x) && Targeted(PairDial(d, target), x) {
      var c :| c in d.targets && d.targets[c] == x;
      assert c in StartDial(d, target).targets && c in PairDial(d, target).targets;
    }
  }

  lemma TryDialRecorded(t: Tables, d: Dials, id: DeviceId, due: bool, reachable: bool)
    requires Recorded(d, t.trust) && d.nextConn !in d.targets
    ensures Recorded(TryDial(t, d, id, due, reachable), t.trust)
  {
    var d1 := EnsureDial(d, id);
    EnsureRecorded(d, id, t.trust);
    if id in t.trust && !t.trust[id].blocked && !d1.states[id] {
      var d2 := StartDial(d1.(states := d1.states[id := true]), Some(id));
      forall x | InFlight(d2, x) ensures x in t.trust && !t.trust[x].blocked && Targeted(d2, x) {
        if x == id { assert d1.nextConn in d2.targets; }
        else {
          assert InFlight(d1, x);
          var c :| c in d1.targets && d1.targets[c] == x;
          assert c in d2.targets;
        }
      }
    }
  }

  lemma EnsureRecorded(d: Dials, id: DeviceId, trust: map<DeviceId, Trusted>)
    requires Recorded(d, trust)
    ensures Recorded(EnsureDial(d, id), trust)
  {
    forall x | InFlight(EnsureDial(d, id), x) ensures InFlight(d, x) && Targeted(EnsureDial(d, id), x) {
      assert InFlight(d, x);
      var c :| c in d.targets && d.targets[c] == x;
      assert c in EnsureDial(d, id).targets;
    }
  }

  // ---------------------------------------------------------------- consistency of a world

  /** Recorded dials have not ended, and are pinned as recorded. */
  ghost predicate Tracked(w: World) {
    && (forall c :: c in w.origins ==> c < w.n.d.nextConn)
    && (forall c :: c in w.n.d.targets ==>
          c in w.origins && c !in w.ended && w.origins[c].Outbound? && w.origins[c].pinned == Some(w.n.d.targets[c]))
    && (forall c :: c in w.n.d.pairing ==>
          c in w.origins && c !in w.ended && w.origins[c].Outbound? && w.origins[c].qr == w.n.d.pairing[c])
    && (forall c :: c in w.origins && w.origins[c].Outbound? && w.origins[c].qr ==> w.origins[c].pinned.Some?)
    && (forall c :: c in w.ended ==> c in w.origins)
  }

  ghost predicate AllIn(conns: set<ConnId>, ended: set<ConnId>) { conns <= ended }

  ghost predicate PairingsIn(pairings: map<DeviceId, Pairing>, ended: set<ConnId>) {
    forall id :: id in pairings ==> pairings[id].est.conn in ended
  }

  /** Connections in use have been established. */
  ghost predicate UsedEnded(t: Tables, ended: set<ConnId>) {
    AllIn(t.unpaired.Keys, ended) && AllIn(t.connIndex.Keys, ended) && PairingsIn(t.pairings, ended)
  }

  ghost predicate Consistent(me: Identity, w: World) {
    && Agree(me, w.n.t) && Recorded(w.n.d, w.n.t.trust) && Tracked(w) && UsedEnded(w.n.t, w.ended)
    && NoneStopped(w.n.routes)
  }

  /** A node just started, with whatever was in its trust store. */
  ghost function InitWorld(trust: map<DeviceId, Trusted>, nextConn: ConnId): World {
    World(State(Tables(trust, map[], map[], map[], map[]), Dials(map[], map[], map[], nextConn), None, [], []),
          map[], {}, {}, {}, {}, {})
  }

  // ---------------------------------------------------------------- how an event changes each part

  /** Recorded dials are old ones that did not end now, or the one that starts now. */
  ghost predicate DialsFollow(d: Dials, e: Event, after: Dials) {
    && d.nextConn <= after.nextConn <= d.nextConn + 1
    && (forall c :: c in after.targets ==>
          || (c in d.targets && after.targets[c] == d.targets[c] && c !in EndedBy(e))
          || (c == d.nextConn && after.nextConn == c + 1 && OriginOf(e).Outbound? && OriginOf(e).pinned == Some(after.targets[c])))
    && (forall c :: c in after.pairing ==>
          || (c in d.pairing && after.pairing[c] == d.pairing[c] && c !in EndedBy(e))
          || (c == d.nextConn && after.nextConn == c + 1 && OriginOf(e).Outbound? && OriginOf(e).qr == after.pairing[c]))
  }

  /** The dials after an event that may promote: those before, minus some. */
  ghost predicate Fewer(d: Dials, after: Dials) {
    && after.nextConn == d.nextConn && after.pairing == d.pairing
    && (forall c :: c in after.targets ==> c in d.targets && after.targets[c] == d.targets[c])
  }

  lemma CompleteFewer(me: Identity, n: State, id: DeviceId, a: Ambient)
    ensures Fewer(n.d, Complete(me, n, id, a).d)
  {
  }

  lemma FewerSame(d: Dials)
    ensures Fewer(d, d)
  {
  }

  lemma ControlFewer(me: Identity, n: State, conn: ConnId, msg: Msg, a: Ambient)
    ensures Fewer(n.d, OnControl(me, n, conn, msg, a).d)
  {
    hide Complete, Fewer;
    FewerSame(n.d);
    if conn in n.t.unpaired {
      if msg.PairRequest? {
        var n1, est := n.(t := n.t.(unpaired := n.t.unpaired - {conn})), n.t.unpaired[conn];
        var id := me.idOf(est.key);
        var n2 := BeginPairing(n1.(qr := None), id, est, false, a);
        CompleteFewer(me, if id in n2.t.pairings then n2.(t := Mark(n2.t, id, true, true)) else n2, id, a);
      }
    } else if PairingOn(n.t, conn).Some? && msg.PairResult? {
      var id := PairingOn(n.t, conn).value;
      CompleteFewer(me, n.(t := Mark(n.t, id, n.t.pairings[id].localConfirmed, true)), id, a);
    }
  }

  lemma EstablishedFewer(me: Identity, n: State, est: Est, a: Ambient)
    ensures Fewer(EndDial(n.d, est.conn), OnEstablished(me, n, est, a).d)
  {
  }

  lemma ConfirmFewer(me: Identity, n: State, id: DeviceId, accept: bool, a: Ambient)
    ensures Fewer(n.d, Confirm(me, n, id, accept, a).d)
  {
    if id in n.t.pairings {
      CompleteFewer(me, n.(t := Mark(n.t, id, true, n.t.pairings[id].peerConfirmed)), id, a);
    }
  }

  lemma FewerFollows(d: Dials, e: Event, after: Dials)
    requires EndedBy(e) == {} && Fewer(d, after)
    ensures DialsFollow(d, e, after)
  {
  }

  lemma EndFollows(d: Dials, e: Event, conn: ConnId, after: Dials)
    requires EndedBy(e) == {conn} && Fewer(EndDial(d, conn), after)
    ensures DialsFollow(d, e, after)
  {
  }

  lemma EnsureSame(d: Dials, id: DeviceId)
    ensures var d1 := EnsureDial(d, id);
            d1.targets == d.targets && d1.pairing == d.pairing && d1.nextConn == d.nextConn
  {
  }

  lemma StartFollows(d: Dials, e: Event, id: DeviceId, before: Dials)
    requires EndedBy(e) == {} && OriginOf(e) == Outbound(Some(id), false)
    requires d.targets == before.targets && d.pairing == before.pairing && d.nextConn == before.nextConn
    ensures DialsFollow(before, e, d) && DialsFollow(before, e, StartDial(d, Some(id)))
  {
  }

  lemma TryFollows(t: Tables, d: Dials, e: Event, id: DeviceId, due: bool, reachable: bool, before: Dials)
    requires EndedBy(e) == {} && OriginOf(e) == Outbound(Some(id), false)
    requires d.targets == before.targets && d.pairing == before.pairing && d.nextConn == before.nextConn
    ensures DialsFollow(before, e, TryDial(t, d, id, due, reachable))
  {
    var d1 := EnsureDial(d, id);
    EnsureSame(d, id);
    hide DialsFollow, EnsureDial, StartDial;
    StartFollows(d, e, id, before);
    StartFollows(d1, e, id, before);
    StartFollows(d1.(states := d1.states[id := true]), e, id, before);
  }

  lemma TryDialFollows(t: Tables, d: Dials, e: Event, id: DeviceId, due: bool, reachable: bool)
    requires EndedBy(e) == {} && OriginOf(e) == Outbound(Some(id), false)
    ensures DialsFollow(d, e, TryDial(t, d, id, due, reachable))
    ensures DialsFollow(d, e, Connect(t, d, id, reachable))
  {
    hide DialsFollow, TryDial;
    EnsureSame(d, id);
    TryFollows(t, d, e, id, due, reachable, d);
    TryFollows(t, EnsureDial(d, id), e, id, true, reachable, d);
  }

  lemma ClosedFewer(n: State, conn: ConnId, reason: Reason, now: nat)
    ensures Fewer(n.d, OnClosed(n, conn, reason, now).d)
  {
    var t := DropWaiting(n.t, conn);
    if conn in t.connIndex {
      SessionEndedFewer(n.(t := Unlink(t, t.connIndex[conn])), t.connIndex[conn], reason, now);
    }
  }

  lemma SessionEndedFewer(n: State, id: DeviceId, reason: Reason, now: nat)
    ensures Fewer(n.d, SessionEnded(n, id, reason, now).d)
  {
  }

  lemma DialEndFewer(n: State, conn: ConnId, target: Option<DeviceId>)
    ensures Fewer(EndDial(n.d, conn), DialFailed(n.t, n.d, conn, target))
    ensures Fewer(EndDial(n.d, conn), HandshakeFailed(n.d, conn))
  {
  }

  lemma DropFewer(d: Dials, id: DeviceId)
    ensures Fewer(d, d) && Fewer(d, DropDial(d, id))
  {
  }

  lemma DialEventFollows(me: Identity, n: State, e: Event, a: Ambient)
    requires AboutDials(e)
    ensures DialsFollow(n.d, e, Handle(me, n, e, a).d)
  {
    hide TryDial, Connect, DialFailed, HandshakeFailed, DialsFollow, Fewer;
    match e
    case ConnectEv(id, reachable) => TryDialFollows(n.t, n.d, e, id, true, reachable);
    case TryDialEv(id, due, reachable) => TryDialFollows(n.t, n.d, e, id, due, reachable);
    case DialFailedEv(conn, target) => DialEndFewer(n, conn, target); EndFollows(n.d, e, conn, DialFailed(n.t, n.d, conn, target));
    case HandshakeFailedEv(conn) => DialEndFewer(n, conn, None); EndFollows(n.d, e, conn, HandshakeFailed(n.d, conn));
    case _ => AllocFollows(me, n, e, a);
  }

  lemma AllocFollows(me: Identity, n: State, e: Event, a: Ambient)
    requires e.PairWithQrEv? || e.PairPlainEv? || e.IncomingEv?
    ensures DialsFollow(n.d, e, Handle(me, n, e, a).d)
  {
  }

  lemma HandleFollows(me: Identity, n: State, e: Event, a: Ambient)
    ensures DialsFollow(n.d, e, Handle(me, n, e, a).d)
  {
    hide DialsFollow, Fewer, DropDial, Confirm, OnEstablished, OnControl, OnClosed, StartRoute, EndPairing;
    if AboutDials(e) {
      hide Handle;
      DialEventFollows(me, n, e, a);
    } else if AboutRoutes(e) {
      hide Handle;
      RoutesOnly(me, n, e, a);
      DropFewer(n.d, 0);
      FewerFollows(n.d, e, n.d);
    } else {
      match e
      case ConfirmEv(id, accept) => ConfirmFewer(me, n, id, accept, a); FewerFollows(n.d, e, Confirm(me, n, id, accept, a).d);
      case EstablishedEv(est) => EstablishedFewer(me, n, est, a); EndFollows(n.d, e, est.conn, OnEstablished(me, n, est, a).d);
      case ControlEv(conn, msg) => ControlFewer(me, n, conn, msg, a); FewerFollows(n.d, e, OnControl(me, n, conn, msg, a).d);
      case ClosedEv(conn, reason) =>
        ClosedFewer(n, conn, reason, a.policy.now);
        FewerFollows(n.d, e, OnClosed(n, conn, reason, a.policy.now).d);
      case StartRouteEv(peer, kind, replace) =>
        StartsOnly(n, peer, kind, replace, a.policy);
        DropFewer(n.d, 0);
        FewerFollows(n.d, e, n.d);
      case _ => CommandFollows(me, n, e, a);
    }
  }

  predicate AboutDevice(e: Event) {
    e.DisconnectEv? || e.ForgetEv? || e.SetBlockedEv? || e.StartPairingEv? || e.StopPairingEv? || e.DropUnpairedEv? || e.DropPairingEv?
  }

  lemma CommandFollows(me: Identity, n: State, e: Event, a: Ambient)
    requires AboutDevice(e)
    ensures DialsFollow(n.d, e, Handle(me, n, e, a).d)
  {
    hide DialsFollow, Fewer, DropDial, Unlink, CloseOf, Without, SetAuto, Block;
    var id := if e.DisconnectEv? then e.id else if e.ForgetEv? then e.id else if e.SetBlockedEv? then e.id else 0;
    DropFewer(n.d, id);
    FewerFollows(n.d, e, n.d);
    FewerFollows(n.d, e, DropDial(n.d, id));
  }

  ghost predicate OriginsFollow(w: World, e: Event, w1: World) {
    && w1.ended == w.ended + EndedBy(e)
    && w1.origins == if w1.n.d.nextConn == w.n.d.nextConn then w.origins else w.origins[w.n.d.nextConn := OriginOf(e)]
  }

  lemma TargetsAfter(me: Identity, w: World, e: Event, w1: World, c: ConnId)
    requires Tracked(w) && Possible(me, w, e) && DialsFollow(w.n.d, e, w1.n.d) && OriginsFollow(w, e, w1)
    ensures c in w1.n.d.targets ==>
              c in w1.origins && c !in w1.ended && w1.origins[c].Outbound? && w1.origins[c].pinned == Some(w1.n.d.targets[c])
    ensures c in w1.n.d.pairing ==>
              c in w1.origins && c !in w1.ended && w1.origins[c].Outbound? && w1.origins[c].qr == w1.n.d.pairing[c]
  {
  }

  lemma OriginsAfter(me: Identity, w: World, e: Event, w1: World, c: ConnId)
    requires Tracked(w) && Possible(me, w, e) && OriginsFollow(w, e, w1)
    requires w.n.d.nextConn <= w1.n.d.nextConn <= w.n.d.nextConn + 1
    ensures c in w1.origins ==> c < w1.n.d.nextConn
    ensures c in w1.origins && w1.origins[c].Outbound? && w1.origins[c].qr ==> w1.origins[c].pinned.Some?
    ensures c in w1.ended ==> c in w1.origins
  {
  }

  lemma TrackedFrom(w: World)
    requires forall c: ConnId :: c in w.n.d.targets ==>
               c in w.origins && c !in w.ended && w.origins[c].Outbound? && w.origins[c].pinned == Some(w.n.d.targets[c])
    requires forall c: ConnId :: c in w.n.d.pairing ==>
               c in w.origins && c !in w.ended && w.origins[c].Outbound? && w.origins[c].qr == w.n.d.pairing[c]
    requires forall c: ConnId :: c in w.origins ==> c < w.n.d.nextConn
    requires forall c: ConnId :: c in w.origins && w.origins[c].Outbound? && w.origins[c].qr ==> w.origins[c].pinned.Some?
    requires forall c: ConnId :: c in w.ended ==> c in w.origins
    ensures Tracked(w)
  {
  }

  lemma TrackedAfter(me: Identity, w: World, e: Event, w1: World)
    requires Tracked(w) && Possible(me, w, e) && DialsFollow(w.n.d, e, w1.n.d) && OriginsFollow(w, e, w1)
    ensures Tracked(w1)
  {
    assert w.n.d.nextConn <= w1.n.d.nextConn <= w.n.d.nextConn + 1;
    hide DialsFollow, OriginsFollow, Possible, Tracked;
    forall c: ConnId ensures c in w1.n.d.targets ==>
                       c in w1.origins && c !in w1.ended && w1.origins[c].Outbound? && w1.origins[c].pinned == Some(w1.n.d.targets[c])
             ensures c in w1.n.d.pairing ==>
                       c in w1.origins && c !in w1.ended && w1.origins[c].Outbound? && w1.origins[c].qr == w1.n.d.pairing[c]
    {
      TargetsAfter(me, w, e, w1, c);
    }
    forall c: ConnId ensures c in w1.origins ==> c < w1.n.d.nextConn
             ensures c in w1.origins && w1.origins[c].Outbound? && w1.origins[c].qr ==> w1.origins[c].pinned.Some?
             ensures c in w1.ended ==> c in w1.origins
    {
      OriginsAfter(me, w, e, w1, c);
    }
    TrackedFrom(w1);
  }

  lemma NextTracked(me: Identity, w: World, e: Event, a: Ambient)
    requires Tracked(w) && Possible(me, w, e)
    ensures Tracked(Next(me, w, e, a))
  {
    hide Handle;
    HandleFollows(me, w.n, e, a);
    TrackedAfter(me, w, e, Next(me, w, e, a));
  }

  // ---------------------------------------------------------------- dials stay recorded

  lemma EstablishedRecorded(me: Identity, w: World, est: Est, a: Ambient)
    requires Injective(me) && Consistent(me, w) && Possible(me, w, EstablishedEv(est))
    ensures var n := OnEstablished(me, w.n, est, a); Recorded(n.d, n.t.trust)
  {
    var n, id := w.n, me.idOf(est.key);
    var after := OnEstablished(me, n, est, a);
    if id in n.t.trust && !n.t.trust[id].blocked && n.t.trust[id].key == est.key {
      EndDialCancelled(n.d, est.conn, id, n.t.trust);
    } else {
      assert after.d == EndDial(n.d, est.conn) && after.t.trust == n.t.trust;
      assert id in n.t.trust ==> n.t.trust[id].key == est.key;
      EndedRecorded(n.d, est.conn, id, n.t.trust, after.d);
    }
  }

  lemma EndDialCancelled(d: Dials, conn: ConnId, id: DeviceId, trust: map<DeviceId, Trusted>)
    requires Recorded(d, trust) && (conn in d.targets ==> d.targets[conn] == id)
    ensures Recorded(CancelDial(EndDial(d, conn), id), trust)
  {
    CancelRecorded(d, id, trust, trust);
    var after := CancelDial(EndDial(d, conn), id);
    forall x | InFlight(after, x) ensures x in trust && !trust[x].blocked && Targeted(after, x) {
      assert InFlight(CancelDial(d, id), x);
      var c :| c in CancelDial(d, id).targets && CancelDial(d, id).targets[c] == x;
      assert c in after.targets;
    }
  }

  lemma CompleteRecorded(me: Identity, n: State, id: DeviceId, a: Ambient)
    requires Recorded(n.d, n.t.trust)
    ensures var n1 := Complete(me, n, id, a); Recorded(n1.d, n1.t.trust)
  {
    if id in n.t.pairings {
      var trust := Enroll(n.t, id).trust;
      TrustRecorded(n.d, n.t.trust, trust);
      CancelRecorded(n.d, id, trust, trust);
    }
  }

  lemma ControlRecorded(me: Identity, n: State, conn: ConnId, msg: Msg, a: Ambient)
    requires Recorded(n.d, n.t.trust)
    ensures var n1 := OnControl(me, n, conn, msg, a); Recorded(n1.d, n1.t.trust)
  {
    if conn in n.t.unpaired {
      if msg.PairRequest? {
        var n1, est := n.(t := n.t.(unpaired := n.t.unpaired - {conn})), n.t.unpaired[conn];
        var id := me.idOf(est.key);
        var n2 := BeginPairing(n1.(qr := None), id, est, false, a);
        CompleteRecorded(me, if id in n2.t.pairings then n2.(t := Mark(n2.t, id, true, true)) else n2, id, a);
      }
    } else if PairingOn(n.t, conn).Some? && msg.PairResult? {
      var id := PairingOn(n.t, conn).value;
      CompleteRecorded(me, n.(t := Mark(n.t, id, n.t.pairings[id].localConfirmed, true)), id, a);
    }
  }

  lemma ClosedRecorded(n: State, conn: ConnId, reason: Reason, now: nat)
    requires Recorded(n.d, n.t.trust)
    ensures var n1 := OnClosed(n, conn, reason, now); Recorded(n1.d, n1.t.trust)
  {
    var t := DropWaiting(n.t, conn);
    if conn in t.connIndex {
      SessionEndedRecorded(n.(t := Unlink(t, t.connIndex[conn])), t.connIndex[conn], reason, now);
    }
  }

  lemma SessionEndedRecorded(n: State, id: DeviceId, reason: Reason, now: nat)
    requires Recorded(n.d, n.t.trust)
    ensures var n1 := SessionEnded(n, id, reason, now); Recorded(n1.d, n1.t.trust)
  {
    CancelRecorded(n.d, id, n.t.trust, SetAuto(n.t.trust, id, false));
    ClearRecorded(n.d, id, n.t.trust);
  }

  /** Clearing a flag needs no record. */
  lemma ClearRecorded(d: Dials, id: DeviceId, trust: map<DeviceId, Trusted>)
    requires Recorded(d, trust)
    ensures Recorded(d.(states := d.states[id := false]), trust)
  {
    var after := d.(states := d.states[id := false]);
    forall x | InFlight(after, x) ensures InFlight(d, x) && Targeted(after, x) {
      assert InFlight(d, x);
      var c :| c in d.targets && d.targets[c] == x;
      assert c in after.targets;
    }
  }

  lemma DialEndRecorded(me: Identity, w: World, e: Event)
    requires Consistent(me, w) && Possible(me, w, e) && (e.DialFailedEv? || e.HandshakeFailedEv?)
    ensures Recorded(if e.DialFailedEv? then DialFailed(w.n.t, w.n.d, e.conn, e.target) else HandshakeFailed(w.n.d, e.conn), w.n.t.trust)
  {
    var d, trust := w.n.d, w.n.t.trust;
    if e.DialFailedEv? {
      var after := DialFailed(w.n.t, d, e.conn, e.target);
      if e.target.Some? { EndedRecorded(d, e.conn, e.target.value, trust, after); }
      else {
        forall x | InFlight(after, x) ensures Targeted(after, x) { EndDialTargets(d, e.conn, x); }
      }
    } else {
      var after := HandshakeFailed(d, e.conn);
      if e.conn in d.targets { EndedRecorded(d, e.conn, d.targets[e.conn], trust, after); }
      else {
        forall x | InFlight(after, x) ensures Targeted(after, x) { EndDialTargets(d, e.conn, x); }
      }
    }
  }

  lemma ConnectRecorded(t: Tables, d: Dials, id: DeviceId, reachable: bool)
    requires Recorded(d, t.trust) && d.nextConn !in d.targets
    ensures Recorded(Connect(t, d, id, reachable), t.trust)
  {
    EnsureRecorded(d, id, t.trust);
    TryDialRecorded(t, EnsureDial(d, id), id, true, reachable);
  }

  lemma ConfirmRecorded(me: Identity, n: State, id: DeviceId, accept: bool, a: Ambient)
    requires Recorded(n.d, n.t.trust)
    ensures var n1 := Confirm(me, n, id, accept, a); Recorded(n1.d, n1.t.trust)
  {
    if id in n.t.pairings { CompleteRecorded(me, n.(t := Mark(n.t, id, true, n.t.pairings[id].peerConfirmed)), id, a); }
  }

  lemma DialEventRecorded(me: Identity, w: World, e: Event, a: Ambient)
    requires Consistent(me, w) && Possible(me, w, e) && AboutDials(e)
    ensures Recorded(Handle(me, w.n, e, a).d, w.n.t.trust)
  {
    assert w.n.d.nextConn !in w.n.d.targets;
    var n := w.n;
    hide Recorded, TryDial, Connect, PairDial, StartDial, DialFailed, HandshakeFailed, Consistent, Possible;
    match e
    case PairWithQrEv(device) => StartRecorded(n.d, Some(device), n.t.trust);
    case PairPlainEv => StartRecorded(n.d, None, n.t.trust);
    case ConnectEv(id, reachable) => ConnectRecorded(n.t, n.d, id, reachable);
    case TryDialEv(id, due, reachable) => TryDialRecorded(n.t, n.d, id, due, reachable);
    case IncomingEv => IncomingRecorded(n.d, n.t.trust);
    case DialFailedEv(conn, target) => DialEndRecorded(me, w, e);
    case HandshakeFailedEv(conn) => DialEndRecorded(me, w, e);
  }

  lemma IncomingRecorded(d: Dials, trust: map<DeviceId, Trusted>)
    requires Recorded(d, trust)
    ensures Recorded(d.(nextConn := d.nextConn + 1), trust)
  {
    var after := d.(nextConn := d.nextConn + 1);
    forall x | InFlight(after, x) ensures InFlight(d, x) && Targeted(after, x) {
      assert InFlight(d, x);
      var c :| c in d.targets && d.targets[c] == x;
      assert c in after.targets;
    }
  }

  lemma CommandRecorded(n: State, id: DeviceId)
    requires Recorded(n.d, n.t.trust)
    ensures Recorded(Disconnect(n, id).d, Disconnect(n, id).t.trust) && Recorded(Forget(n, id).d, Forget(n, id).t.trust)
  {
    CancelRecorded(n.d, id, n.t.trust, SetAuto(n.t.trust, id, false));
    CancelRecorded(n.d, id, n.t.trust, n.t.trust - {id});
    hide Recorded, DropDial;
  }

  lemma SetBlockedRecorded(n: State, id: DeviceId, blocked: bool)
    requires Recorded(n.d, n.t.trust)
    ensures var n1 := SetBlocked(n, id, blocked); Recorded(n1.d, n1.t.trust)
  {
    BlockRecorded(n.d, id, n.t.trust, blocked);
    hide Recorded, DropDial;
  }

  lemma HandleRecorded(me: Identity, w: World, e: Event, a: Ambient)
    requires Injective(me) && Consistent(me, w) && Possible(me, w, e)
    ensures var n := Handle(me, w.n, e, a); Recorded(n.d, n.t.trust)
  {
    hide Recorded, OnEstablished, OnControl, OnClosed, Confirm, Disconnect, Forget, SetBlocked, StartRoute;
    var n := w.n;
    if AboutDials(e) {
      hide Handle;
      DialsOnly(me, n, e, a);
      DialEventRecorded(me, w, e, a);
    } else if AboutRoutes(e) {
      hide Handle;
      RoutesOnly(me, n, e, a);
    } else {
      hide Consistent, Possible;
      match e
      case ConfirmEv(id, accept) => ConfirmRecorded(me, n, id, accept, a);
      case DisconnectEv(id) => CommandRecorded(n, id);
      case ForgetEv(id) => CommandRecorded(n, id);
      case SetBlockedEv(id, blocked) => SetBlockedRecorded(n, id, blocked);
      case EstablishedEv(est) => EstablishedRecorded(me, w, est, a);
      case ControlEv(conn, msg) => ControlRecorded(me, n, conn, msg, a);
      case ClosedEv(conn, reason) => ClosedRecorded(n, conn, reason, a.policy.now);
      case StartRouteEv(peer, kind, replace) => StartsOnly(n, peer, kind, replace, a.policy);
      case _ =>
    }
  }

  lemma BlockRecorded(d: Dials, id: DeviceId, trust: map<DeviceId, Trusted>, blocked: bool)
    requires Recorded(d, trust)
    ensures blocked ==> Recorded(DropDial(d, id), Block(trust, id, blocked))
    ensures !blocked ==> Recorded(d, Block(trust, id, blocked))
  {
    CancelRecorded(d, id, trust, Block(trust, id, blocked));
    if !blocked { TrustRecorded(d, trust, Block(trust, id, blocked)); }
  }

  // ---------------------------------------------------------------- connections in use

  lemma UnlinkUsed(t: Tables, id: DeviceId, ended: set<ConnId>)
    requires UsedEnded(t, ended)
    ensures UsedEnded(Unlink(t, id), ended)
  {
  }

  lemma PromoteUsed(me: Identity, n: State, id: DeviceId, est: Est, a: Ambient, ended: set<ConnId>)
    requires UsedEnded(n.t, ended) && est.conn in ended
    ensures UsedEnded(Promote(me, n, id, est, a).t, ended)
  {
    var t := Unlink(n.t, id);
    UnlinkUsed(n.t, id, ended);
    assert t.connIndex[est.conn := id].Keys == t.connIndex.Keys + {est.conn};
  }

  lemma CompleteUsed(me: Identity, n: State, id: DeviceId, a: Ambient, ended: set<ConnId>)
    requires UsedEnded(n.t, ended)
    ensures UsedEnded(Complete(me, n, id, a).t, ended)
  {
    if id in n.t.pairings { PromoteUsed(me, n.(t := Enroll(n.t, id)), id, n.t.pairings[id].est, a, ended); }
  }

  lemma MarkUsed(t: Tables, id: DeviceId, mine: bool, theirs: bool, ended: set<ConnId>)
    requires UsedEnded(t, ended) && id in t.pairings
    ensures UsedEnded(Mark(t, id, mine, theirs), ended)
  {
  }

  lemma BeginPairingUsed(n: State, id: DeviceId, est: Est, qr: bool, a: Ambient, ended: set<ConnId>)
    requires UsedEnded(n.t, ended) && est.conn in ended
    ensures UsedEnded(BeginPairing(n, id, est, qr, a).t, ended)
  {
  }

  lemma AcceptProofUsed(me: Identity, n: State, est: Est, a: Ambient, ended: set<ConnId>)
    requires UsedEnded(n.t, ended) && est.conn in ended
    ensures UsedEnded(AcceptProof(me, n, est, a).t, ended)
  {
    var id := me.idOf(est.key);
    BeginPairingUsed(n.(qr := None), id, est, false, a, ended);
    var n1 := BeginPairing(n.(qr := None), id, est, false, a);
    if id in n1.t.pairings { MarkUsed(n1.t, id, true, true, ended); }
    CompleteUsed(me, if id in n1.t.pairings then n1.(t := Mark(n1.t, id, true, true)) else n1, id, a, ended);
  }

  lemma ControlUsed(me: Identity, n: State, conn: ConnId, msg: Msg, a: Ambient, ended: set<ConnId>)
    requires Agree(me, n.t) && UsedEnded(n.t, ended)
    ensures UsedEnded(OnControl(me, n, conn, msg, a).t, ended)
  {
    if conn in n.t.unpaired {
      var n1, est := n.(t := n.t.(unpaired := n.t.unpaired - {conn})), n.t.unpaired[conn];
      assert AllIn(n1.t.unpaired.Keys, ended) && est.conn in ended;
      BeginPairingUsed(n1, me.idOf(est.key), est, false, a, ended);
      AcceptProofUsed(me, n1, est, a, ended);
    } else if PairingOn(n.t, conn).Some? && msg.PairResult? {
      var id := PairingOn(n.t, conn).value;
      var mine := n.t.pairings[id].localConfirmed;
      MarkUsed(n.t, id, mine, true, ended);
      CompleteUsed(me, n.(t := Mark(n.t, id, mine, true)), id, a, ended);
    }
  }

  lemma EstablishedUsed(me: Identity, n: State, est: Est, a: Ambient, ended: set<ConnId>)
    requires UsedEnded(n.t, ended) && est.conn in ended
    ensures UsedEnded(OnEstablished(me, n, est, a).t, ended)
  {
    var n1 := n.(d := EndDial(n.d, est.conn));
    PromoteUsed(me, n1, me.idOf(est.key), est, a, ended);
    if est.conn in n.d.pairing { BeginPairingUsed(n1, me.idOf(est.key), est, n.d.pairing[est.conn], a, ended); }
    assert n.t.unpaired[est.conn := est].Keys == n.t.unpaired.Keys + {est.conn};
  }

  lemma OnlyTrustChanges(n: State, id: DeviceId, reason: Reason, now: nat, ended: set<ConnId>)
    requires UsedEnded(n.t, ended)
    ensures UsedEnded(SessionEnded(n, id, reason, now).t, ended)
  {
  }

  lemma DropIndexUsed(t: Tables, conn: ConnId, ended: set<ConnId>)
    requires UsedEnded(t, ended)
    ensures UsedEnded(t.(connIndex := t.connIndex - {conn}), ended)
  {
  }

  lemma ClosedUsed(n: State, conn: ConnId, reason: Reason, now: nat, ended: set<ConnId>)
    requires UsedEnded(n.t, ended)
    ensures UsedEnded(OnClosed(n, conn, reason, now).t, ended)
  {
    var t := DropWaiting(n.t, conn);
    assert UsedEnded(t, ended);
    hide UsedEnded, DropWaiting, Unlink;
    if conn in t.connIndex {
      UnlinkUsed(t, t.connIndex[conn], ended);
      OnlyTrustChanges(n.(t := Unlink(t, t.connIndex[conn])), t.connIndex[conn], reason, now, ended);
      DropIndexUsed(t, conn, ended);
    }
  }

  lemma ConfirmUsed(me: Identity, n: State, id: DeviceId, accept: bool, a: Ambient, ended: set<ConnId>)
    requires UsedEnded(n.t, ended)
    ensures UsedEnded(Confirm(me, n, id, accept, a).t, ended)
  {
    if id in n.t.pairings {
      MarkUsed(n.t, id, true, n.t.pairings[id].peerConfirmed, ended);
      CompleteUsed(me, n.(t := Mark(n.t, id, true, n.t.pairings[id].peerConfirmed)), id, a, ended);
    }
  }

  lemma CommandUsed(n: State, id: DeviceId, blocked: bool, ended: set<ConnId>)
    requires UsedEnded(n.t, ended)
    ensures UsedEnded(Disconnect(n, id).t, ended) && UsedEnded(Forget(n, id).t, ended) && UsedEnded(SetBlocked(n, id, blocked).t, ended)
  {
    UnlinkUsed(n.t, id, ended);
    hide SetAuto, Block, DropDial, Without, CloseOf;
  }

  lemma DropsUsed(n: State, conn: ConnId, id: DeviceId, reason: Reason, ended: set<ConnId>)
    requires UsedEnded(n.t, ended)
    ensures UsedEnded(DropUnpaired(n, conn).t, ended) && UsedEnded(EndPairing(n, id, reason).t, ended)
  {
  }

  lemma HandleUsed(me: Identity, n: State, e: Event, a: Ambient, ended: set<ConnId>)
    requires Agree(me, n.t) && UsedEnded(n.t, ended) && EndedBy(e) <= ended
    ensures UsedEnded(Handle(me, n, e, a).t, ended)
  {
    hide Agree, UsedEnded, Confirm, Disconnect, Forget, SetBlocked, OnEstablished, OnControl, OnClosed, EndPairing, DropUnpaired, StartRoute;
    if AboutDials(e) {
      hide Handle;
      DialsOnly(me, n, e, a);
    } else if AboutRoutes(e) {
      hide Handle;
      RoutesOnly(me, n, e, a);
    } else {
      match e
      case ConfirmEv(id, accept) => ConfirmUsed(me, n, id, accept, a, ended);
      case EstablishedEv(est) => EstablishedUsed(me, n, est, a, ended);
      case ControlEv(conn, msg) => ControlUsed(me, n, conn, msg, a, ended);
      case ClosedEv(conn, reason) => ClosedUsed(n, conn, reason, a.policy.now, ended);
      case DisconnectEv(id) => CommandUsed(n, id, false, ended);
      case ForgetEv(id) => CommandUsed(n, id, false, ended);
      case SetBlockedEv(id, blocked) => CommandUsed(n, id, blocked, ended);
      case DropUnpairedEv(conn) => DropsUsed(n, conn, 0, Timeout, ended);
      case DropPairingEv(id) => DropsUsed(n, 0, id, Timeout, ended);
      case StartRouteEv(peer, kind, replace) => StartUsed(n, peer, kind, replace, a.policy, ended);
      case _ =>
    }
  }

  lemma StartUsed(n: State, peer: DeviceId, kind: Kind, replace: bool, policy: Policy, ended: set<ConnId>)
    requires UsedEnded(n.t, ended)
    ensures UsedEnded(StartRoute(n, peer, kind, replace, policy).t, ended)
  {
    StartsOnly(n, peer, kind, replace, policy);
    hide StartRoute;
  }

  // ---------------------------------------------------------------- routes stay running

  lemma PromoteRun(me: Identity, n: State, id: DeviceId, est: Est, a: Ambient)
    requires NoneStopped(n.routes)
    ensures NoneStopped(Promote(me, n, id, est, a).routes)
  {
    RoutesRun(n.routes, id, a.policy.now);
    ResumeRuns(if id in n.t.sessions then Pause(n.routes, id, a.policy.now) else n.routes, FirstRouteId(est), id, a.policy);
  }

  lemma CompleteRun(me: Identity, n: State, id: DeviceId, a: Ambient)
    requires NoneStopped(n.routes)
    ensures NoneStopped(Complete(me, n, id, a).routes)
  {
    if id in n.t.pairings { PromoteRun(me, n.(t := Enroll(n.t, id)), id, n.t.pairings[id].est, a); }
  }

  lemma ConfirmRun(me: Identity, n: State, id: DeviceId, accept: bool, a: Ambient)
    requires NoneStopped(n.routes)
    ensures NoneStopped(Confirm(me, n, id, accept, a).routes)
  {
    hide NoneStopped, Complete;
    if id in n.t.pairings { CompleteRun(me, n.(t := Mark(n.t, id, true, n.t.pairings[id].peerConfirmed)), id, a); }
  }

  lemma EstablishedRun(me: Identity, n: State, est: Est, a: Ambient)
    requires NoneStopped(n.routes)
    ensures NoneStopped(OnEstablished(me, n, est, a).routes)
  {
    hide NoneStopped, Promote;
    PromoteRun(me, n.(d := EndDial(n.d, est.conn)), me.idOf(est.key), est, a);
  }

  lemma ClosedRun(n: State, conn: ConnId, reason: Reason, now: nat)
    requires NoneStopped(n.routes)
    ensures NoneStopped(OnClosed(n, conn, reason, now).routes)
  {
    hide NoneStopped, Pause, Without, DropWaiting, Unlink;
    if conn in DropWaiting(n.t, conn).connIndex { RoutesRun(n.routes, DropWaiting(n.t, conn).connIndex[conn], now); }
  }

  lemma RouteEventRun(me: Identity, n: State, e: Event, a: Ambient)
    requires NoneStopped(n.routes) && AboutRoutes(e)
    ensures NoneStopped(Handle(me, n, e, a).routes)
  {
    hide NoneStopped, StopKey, AcceptRoute, Activate, SetKeep, Sweep;
    match e
    case StopRouteEv(peer, route) => StopRuns(n.routes, peer, route);
    case AcceptRouteEv(peer, route, kind, opens, ready) => AcceptRuns(n.routes, peer, route, kind, opens, ready, a.policy.now);
    case ReadyEv(peer, route) => ActivateRuns(n.routes, peer, route);
    case KeepEv(peer, route, keep) => SetKeepRuns(n.routes, peer, route, keep);
    case SweepEv => SweepRuns(n.routes, a.policy.now);
  }

  lemma StartRouteRun(n: State, peer: DeviceId, kind: Kind, replace: bool, policy: Policy)
    requires NoneStopped(n.routes)
    ensures NoneStopped(StartRoute(n, peer, kind, replace, policy).routes)
  {
    hide NoneStopped, StartAs;
    StartRuns(n.routes, if peer in n.t.sessions then Some(n.t.sessions[peer].nextRoute) else None, peer, kind, replace, policy);
  }

  lemma HandleRun(me: Identity, n: State, e: Event, a: Ambient)
    requires NoneStopped(n.routes)
    ensures NoneStopped(Handle(me, n, e, a).routes)
  {
    hide NoneStopped, Without, Confirm, OnEstablished, OnControl, OnClosed, StartRoute;
    if AboutDials(e) {
      hide Handle;
      DialsOnly(me, n, e, a);
    } else if AboutRoutes(e) {
      hide Handle;
      RouteEventRun(me, n, e, a);
    } else {
      match e
      case ConfirmEv(id, accept) => ConfirmRun(me, n, id, accept, a);
      case DisconnectEv(id) => RoutesRun(n.routes, id, 0);
      case ForgetEv(id) => RoutesRun(n.routes, id, 0);
      case SetBlockedEv(id, _) => RoutesRun(n.routes, id, 0);
      case EstablishedEv(est) => EstablishedRun(me, n, est, a);
      case ControlEv(conn, msg) => ControlRun(me, n, conn, msg, a);
      case ClosedEv(conn, reason) => ClosedRun(n, conn, reason, a.policy.now);
      case StartRouteEv(peer, kind, replace) => StartRouteRun(n, peer, kind, replace, a.policy);
      case _ =>
    }
  }

  lemma ControlRun(me: Identity, n: State, conn: ConnId, msg: Msg, a: Ambient)
    requires NoneStopped(n.routes)
    ensures NoneStopped(OnControl(me, n, conn, msg, a).routes)
  {
    hide NoneStopped, OnRouteMsg, Promote;
    if conn in n.t.unpaired {
      var n1, est := n.(t := n.t.(unpaired := n.t.unpaired - {conn})), n.t.unpaired[conn];
      var id := me.idOf(est.key);
      var n2 := BeginPairing(n1.(qr := None), id, est, false, a);
      CompleteRun(me, if id in n2.t.pairings then n2.(t := Mark(n2.t, id, true, true)) else n2, id, a);
    } else if PairingOn(n.t, conn).Some? {
      var id := PairingOn(n.t, conn).value;
      CompleteRun(me, n.(t := Mark(n.t, id, n.t.pairings[id].localConfirmed, true)), id, a);
    } else if conn in n.t.connIndex {
      RouteMsgRun(n.routes, n.t.connIndex[conn], msg, a.policy.now);
    }
  }

  lemma RouteMsgRun(routes: seq<Route>, peer: DeviceId, msg: Msg, now: nat)
    requires NoneStopped(routes)
    ensures NoneStopped(OnRouteMsg(routes, peer, msg, now))
  {
    match msg
    case RouteAccept(route, opens, ready) => AcceptedRuns(routes, peer, route, opens, ready, now);
    case RouteStop(route) => StopRuns(routes, peer, route);
    case _ =>
  }

  // ---------------------------------------------------------------- whole runs

  lemma UnusedYet(me: Identity, w: World, est: Est)
    requires Consistent(me, w) && est.conn !in w.ended
    ensures Unused(w.n.t, est.conn)
  {
  }

  lemma NextConsistent(me: Identity, w: World, e: Event, a: Ambient)
    requires Injective(me) && Consistent(me, w) && Possible(me, w, e)
    ensures Consistent(me, Next(me, w, e, a))
  {
    hide Handle;
    if e.EstablishedEv? { UnusedYet(me, w, e.est); }
    HandleAgree(me, w.n, e, a);
    HandleRecorded(me, w, e, a);
    NextTracked(me, w, e, a);
    HandleUsed(me, w.n, e, a, w.ended + EndedBy(e));
    HandleRun(me, w.n, e, a);
  }

  lemma PossiblePrefix(me: Identity, w: World, ins: seq<Input>)
    requires ins != [] && PossibleRun(me, w, ins)
    ensures PossibleRun(me, w, ins[..|ins| - 1])
    ensures Possible(me, Run(me, w, ins[..|ins| - 1]), ins[|ins| - 1].e)
  {
    var front := ins[..|ins| - 1];
    forall i | 0 <= i < |front| ensures Possible(me, Run(me, w, front[..i]), front[i].e) {
      assert front[..i] == ins[..i];
    }
  }

  /** In every reachable state the connection index is the inverse of the sessions, a connection is in
      one place at most, every session is trusted, unblocked and uses the stored key, and every dial
      in flight is recorded and has not ended. */
  lemma {:induction false} AlwaysConsistent(me: Identity, trust: map<DeviceId, Trusted>, nextConn: ConnId, ins: seq<Input>)
    requires Injective(me) && FiledTrust(me, trust) && PossibleRun(me, InitWorld(trust, nextConn), ins)
    ensures Consistent(me, Run(me, InitWorld(trust, nextConn), ins))
  {
    if ins != [] {
      hide Consistent, Possible, Next, PossibleRun;
      PossiblePrefix(me, InitWorld(trust, nextConn), ins);
      AlwaysConsistent(me, trust, nextConn, ins[..|ins| - 1]);
      NextConsistent(me, Run(me, InitWorld(trust, nextConn), ins[..|ins| - 1]), ins[|ins| - 1].e, ins[|ins| - 1].a);
    }
  }
}
