/** Which route ids this device gives out in a session (sp-engine/src/actor.rs). */
module RouteIds {
  import opened Common
  import opened Routes
  import opened Node
  import opened NodeTheorems

  /** The next id of every session is even where this device dialed and odd where it was dialed, and never 0; so
      the two ends of a connection never give out the same. */
  ghost predicate OwnSide(sessions: map<DeviceId, Session>) {
    forall id :: id in sessions ==> SideOf(sessions[id].est.dialed, sessions[id].nextRoute)
  }

  ghost predicate SideOf(dialed: bool, id: byte) { id != 0 && id % 2 == if dialed then 0 else 1 }

  lemma NextSide(dialed: bool, id: byte)
    requires SideOf(dialed, id)
    ensures SideOf(dialed, NextId(id)) && NextId(id) != id
  {
  }

  lemma {:induction false} ResumeKindsSide(w: Work, peer: DeviceId, kinds: seq<Kind>, policy: Policy, dialed: bool)
    requires SideOf(dialed, w.nextId)
    ensures SideOf(dialed, ResumeKinds(w, peer, kinds, policy).nextId)
  {
    if kinds != [] {
      hide SideOf, NextId;
      var v := ResumeKinds(w, peer, kinds[..|kinds| - 1], policy);
      ResumeKindsSide(w, peer, kinds[..|kinds| - 1], policy, dialed);
      NextSide(dialed, v.nextId);
    }
  }

  lemma PromoteSide(me: Identity, n: State, id: DeviceId, est: Est, a: Ambient)
    requires OwnSide(n.t.sessions)
    ensures OwnSide(Promote(me, n, id, est, a).t.sessions)
  {
    hide ResumeKinds, Pause;
    var first := FirstRouteId(est);
    assert SideOf(est.dialed, first);
    var routes := if id in n.t.sessions then Pause(n.routes, id, a.policy.now) else n.routes;
    ResumeKindsSide(Work(Rest(routes, id), first, Taken(routes, id)), id,
                    AddSaved(KindsOf(Taken(routes, id)), a.policy.saved, id, a.policy.resumeAll), a.policy, est.dialed);
    hide SideOf, Resume;
  }

  lemma CompleteSide(me: Identity, n: State, id: DeviceId, a: Ambient)
    requires OwnSide(n.t.sessions)
    ensures OwnSide(Complete(me, n, id, a).t.sessions)
  {
    hide OwnSide, Promote;
    if id in n.t.pairings && a.saved { PromoteSide(me, n.(t := Enroll(n.t, id)), id, n.t.pairings[id].est, a); }
  }

  lemma ControlSide(me: Identity, n: State, conn: ConnId, msg: Msg, a: Ambient)
    requires OwnSide(n.t.sessions)
    ensures OwnSide(OnControl(me, n, conn, msg, a).t.sessions)
  {
    hide OwnSide, Complete;
    if conn in n.t.unpaired {
      if msg.PairRequest? { RequestSide(me, n.(t := n.t.(unpaired := n.t.unpaired - {conn})), n.t.unpaired[conn], msg.proof, a); }
    } else if PairingOn(n.t, conn).Some? && msg.PairResult? {
      var id := PairingOn(n.t, conn).value;
      CompleteSide(me, n.(t := Mark(n.t, id, n.t.pairings[id].localConfirmed, true)), id, a);
    }
  }

  lemma RequestSide(me: Identity, n: State, est: Est, proof: Option<Proof>, a: Ambient)
    requires OwnSide(n.t.sessions)
    ensures OwnSide(OnPairRequest(me, n, est, proof, a).t.sessions)
  {
    hide OwnSide, Complete;
    var id := me.idOf(est.key);
    var n1 := BeginPairing(n.(qr := None), id, est, false, a);
    CompleteSide(me, if id in n1.t.pairings then n1.(t := Mark(n1.t, id, true, true)) else n1, id, a);
  }

  lemma ConfirmSide(me: Identity, n: State, id: DeviceId, accept: bool, a: Ambient)
    requires OwnSide(n.t.sessions)
    ensures OwnSide(Confirm(me, n, id, accept, a).t.sessions)
  {
    hide OwnSide, Complete;
    if id in n.t.pairings { CompleteSide(me, n.(t := Mark(n.t, id, true, n.t.pairings[id].peerConfirmed)), id, a); }
  }

  lemma UnlinkSide(t: Tables, id: DeviceId)
    requires OwnSide(t.sessions)
    ensures OwnSide(Unlink(t, id).sessions)
  {
  }

  lemma ClosedSide(n: State, conn: ConnId, reason: Reason, now: nat)
    requires OwnSide(n.t.sessions)
    ensures OwnSide(OnClosed(n, conn, reason, now).t.sessions)
  {
    hide OwnSide, Pause, Without, Unlink;
    if conn in n.t.connIndex { UnlinkSide(DropWaiting(n.t, conn), n.t.connIndex[conn]); }
  }

  lemma CommandSide(n: State, id: DeviceId, blocked: bool)
    requires OwnSide(n.t.sessions)
    ensures OwnSide(Disconnect(n, id).t.sessions) && OwnSide(Forget(n, id).t.sessions) && OwnSide(SetBlocked(n, id, blocked).t.sessions)
  {
    hide OwnSide, Without, Unlink;
    UnlinkSide(n.t, id);
    UnlinkSide(n.t.(trust := Block(n.t.trust, id, blocked)), id);
  }

  lemma StartSide(n: State, peer: DeviceId, kind: Kind, replace: bool, policy: Policy)
    requires OwnSide(n.t.sessions)
    ensures OwnSide(StartRoute(n, peer, kind, replace, policy).t.sessions)
  {
    hide NextId, StopKey, Feed;
    if peer in n.t.sessions { NextSide(n.t.sessions[peer].est.dialed, n.t.sessions[peer].nextRoute); }
    hide SideOf;
  }

  lemma HandleSide(me: Identity, n: State, e: Event, a: Ambient)
    requires OwnSide(n.t.sessions)
    ensures OwnSide(Handle(me, n, e, a).t.sessions)
  {
    hide OwnSide, Promote, Confirm, OnControl, OnClosed, Disconnect, Forget, SetBlocked, StartRoute;
    if AboutDials(e) {
      hide Handle;
      DialsOnly(me, n, e, a);
      return;
    }
    if AboutRoutes(e) {
      hide Handle;
      RoutesOnly(me, n, e, a);
      return;
    }
    match e
    case EstablishedEv(est) => PromoteSide(me, n.(d := EndDial(n.d, est.conn)), me.idOf(est.key), est, a);
    case ConfirmEv(id, accept) => ConfirmSide(me, n, id, accept, a);
    case ControlEv(conn, msg) => ControlSide(me, n, conn, msg, a);
    case ClosedEv(conn, reason) => ClosedSide(n, conn, reason, a.policy.now);
    case DisconnectEv(id) => CommandSide(n, id, true);
    case ForgetEv(id) => CommandSide(n, id, true);
    case SetBlockedEv(id, blocked) => CommandSide(n, id, blocked);
    case StartRouteEv(peer, kind, replace) => StartSide(n, peer, kind, replace, a.policy);
    case _ =>
  }

  /** In every run of a device that starts without sessions. */
  lemma {:induction false} AlwaysOwnSide(me: Identity, w: World, ins: seq<Input>)
    requires w.n.t.sessions == map[]
    ensures OwnSide(Run(me, w, ins).n.t.sessions)
  {
    if ins != [] {
      hide OwnSide, Handle;
      var front, i := ins[..|ins| - 1], ins[|ins| - 1];
      AlwaysOwnSide(me, w, front);
      HandleSide(me, Run(me, w, front).n, i.e, i.a);
    }
  }

  /** The next id is used for the next request, which leaves the other end's ids alone. */
  lemma RequestsOwnId(n: State, peer: DeviceId, kind: Kind, replace: bool, policy: Policy)
    requires OwnSide(n.t.sessions) && peer in n.t.sessions
    ensures var after := StartRoute(n, peer, kind, replace, policy);
            var id, next := n.t.sessions[peer].nextRoute, after.t.sessions[peer].nextRoute;
            || (next == id && after.routes == n.routes)
            || (next != id && SideOf(n.t.sessions[peer].est.dialed, id) && after.routes != []
                && after.routes[|after.routes| - 1] ==
                   Route(peer, id, kind, Requesting, true, false, None, Some(policy.now + 35_000)))
  {
    hide NextId, StopKey, Feed;
    NextSide(n.t.sessions[peer].est.dialed, n.t.sessions[peer].nextRoute);
    hide SideOf;
  }
}
