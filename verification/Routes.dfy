/** Audio routes across a dropped connection (sp-engine/src/actor.rs: pausing, starting, resuming). */
module Routes {
  import opened Common

  type DeviceId = nat

  datatype Kind =
    | SendSystemAudio | SendAppAudio | SendMixed | SendMicToVirtualMic | SendMicToSpeaker
    | ReceiveSystemAudio | ReceiveAppAudio | ReceiveMixed | ReceiveMicToVirtualMic | ReceiveMicToSpeaker

  datatype Status = Requesting | WaitingForApproval | Starting | Active | Paused | Stopped

  /** Instants are milliseconds; `deadline` is when a start is given up. */
  datatype Route = Route(
    peer: DeviceId, id: byte, kind: Kind, status: Status, local: bool, keep: bool,
    pausedAt: Option<nat>, deadline: Option<nat>)

  datatype SavedRoute = SavedRoute(peer: DeviceId, kind: Kind, keep: bool)

  /** What the rest of the engine answers: may this kind start now (capabilities and receiver limit),
      which routes are saved to run again, and what time it is. */
  datatype Policy = Policy(capable: (seq<Route>, Kind) -> bool, saved: seq<SavedRoute>, resumeAll: bool, now: nat)

  const REQUEST_DEADLINE_MS: nat := 35_000
  const START_DEADLINE_MS: nat := 20_000
  const PAUSE_LIMIT_MS: nat := 120_000

  // ---------------------------------------------------------------- route ids

  /** The next id of this side of a session: same parity, wrapping past 0 and 1. */
  function NextId(id: byte): byte {
    var n := if id + 2 > 255 then id + 2 - 256 else id + 2;
    if n < 2 then n + 2 else n
  }

  ghost function IdAfter(first: byte, n: nat): byte {
    if n == 0 then first else NextId(IdAfter(first, n - 1))
  }

  lemma {:induction false} IdParity(first: byte, n: nat)
    requires first == 1 || first == 2
    ensures IdAfter(first, n) % 2 == first % 2 && IdAfter(first, n) != 0
  {
    if n > 0 { IdParity(first, n - 1); }
  }

  /** The dialing side (from 2) and the accepting side (from 1) never allocate the same route id. */
  lemma IdsNeverCollide(m: nat, n: nat)
    ensures IdAfter(2, m) != IdAfter(1, n)
  {
    IdParity(2, m);
    IdParity(1, n);
  }

  // ---------------------------------------------------------------- pausing

  /** What a drop does to one route: pause it, or stop it if the peer asked and it was not running. */
  function PauseOne(r: Route, peer: DeviceId, now: nat): Route {
    if r.peer != peer || r.status == Paused then r
    else if r.status == Active || r.local then r.(status := Paused, pausedAt := Some(now))
    else r.(status := Stopped)
  }

  function PauseAll(routes: seq<Route>, peer: DeviceId, now: nat): (r: seq<Route>)
    ensures |r| == |routes|
  {
    seq(|routes|, i requires 0 <= i < |routes| => PauseOne(routes[i], peer, now))
  }

  function Live(routes: seq<Route>): seq<Route> {
    if routes == [] then [] else
    var n := |routes| - 1;
    Live(routes[..n]) + if routes[n].status != Stopped then [routes[n]] else []
  }

  function Pause(routes: seq<Route>, peer: DeviceId, now: nat): seq<Route> { Live(PauseAll(routes, peer, now)) }

  function Without(routes: seq<Route>, peer: DeviceId): seq<Route> {
    if routes == [] then [] else
    var n := |routes| - 1;
    Without(routes[..n], peer) + if routes[n].peer != peer then [routes[n]] else []
  }

  // ---------------------------------------------------------------- starting

  predicate Has(routes: seq<Route>, peer: DeviceId, kind: Kind) {
    exists i :: 0 <= i < |routes| && routes[i].peer == peer && routes[i].kind == kind
  }

  predicate HasRunning(routes: seq<Route>, peer: DeviceId, kind: Kind) {
    exists i :: 0 <= i < |routes| && routes[i].peer == peer && routes[i].kind == kind && routes[i].status != Stopped
  }

  predicate MicFed(routes: seq<Route>, except: DeviceId) {
    exists i :: 0 <= i < |routes| && routes[i].kind == ReceiveMicToVirtualMic && routes[i].status != Stopped
             && routes[i].peer != except
  }

  predicate Startable(routes: seq<Route>, peer: DeviceId, kind: Kind, policy: Policy) {
    && !HasRunning(routes, peer, kind)
    && policy.capable(routes, kind)
    && !(kind == ReceiveMicToVirtualMic && MicFed(routes, peer))
  }

  function Requested(peer: DeviceId, id: byte, kind: Kind, now: nat): Route {
    Route(peer, id, kind, Requesting, true, false, None, Some(now + REQUEST_DEADLINE_MS))
  }

  /** Ask the connected peer for a route, without taking the virtual microphone from another. */
  function Start(routes: seq<Route>, nextId: byte, peer: DeviceId, kind: Kind, policy: Policy): (seq<Route>, byte) {
    if Startable(routes, peer, kind, policy)
    then (routes + [Requested(peer, nextId, kind, policy.now)], NextId(nextId))
    else (routes, nextId)
  }

  /** The route that feeds the virtual microphone now, ignoring those of one device. */
  function Feed(routes: seq<Route>, except: DeviceId): Option<(DeviceId, byte)> {
    if routes == [] then None else
    var r := routes[|routes| - 1];
    var front := Feed(routes[..|routes| - 1], except);
    if front.Some? then front
    else if r.kind == ReceiveMicToVirtualMic && r.status != Stopped && r.peer != except then Some((r.peer, r.id)) else None
  }

  /** The user starts a route, perhaps replacing the microphone feed of another device; `session` is the
      next route id of the session with the peer, if there is one. */
  function StartAs(routes: seq<Route>, session: Option<byte>, peer: DeviceId, kind: Kind, replace: bool, policy: Policy): (seq<Route>, Option<byte>) {
    if HasRunning(routes, peer, kind) || !policy.capable(routes, kind) then (routes, session) else
    var feed := if kind == ReceiveMicToVirtualMic then Feed(routes, peer) else None;
    if feed.Some? && !replace then (routes, session) else
    var left := if feed.Some? then StopKey(routes, feed.value.0, feed.value.1) else routes;
    if session.None? then (left, None)
    else (left + [Requested(peer, session.value, kind, policy.now)], Some(NextId(session.value)))
  }

  // ---------------------------------------------------------------- the life of a route

  predicate KeyIs(r: Route, peer: DeviceId, id: byte) { r.peer == peer && r.id == id }

  predicate HasKey(routes: seq<Route>, peer: DeviceId, id: byte) {
    exists i :: 0 <= i < |routes| && KeyIs(routes[i], peer, id)
  }

  /** The first route with this key goes. */
  function StopKey(routes: seq<Route>, peer: DeviceId, id: byte): seq<Route> {
    if routes == [] then [] else
    var front, last := routes[..|routes| - 1], routes[|routes| - 1];
    if HasKey(front, peer, id) then StopKey(front, peer, id) + [last]
    else if KeyIs(last, peer, id) then front
    else routes
  }

  /** Its start is overdue, or it has been paused too long. */
  predicate Due(r: Route, now: nat) {
    || (r.deadline.Some? && now > r.deadline.value)
    || (r.status == Paused && !r.keep && r.pausedAt.Some? && now > r.pausedAt.value + PAUSE_LIMIT_MS)
  }

  function DueKeys(routes: seq<Route>, now: nat): seq<(DeviceId, byte)> {
    if routes == [] then [] else
    var r := routes[|routes| - 1];
    DueKeys(routes[..|routes| - 1], now) + if Due(r, now) then [(r.peer, r.id)] else []
  }

  function StopKeys(routes: seq<Route>, keys: seq<(DeviceId, byte)>): seq<Route> {
    if keys == [] then routes else
    var k := keys[|keys| - 1];
    StopKey(StopKeys(routes, keys[..|keys| - 1]), k.0, k.1)
  }

  /** The periodic tick stops what is due, key by key. */
  function Sweep(routes: seq<Route>, now: nat): seq<Route> { StopKeys(routes, DueKeys(routes, now)) }

  /** The pipeline of the first route with this key is ready. */
  function Activate(routes: seq<Route>, peer: DeviceId, id: byte): seq<Route> {
    if routes == [] then [] else
    var front, last := routes[..|routes| - 1], routes[|routes| - 1];
    if HasKey(front, peer, id) then Activate(front, peer, id) + [last]
    else if KeyIs(last, peer, id) && last.status == Starting then front + [last.(status := Active, deadline := None)]
    else routes
  }

  function SetKeep(routes: seq<Route>, peer: DeviceId, id: byte, keep: bool): seq<Route> {
    if routes == [] then [] else
    var front, last := routes[..|routes| - 1], routes[|routes| - 1];
    if HasKey(front, peer, id) then SetKeep(front, peer, id, keep) + [last]
    else if KeyIs(last, peer, id) then front + [last.(keep := keep)]
    else routes
  }

  /** The first route with this key that waits for an answer, and the others. */
  function TakeRequested(routes: seq<Route>, peer: DeviceId, id: byte): (Option<Route>, seq<Route>) {
    if routes == [] then (None, []) else
    var front, last := routes[..|routes| - 1], routes[|routes| - 1];
    var (found, rest) := TakeRequested(front, peer, id);
    if found.Some? then (found, rest + [last])
    else if KeyIs(last, peer, id) && last.status == Requesting then (Some(last), front)
    else (None, routes)
  }

  /** The peer accepted a request; `opens` if the pipeline could be begun, `ready` if it runs at once. */
  function RouteAccepted(routes: seq<Route>, peer: DeviceId, id: byte, opens: bool, ready: bool, now: nat): seq<Route> {
    var (found, rest) := TakeRequested(routes, peer, id);
    if found.None? then routes
    else if !opens then rest
    else
      var begun := rest + [found.value.(status := Starting, deadline := Some(now + START_DEADLINE_MS))];
      if ready then Activate(begun, peer, id) else begun
  }

  /** A paused entry that a route the peer asks for replaces. */
  predicate Replaced(r: Route, peer: DeviceId, id: byte, kind: Kind) {
    r.peer == peer && r.status == Paused && (r.kind == kind || r.id == id)
  }

  function DropPaused(routes: seq<Route>, peer: DeviceId, id: byte, kind: Kind): seq<Route> {
    if routes == [] then [] else
    var r := routes[|routes| - 1];
    DropPaused(routes[..|routes| - 1], peer, id, kind)
      + if Replaced(r, peer, id, kind) then [] else [r]
  }

  /** This device accepts a route the peer asked for. */
  function AcceptRoute(routes: seq<Route>, peer: DeviceId, id: byte, kind: Kind, opens: bool, ready: bool, now: nat): seq<Route> {
    var kept := DropPaused(routes, peer, id, kind);
    if HasKey(kept, peer, id) || !opens then kept else
    var begun := kept + [Route(peer, id, kind, Starting, false, false, None, Some(now + START_DEADLINE_MS))];
    if ready then Activate(begun, peer, id) else begun
  }

  // ---------------------------------------------------------------- resuming

  predicate Resumable(r: Route, peer: DeviceId) { r.peer == peer && r.status == Paused && r.local }

  function Taken(routes: seq<Route>, peer: DeviceId): seq<Route> {
    if routes == [] then [] else
    var n := |routes| - 1;
    Taken(routes[..n], peer) + if Resumable(routes[n], peer) then [routes[n]] else []
  }

  function Rest(routes: seq<Route>, peer: DeviceId): seq<Route> {
    if routes == [] then [] else
    var n := |routes| - 1;
    Rest(routes[..n], peer) + if Resumable(routes[n], peer) then [] else [routes[n]]
  }

  function KindsOf(routes: seq<Route>): seq<Kind> {
    if routes == [] then [] else KindsOf(routes[..|routes| - 1]) + [routes[|routes| - 1].kind]
  }

  /** Add the saved kinds for `peer` that are not listed yet. */
  function AddSaved(kinds: seq<Kind>, saved: seq<SavedRoute>, peer: DeviceId, resumeAll: bool): seq<Kind>
    decreases |saved|
  {
    if saved == [] then kinds else
    var s := saved[0];
    AddSaved(if s.peer == peer && (s.keep || resumeAll) && s.kind !in kinds then kinds + [s.kind] else kinds,
             saved[1..], peer, resumeAll)
  }

  predicate SavedKeep(saved: seq<SavedRoute>, peer: DeviceId, kind: Kind) {
    exists i :: 0 <= i < |saved| && saved[i].peer == peer && saved[i].kind == kind && saved[i].keep
  }

  /** Mark the newest route of this kind with its saved "keep running" choice. */
  function MarkKeep(routes: seq<Route>, peer: DeviceId, kind: Kind, keep: bool): (r: seq<Route>)
    ensures |r| == |routes|
  {
    if routes == [] then [] else
    var n := |routes| - 1;
    if routes[n].peer == peer && routes[n].kind == kind then routes[..n] + [routes[n].(keep := keep)]
    else MarkKeep(routes[..n], peer, kind, keep) + [routes[n]]
  }

  function TakeKind(paused: seq<Route>, kind: Kind): Option<(Route, seq<Route>)> {
    if paused == [] then None
    else if paused[0].kind == kind then Some((paused[0], paused[1..]))
    else match TakeKind(paused[1..], kind)
         case None => None
         case Some(p) => Some((p.0, [paused[0]] + p.1))
  }

  datatype Work = Work(routes: seq<Route>, nextId: byte, paused: seq<Route>)

  /** One kind of the resume loop: start it; failing that, put its paused entry back. */
  function ResumeOne(w: Work, peer: DeviceId, kind: Kind, policy: Policy): Work {
    var (routes, nextId) := Start(w.routes, w.nextId, peer, kind, policy);
    if Has(routes, peer, kind) then
      Work(MarkKeep(routes, peer, kind, SavedKeep(policy.saved, peer, kind)), nextId, w.paused)
    else match TakeKind(w.paused, kind)
      case Some(p) => Work(routes + [p.0], nextId, p.1)
      case None => Work(routes, nextId, w.paused)
  }

  function ResumeKinds(w: Work, peer: DeviceId, kinds: seq<Kind>, policy: Policy): Work {
    if kinds == [] then w
    else ResumeOne(ResumeKinds(w, peer, kinds[..|kinds| - 1], policy), peer, kinds[|kinds| - 1], policy)
  }

  function ResumeWork(routes: seq<Route>, nextId: byte, peer: DeviceId, policy: Policy): Work {
    ResumeKinds(Work(Rest(routes, peer), nextId, Taken(routes, peer)), peer,
                AddSaved(KindsOf(Taken(routes, peer)), policy.saved, peer, policy.resumeAll), policy)
  }

  function Resume(routes: seq<Route>, nextId: byte, peer: DeviceId, policy: Policy): (seq<Route>, byte) {
    var w := ResumeWork(routes, nextId, peer, policy);
    (w.routes, w.nextId)
  }

  // ---------------------------------------------------------------- what a drop keeps

  /** `peer` has a route of this kind that this device asked for. */
  ghost predicate Wanted(routes: seq<Route>, peer: DeviceId, kind: Kind) {
    exists r :: r in routes && r.peer == peer && r.kind == kind && r.local && r.status != Stopped
  }

  lemma {:induction false} LiveMembers(routes: seq<Route>, r: Route)
    ensures r in Live(routes) <==> r in routes && r.status != Stopped
  {
    if routes != [] { LiveMembers(routes[..|routes| - 1], r); }
  }

  lemma PauseMember(routes: seq<Route>, peer: DeviceId, now: nat, i: nat)
    requires i < |routes| && PauseOne(routes[i], peer, now).status != Stopped
    ensures PauseOne(routes[i], peer, now) in Pause(routes, peer, now)
  {
    assert PauseAll(routes, peer, now)[i] == PauseOne(routes[i], peer, now);
    LiveMembers(PauseAll(routes, peer, now), PauseOne(routes[i], peer, now));
  }

  lemma PauseOrigin(routes: seq<Route>, peer: DeviceId, now: nat, r: Route)
    requires r in Pause(routes, peer, now)
    ensures r.status != Stopped && exists i :: 0 <= i < |routes| && r == PauseOne(routes[i], peer, now)
  {
    LiveMembers(PauseAll(routes, peer, now), r);
    var i :| 0 <= i < |routes| && PauseAll(routes, peer, now)[i] == r;
    assert r == PauseOne(routes[i], peer, now);
  }

  /** A drop pauses every locally requested route and forgets none. */
  lemma PauseKeeps(routes: seq<Route>, peer: DeviceId, now: nat, kind: Kind)
    requires Wanted(routes, peer, kind)
    ensures exists r :: r in Pause(routes, peer, now) && Resumable(r, peer) && r.kind == kind
  {
    var r :| r in routes && r.peer == peer && r.kind == kind && r.local && r.status != Stopped;
    var i :| 0 <= i < |routes| && routes[i] == r;
    PauseMember(routes, peer, now, i);
  }

  /** After a drop everything of that peer is paused, and other peers' routes are as they were. */
  lemma PauseOnlyPeer(routes: seq<Route>, peer: DeviceId, now: nat, r: Route)
    ensures r in Pause(routes, peer, now) && r.peer == peer ==> r.status == Paused
    ensures r.peer != peer ==> (r in Pause(routes, peer, now) <==> r in routes && r.status != Stopped)
  {
    if r in Pause(routes, peer, now) { PauseOrigin(routes, peer, now, r); }
    if r.peer != peer && r in routes && r.status != Stopped {
      var i :| 0 <= i < |routes| && routes[i] == r;
      PauseMember(routes, peer, now, i);
    }
  }

  lemma {:induction false} Partition(routes: seq<Route>, peer: DeviceId, r: Route)
    ensures r in Taken(routes, peer) <==> r in routes && Resumable(r, peer)
    ensures r in Rest(routes, peer) <==> r in routes && !Resumable(r, peer)
  {
    if routes != [] { Partition(routes[..|routes| - 1], peer, r); }
  }

  lemma {:induction false} KindListed(routes: seq<Route>, kind: Kind)
    ensures kind in KindsOf(routes) <==> exists r :: r in routes && r.kind == kind
  {
    if routes != [] {
      var front, last := routes[..|routes| - 1], routes[|routes| - 1];
      KindListed(front, kind);
      if r :| r in routes && r.kind == kind { if r != last { assert r in front; } }
      if kind in KindsOf(routes) && kind != last.kind {
        var r :| r in front && r.kind == kind;
        assert r in routes;
      }
      assert last in routes;
    }
  }

  lemma {:induction false} SavedOnlyAdds(kinds: seq<Kind>, saved: seq<SavedRoute>, peer: DeviceId, resumeAll: bool)
    ensures kinds <= AddSaved(kinds, saved, peer, resumeAll)
    decreases |saved|
  {
    if saved != [] {
      var s := saved[0];
      SavedOnlyAdds(if s.peer == peer && (s.keep || resumeAll) && s.kind !in kinds then kinds + [s.kind] else kinds,
                    saved[1..], peer, resumeAll);
    }
  }

  /** Marking changes nothing but the flag. */
  lemma {:induction false} MarkKeepSame(routes: seq<Route>, peer: DeviceId, kind: Kind, keep: bool)
    ensures var m := MarkKeep(routes, peer, kind, keep);
            forall i :: 0 <= i < |routes| ==> m[i] == routes[i].(keep := m[i].keep)
  {
    if routes != [] { MarkKeepSame(routes[..|routes| - 1], peer, kind, keep); }
  }

  lemma {:induction false} TakeKindFinds(paused: seq<Route>, kind: Kind)
    ensures match TakeKind(paused, kind)
            case None => forall r :: r in paused ==> r.kind != kind
            case Some(p) =>
              && p.0 in paused && p.0.kind == kind
              && (forall r :: r in p.1 ==> r in paused)
              && (forall r :: r in paused && r.kind != kind ==> r in p.1)
  {
    if paused != [] { TakeKindFinds(paused[1..], kind); }
  }

  /** No reachable table holds a stopped route. */
  ghost predicate NoneStopped(routes: seq<Route>) { forall r :: r in routes ==> r.status != Stopped }

  /** The routes of `w` stand for those of `base`: only keep flags differ, and what was added is
      a local route of a kind that `base` did not have. */
  ghost predicate Extends(base: seq<Route>, w: Work, peer: DeviceId) {
    && |base| <= |w.routes| && NoneStopped(w.routes)
    && (forall i :: 0 <= i < |base| ==> w.routes[i] == base[i].(keep := w.routes[i].keep))
    && (forall i :: |base| <= i < |w.routes| ==> w.routes[i].peer == peer && w.routes[i].local && !Has(base, peer, w.routes[i].kind))
    && (forall r :: r in w.paused ==> Resumable(r, peer))
  }

  /** Routes that differ in the keep flag only, or were appended. */
  ghost predicate Grows(a: seq<Route>, b: seq<Route>) {
    |a| <= |b| && forall i :: 0 <= i < |a| ==> b[i] == a[i].(keep := b[i].keep)
  }

  lemma GrowsHas(a: seq<Route>, b: seq<Route>, peer: DeviceId, kind: Kind)
    requires Grows(a, b) && Has(a, peer, kind)
    ensures Has(b, peer, kind)
  {
    var i :| 0 <= i < |a| && a[i].peer == peer && a[i].kind == kind;
    assert b[i].peer == peer && b[i].kind == kind;
  }

  lemma HasIsRunning(routes: seq<Route>, peer: DeviceId, kind: Kind)
    requires NoneStopped(routes) && Has(routes, peer, kind)
    ensures HasRunning(routes, peer, kind)
  {
    var i :| 0 <= i < |routes| && routes[i].peer == peer && routes[i].kind == kind;
    assert routes[i] in routes;
  }

  lemma ResumeOneGrows(w: Work, peer: DeviceId, kind: Kind, policy: Policy)
    ensures Grows(w.routes, ResumeOne(w, peer, kind, policy).routes)
    ensures |ResumeOne(w, peer, kind, policy).routes| <= |w.routes| + 1
    ensures |ResumeOne(w, peer, kind, policy).routes| == |w.routes| + 1 ==>
              var r := ResumeOne(w, peer, kind, policy).routes[|w.routes|];
              r.kind == kind && ((r in w.paused && !Has(w.routes, peer, kind)) || (r.peer == peer && r.local && r.status == Requesting && !HasRunning(w.routes, peer, kind)))
  {
    var (routes, _) := Start(w.routes, w.nextId, peer, kind, policy);
    MarkKeepSame(routes, peer, kind, SavedKeep(policy.saved, peer, kind));
    TakeKindFinds(w.paused, kind);
    if Startable(w.routes, peer, kind, policy) { assert routes[|w.routes|].kind == kind; }
    if Has(w.routes, peer, kind) { GrowsHas(w.routes, routes, peer, kind); }
  }

  lemma ResumeOnePaused(w: Work, peer: DeviceId, kind: Kind, policy: Policy)
    ensures forall r :: r in ResumeOne(w, peer, kind, policy).paused ==> r in w.paused
  {
    hide Start, MarkKeep, Has;
    TakeKindFinds(w.paused, kind);
  }

  lemma ResumeOneExtends(base: seq<Route>, w: Work, peer: DeviceId, kind: Kind, policy: Policy)
    requires Extends(base, w, peer)
    ensures Extends(base, ResumeOne(w, peer, kind, policy), peer)
  {
    var v := ResumeOne(w, peer, kind, policy);
    ResumeOneGrows(w, peer, kind, policy);
    ResumeOnePaused(w, peer, kind, policy);
    hide ResumeOne;
    if Has(base, peer, kind) {
      GrowsHas(base, w.routes, peer, kind);
      HasIsRunning(w.routes, peer, kind);
    }
    forall r | r in v.routes ensures r.status != Stopped {
      var i :| 0 <= i < |v.routes| && v.routes[i] == r;
      if i < |w.routes| { assert w.routes[i] in w.routes; }
    }
  }

  /** The kind still has a route or a paused entry. */
  ghost predicate Represented(w: Work, peer: DeviceId, kind: Kind) {
    Has(w.routes, peer, kind) || exists r :: r in w.paused && r.kind == kind
  }

  lemma ResumeOneKeeps(w: Work, peer: DeviceId, kind: Kind, k: Kind, policy: Policy)
    requires Represented(w, peer, k) && forall r :: r in w.paused ==> Resumable(r, peer)
    ensures Represented(ResumeOne(w, peer, kind, policy), peer, k)
    ensures k == kind ==> Has(ResumeOne(w, peer, kind, policy).routes, peer, k)
  {
    var v := ResumeOne(w, peer, kind, policy);
    var (routes, _) := Start(w.routes, w.nextId, peer, kind, policy);
    ResumeOneGrows(w, peer, kind, policy);
    if Has(w.routes, peer, k) { GrowsHas(w.routes, v.routes, peer, k); }
    TakeKindFinds(w.paused, kind);
    MarkKeepSame(routes, peer, kind, SavedKeep(policy.saved, peer, kind));
    if Has(routes, peer, kind) {
      GrowsHas(routes, v.routes, peer, kind);
    } else if TakeKind(w.paused, kind).Some? {
      assert v.routes[|v.routes| - 1].peer == peer && v.routes[|v.routes| - 1].kind == kind;
    }
  }

  lemma {:induction false} ResumeKindsKeep(base: seq<Route>, w: Work, peer: DeviceId, kinds: seq<Kind>, k: Kind, policy: Policy)
    requires Extends(base, w, peer) && Represented(w, peer, k)
    ensures var v := ResumeKinds(w, peer, kinds, policy);
            && Extends(base, v, peer) && Represented(v, peer, k)
            && (k in kinds ==> Has(v.routes, peer, k))
  {
    if kinds != [] {
      var n := |kinds| - 1;
      ResumeKindsKeep(base, w, peer, kinds[..n], k, policy);
      var v := ResumeKinds(w, peer, kinds[..n], policy);
      ResumeOneExtends(base, v, peer, kinds[n], policy);
      ResumeOneKeeps(v, peer, kinds[n], k, policy);
      ResumeOneGrows(v, peer, kinds[n], policy);
      if k in kinds && k != kinds[n] {
        assert k in kinds[..n];
        GrowsHas(v.routes, ResumeOne(v, peer, kinds[n], policy).routes, peer, k);
      }
    }
  }

  lemma RestNotStopped(routes: seq<Route>, peer: DeviceId)
    requires NoneStopped(routes)
    ensures NoneStopped(Rest(routes, peer)) && forall r :: r in Taken(routes, peer) ==> Resumable(r, peer)
  {
    forall r ensures r in Rest(routes, peer) ==> r.status != Stopped
             ensures r in Taken(routes, peer) ==> Resumable(r, peer)
    {
      Partition(routes, peer, r);
    }
  }

  /** After a reconnect every paused kind this device asked for has a fresh request, an existing route
      or its paused entry, whatever fails to start; and it is still a request of this device exactly
      when no route of that kind that only the peer asked for stood in its place. */
  lemma ResumeKeeps(routes: seq<Route>, nextId: byte, peer: DeviceId, policy: Policy, r: Route)
    requires NoneStopped(routes) && r in routes && Resumable(r, peer)
    ensures var after := Resume(routes, nextId, peer, policy).0;
            && NoneStopped(after) && Has(after, peer, r.kind)
            && Grows(Rest(routes, peer), after)
            && (Wanted(after, peer, r.kind) <==> (Has(Rest(routes, peer), peer, r.kind) ==> Wanted(Rest(routes, peer), peer, r.kind)))
  {
    var base, paused := Rest(routes, peer), Taken(routes, peer);
    var w := Work(base, nextId, paused);
    var kinds := AddSaved(KindsOf(paused), policy.saved, peer, policy.resumeAll);
    var after := Resume(routes, nextId, peer, policy).0;
    RestNotStopped(routes, peer);
    Partition(routes, peer, r);
    KindListed(paused, r.kind);
    SavedOnlyAdds(KindsOf(paused), policy.saved, peer, policy.resumeAll);
    ResumeKindsKeep(base, w, peer, kinds, r.kind, policy);
    var i :| 0 <= i < |after| && after[i].peer == peer && after[i].kind == r.kind;
    if Has(base, peer, r.kind) {
      WantedInPrefix(base, ResumeWork(routes, nextId, peer, policy), peer, r.kind);
    } else {
      NotInBase(base, ResumeWork(routes, nextId, peer, policy), peer, r.kind, i);
      assert after[i] in after;
    }
  }

  /** A kind `base` does not have can only have been added. */
  lemma NotInBase(base: seq<Route>, w: Work, peer: DeviceId, kind: Kind, i: nat)
    requires Extends(base, w, peer) && !Has(base, peer, kind)
    requires i < |w.routes| && w.routes[i].peer == peer && w.routes[i].kind == kind
    ensures |base| <= i
  {
  }

  /** Where `base` already had the kind, nothing local of that kind was added. */
  lemma WantedInPrefix(base: seq<Route>, w: Work, peer: DeviceId, kind: Kind)
    requires Extends(base, w, peer) && Has(base, peer, kind)
    ensures Wanted(w.routes, peer, kind) <==> Wanted(base, peer, kind)
  {
    if Wanted(w.routes, peer, kind) {
      var r :| r in w.routes && r.peer == peer && r.kind == kind && r.local && r.status != Stopped;
      var i :| 0 <= i < |w.routes| && w.routes[i] == r;
      assert i < |base|;
      assert base[i] in base;
    }
    if Wanted(base, peer, kind) {
      var r :| r in base && r.peer == peer && r.kind == kind && r.local && r.status != Stopped;
      var i :| 0 <= i < |base| && base[i] == r;
      assert w.routes[i] in w.routes;
    }
  }
}
