/** What a new session starts: the routes this device had, and those saved to run again
    (sp-engine/src/actor.rs, resuming routes). */
module SavedRoutes {
  import opened Common
  import opened Routes

  /** The newest route of a kind with a peer. */
  function Newest(routes: seq<Route>, peer: DeviceId, kind: Kind): Option<Route> {
    if routes == [] then None else
    var r := routes[|routes| - 1];
    if r.peer == peer && r.kind == kind then Some(r) else Newest(routes[..|routes| - 1], peer, kind)
  }

  lemma NewestNext(routes: seq<Route>, r: Route, peer: DeviceId, kind: Kind)
    ensures Newest(routes + [r], peer, kind) ==
            if r.peer == peer && r.kind == kind then Some(r) else Newest(routes, peer, kind)
  {
    assert (routes + [r])[..|routes|] == routes;
  }

  lemma {:induction false} NewestHas(routes: seq<Route>, peer: DeviceId, kind: Kind)
    ensures Newest(routes, peer, kind).Some? <==> Has(routes, peer, kind)
    ensures match Newest(routes, peer, kind)
            case Some(r) => r in routes && r.peer == peer && r.kind == kind
            case None => true
  {
    if routes != [] {
      var front := routes[..|routes| - 1];
      NewestHas(front, peer, kind);
      if i :| 0 <= i < |routes| && routes[i].peer == peer && routes[i].kind == kind {
        if i < |front| { assert front[i] == routes[i]; }
      }
      if i :| 0 <= i < |front| && front[i].peer == peer && front[i].kind == kind { assert routes[i] == front[i]; }
    }
  }

  /** Marking a kind sets the flag of its newest route and touches no other kind. */
  lemma {:induction false} NewestMarked(routes: seq<Route>, peer: DeviceId, kind: Kind, keep: bool, other: Kind)
    ensures Newest(MarkKeep(routes, peer, kind, keep), peer, other) ==
            match Newest(routes, peer, other)
            case Some(r) => Some(if other == kind then r.(keep := keep) else r)
            case None => None
  {
    if routes != [] {
      var front, last := routes[..|routes| - 1], routes[|routes| - 1];
      NewestMarked(front, peer, kind, keep, other);
      assert routes == front + [last];
      NewestNext(front, last.(keep := keep), peer, other);
      NewestNext(MarkKeep(front, peer, kind, keep), last, peer, other);
    }
  }

  // ---------------------------------------------------------------- which kinds are started

  /** This route is saved to run again with the peer. */
  ghost predicate Again(s: SavedRoute, peer: DeviceId, resumeAll: bool) { s.peer == peer && (s.keep || resumeAll) }

  lemma {:induction false} SavedListed(kinds: seq<Kind>, saved: seq<SavedRoute>, peer: DeviceId, resumeAll: bool, kind: Kind)
    ensures kind in AddSaved(kinds, saved, peer, resumeAll) <==>
            kind in kinds || exists s :: s in saved && Again(s, peer, resumeAll) && s.kind == kind
    decreases |saved|
  {
    if saved != [] {
      var first, rest := saved[0], saved[1..];
      SavedListed(if first.peer == peer && (first.keep || resumeAll) && first.kind !in kinds then kinds + [first.kind] else kinds,
                  rest, peer, resumeAll, kind);
      assert saved == [first] + rest;
      if s :| s in saved && Again(s, peer, resumeAll) && s.kind == kind { assert s == first || s in rest; }
      if s :| s in rest && Again(s, peer, resumeAll) && s.kind == kind { assert s in saved; }
      assert Again(first, peer, resumeAll) && first.kind == kind ==> first in saved;
    }
  }

  /** The saved choice for a kind: keep it running. */
  ghost predicate Chosen(saved: seq<SavedRoute>, peer: DeviceId, kind: Kind) {
    exists s :: s in saved && s.peer == peer && s.kind == kind && s.keep
  }

  lemma SavedKeepIsChosen(saved: seq<SavedRoute>, peer: DeviceId, kind: Kind)
    ensures SavedKeep(saved, peer, kind) <==> Chosen(saved, peer, kind)
  {
    if s :| s in saved && s.peer == peer && s.kind == kind && s.keep {
      var i :| 0 <= i < |saved| && saved[i] == s;
    }
  }

  /** Nothing stands against a route of this kind, whatever else of the peer's is resumed before it. */
  ghost predicate Able(base: seq<Route>, peer: DeviceId, kind: Kind, policy: Policy) {
    && (forall rs :: Grows(base, rs) ==> policy.capable(rs, kind))
    && (kind == ReceiveMicToVirtualMic ==> forall r :: r in base && r.peer != peer ==> r.kind != kind)
  }

  /** What a started kind looks like: its newest route carries the saved choice, and it is a fresh request
      unless there was a route of the kind. */
  ghost predicate Started(base: seq<Route>, routes: seq<Route>, peer: DeviceId, kind: Kind, policy: Policy) {
    match Newest(routes, peer, kind)
    case None => false
    case Some(r) =>
      && (r.keep <==> Chosen(policy.saved, peer, kind))
      && (!Has(base, peer, kind) ==>
            r.status == Requesting && r.local && r.pausedAt == None && r.deadline == Some(policy.now + 35_000))
  }

  /** Nobody else's microphone feed has come in. */
  lemma MicStaysFree(base: seq<Route>, w: Work, peer: DeviceId)
    requires Extends(base, w, peer) && forall r :: r in base && r.peer != peer ==> r.kind != ReceiveMicToVirtualMic
    ensures !MicFed(w.routes, peer)
  {
    forall i | 0 <= i < |w.routes| && w.routes[i].peer != peer ensures w.routes[i].kind != ReceiveMicToVirtualMic {
      if i < |base| { assert base[i] in base; }
    }
  }

  /** The turn of a kind. */
  lemma TurnStarts(base: seq<Route>, w: Work, peer: DeviceId, kind: Kind, policy: Policy)
    requires Extends(base, w, peer) && Able(base, peer, kind, policy)
    requires Has(base, peer, kind) || !Has(w.routes, peer, kind) || Started(base, w.routes, peer, kind, policy)
    ensures Started(base, ResumeOne(w, peer, kind, policy).routes, peer, kind, policy)
  {
    hide MarkKeep, Has, HasRunning, Able, Chosen, Extends, Newest, SavedKeep, MicFed;
    var (routes, _) := Start(w.routes, w.nextId, peer, kind, policy);
    var r := Requested(peer, w.nextId, kind, policy.now);
    SavedKeepIsChosen(policy.saved, peer, kind);
    NewestHas(base, peer, kind);
    NewestHas(w.routes, peer, kind);
    NewestHas(routes, peer, kind);
    NewestNext(w.routes, r, peer, kind);
    NewestMarked(routes, peer, kind, SavedKeep(policy.saved, peer, kind), kind);
    CanStart(base, w, peer, kind, policy);
  }

  lemma CanStart(base: seq<Route>, w: Work, peer: DeviceId, kind: Kind, policy: Policy)
    requires Extends(base, w, peer) && Able(base, peer, kind, policy)
    ensures Has(base, peer, kind) ==> Has(w.routes, peer, kind)
    ensures if Has(w.routes, peer, kind) then HasRunning(w.routes, peer, kind) else Startable(w.routes, peer, kind, policy)
  {
    assert Grows(base, w.routes);
    if Has(base, peer, kind) { GrowsHas(base, w.routes, peer, kind); }
    if Has(w.routes, peer, kind) { HasIsRunning(w.routes, peer, kind); }
    if kind == ReceiveMicToVirtualMic { MicStaysFree(base, w, peer); }
  }

  /** The turn of another kind leaves it alone. */
  lemma TurnSpares(w: Work, peer: DeviceId, k: Kind, policy: Policy, kind: Kind)
    requires k != kind
    ensures Newest(ResumeOne(w, peer, k, policy).routes, peer, kind) == Newest(w.routes, peer, kind)
  {
    hide MarkKeep, Has, HasRunning, Newest, SavedKeep, MicFed, TakeKind;
    var (routes, _) := Start(w.routes, w.nextId, peer, k, policy);
    NewestNext(w.routes, Requested(peer, w.nextId, k, policy.now), peer, kind);
    NewestMarked(routes, peer, k, SavedKeep(policy.saved, peer, k), kind);
    NewestNext(routes, Requested(peer, w.nextId, k, policy.now), peer, kind);
    TakeKindFinds(w.paused, k);
    if TakeKind(w.paused, k).Some? { NewestNext(routes, TakeKind(w.paused, k).value.0, peer, kind); }
    match Newest(w.routes, peer, kind) case Some(_) => case None =>
  }

  /** What has become of a kind: started if its turn has come, and as it was otherwise. */
  ghost predicate Turned(w: Work, v: Work, peer: DeviceId, kind: Kind, policy: Policy, come: bool) {
    && Extends(w.routes, v, peer)
    && if come then Started(w.routes, v.routes, peer, kind, policy)
       else Newest(v.routes, peer, kind) == Newest(w.routes, peer, kind)
  }

  lemma Turn(w: Work, v: Work, peer: DeviceId, k: Kind, policy: Policy, kind: Kind, come: bool)
    requires Turned(w, v, peer, kind, policy, come) && Able(w.routes, peer, kind, policy)
    ensures Turned(w, ResumeOne(v, peer, k, policy), peer, kind, policy, come || k == kind)
  {
    hide ResumeOne, Started, Extends, Able, Newest;
    ResumeOneExtends(w.routes, v, peer, k, policy);
    NewestHas(w.routes, peer, kind);
    NewestHas(v.routes, peer, kind);
    if k == kind {
      TurnStarts(w.routes, v, peer, kind, policy);
    } else {
      TurnSpares(v, peer, k, policy, kind);
      StartedSame(w.routes, v.routes, ResumeOne(v, peer, k, policy).routes, peer, kind, policy);
    }
  }

  lemma {:induction false} TurnsStart(w: Work, peer: DeviceId, kinds: seq<Kind>, policy: Policy, kind: Kind)
    requires Extends(w.routes, w, peer) && Able(w.routes, peer, kind, policy)
    ensures Turned(w, ResumeKinds(w, peer, kinds, policy), peer, kind, policy, kind in kinds)
  {
    hide ResumeKinds, ResumeOne, Turned, Extends, Able;
    if kinds == [] {
      NoTurn(w, peer, policy, kind);
    } else {
      var front, k := kinds[..|kinds| - 1], kinds[|kinds| - 1];
      TurnsStart(w, peer, front, policy, kind);
      Turn(w, ResumeKinds(w, peer, front, policy), peer, k, policy, kind, kind in front);
      LastListed(kinds, kind);
      LastTurn(w, peer, kinds, policy);
    }
  }

  lemma NoTurn(w: Work, peer: DeviceId, policy: Policy, kind: Kind)
    requires Extends(w.routes, w, peer)
    ensures Turned(w, ResumeKinds(w, peer, [], policy), peer, kind, policy, false)
  {
    hide Extends, Newest;
  }

  lemma LastListed(kinds: seq<Kind>, kind: Kind)
    requires kinds != []
    ensures kind in kinds <==> kind in kinds[..|kinds| - 1] || kinds[|kinds| - 1] == kind
  {
  }

  lemma LastTurn(w: Work, peer: DeviceId, kinds: seq<Kind>, policy: Policy)
    requires kinds != []
    ensures ResumeKinds(w, peer, kinds, policy) ==
            ResumeOne(ResumeKinds(w, peer, kinds[..|kinds| - 1], policy), peer, kinds[|kinds| - 1], policy)
  {
    hide ResumeOne;
  }

  lemma StartedSame(base: seq<Route>, a: seq<Route>, b: seq<Route>, peer: DeviceId, kind: Kind, policy: Policy)
    requires Newest(a, peer, kind) == Newest(b, peer, kind)
    ensures Started(base, a, peer, kind, policy) <==> Started(base, b, peer, kind, policy)
  {
  }

  /** A route saved to run with this peer runs again: unless something stands against it, the new session has a
      route of its kind, whose flag is the saved choice, and asks for it if none of the kind went on. */
  lemma SavedRunsAgain(routes: seq<Route>, nextId: byte, peer: DeviceId, policy: Policy, s: SavedRoute)
    requires NoneStopped(routes) && s in policy.saved && s.peer == peer && (s.keep || policy.resumeAll)
    requires Able(Rest(routes, peer), peer, s.kind, policy)
    ensures var after := Resume(routes, nextId, peer, policy).0;
            var goesOn := exists r :: r in routes && r.peer == peer && r.kind == s.kind && !(r.status == Paused && r.local);
            exists r :: r in after && r.peer == peer && r.kind == s.kind
                        && (r.keep <==> exists x :: x in policy.saved && x.peer == peer && x.kind == s.kind && x.keep)
                        && (!goesOn ==> r.status == Requesting && r.local && r.deadline == Some(policy.now + 35_000))
  {
    hide Able, Newest, AddSaved, ResumeKinds, KindsOf;
    var base, paused := Rest(routes, peer), Taken(routes, peer);
    var kinds := AddSaved(KindsOf(paused), policy.saved, peer, policy.resumeAll);
    RestNotStopped(routes, peer);
    SavedListed(KindsOf(paused), policy.saved, peer, policy.resumeAll, s.kind);
    assert Again(s, peer, policy.resumeAll);
    TurnsStart(Work(base, nextId, paused), peer, kinds, policy, s.kind);
    var after := Resume(routes, nextId, peer, policy).0;
    NewestHas(after, peer, s.kind);
    GoesOn(routes, peer, s.kind);
  }

  lemma GoesOn(routes: seq<Route>, peer: DeviceId, kind: Kind)
    ensures Has(Rest(routes, peer), peer, kind) <==>
            exists r :: r in routes && r.peer == peer && r.kind == kind && !(r.status == Paused && r.local)
  {
    hide Rest, Taken;
    var rest := Rest(routes, peer);
    if i :| 0 <= i < |rest| && rest[i].peer == peer && rest[i].kind == kind { Partition(routes, peer, rest[i]); }
    if r :| r in routes && r.peer == peer && r.kind == kind && !(r.status == Paused && r.local) {
      Partition(routes, peer, r);
      var i :| 0 <= i < |rest| && rest[i] == r;
    }
  }

  // ---------------------------------------------------------------- and nothing else

  lemma {:induction false} TurnsAddListed(w: Work, peer: DeviceId, kinds: seq<Kind>, policy: Policy)
    ensures var v := ResumeKinds(w, peer, kinds, policy);
            && Grows(w.routes, v.routes)
            && forall i :: |w.routes| <= i < |v.routes| ==> v.routes[i].kind in kinds
  {
    if kinds != [] {
      hide ResumeOne;
      var front, k := kinds[..|kinds| - 1], kinds[|kinds| - 1];
      TurnsAddListed(w, peer, front, policy);
      ResumeOneGrows(ResumeKinds(w, peer, front, policy), peer, k, policy);
    }
  }

  /** Every route a new session adds is of a kind this device had paused with the peer, or saved to run again. */
  lemma OnlyWantedStart(routes: seq<Route>, nextId: byte, peer: DeviceId, policy: Policy, i: nat)
    requires |Rest(routes, peer)| <= i < |Resume(routes, nextId, peer, policy).0|
    ensures var kind := Resume(routes, nextId, peer, policy).0[i].kind;
            || (exists r :: r in routes && r.peer == peer && r.kind == kind && r.status == Paused && r.local)
            || (exists s :: s in policy.saved && s.peer == peer && s.kind == kind && (s.keep || policy.resumeAll))
  {
    hide Rest, Taken, AddSaved, ResumeKinds, KindsOf;
    var base, paused := Rest(routes, peer), Taken(routes, peer);
    var kinds := AddSaved(KindsOf(paused), policy.saved, peer, policy.resumeAll);
    TurnsAddListed(Work(base, nextId, paused), peer, kinds, policy);
    var kind := Resume(routes, nextId, peer, policy).0[i].kind;
    SavedListed(KindsOf(paused), policy.saved, peer, policy.resumeAll, kind);
    KindListed(paused, kind);
    if r :| r in paused && r.kind == kind { Partition(routes, peer, r); }
  }
}
