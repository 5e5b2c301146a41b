/**
 Two devices dial each other at the same time (sp-engine/src/actor.rs, promotion of sessions).
 Each end handles the Established and Closed events of both connections in its own order; a Close
 command at either end leads to a Closed event at both.
 */
module SimultaneousDial {
  import opened Common
  import opened Routes
  import opened Node
  import opened NodeTheorems

  datatype Side = Low | High

  /** The two connections, by the device that dialed: the one with the lower id or the higher. */
  datatype Conn = ByLow | ByHigh

  /** The two devices, and how each end numbers the two connections. */
  datatype Setup = Setup(low: Identity, high: Identity, lowKey: Key, highKey: Key, ids: (Side, Conn) -> ConnId) {
    ghost predicate Valid() {
      && low.self < high.self
      && low.idOf(highKey) == high.self && high.idOf(lowKey) == low.self
      && ids(Low, ByLow) != ids(Low, ByHigh) && ids(High, ByLow) != ids(High, ByHigh)
    }

    function Me(side: Side): Identity { if side == Low then low else high }

    function Peer(side: Side): DeviceId { if side == Low then high.self else low.self }

    function PeerKey(side: Side): Key { if side == Low then highKey else lowKey }

    function EstOf(side: Side, conn: Conn): Est {
      Est(ids(side, conn), PeerKey(side), (side == Low) == (conn == ByLow))
    }
  }

  /** Both nodes, when each end established each connection, and the connections somebody closed. */
  datatype Net = Net(low: State, high: State, at: map<(Side, Conn), nat>, cut: set<Conn>) {
    function Of(side: Side): State { if side == Low then low else high }

    function With(side: Side, n: State): Net { if side == Low then this.(low := n) else this.(high := n) }
  }

  datatype Move = Establish(side: Side, conn: Conn, a: Ambient) | Lose(side: Side, conn: Conn, reason: Reason, now: nat)

  /** Each end establishes each connection once, within five seconds of the other connection; it loses one
      only after that, and the connection dialed by the lower id only after a Close command: the other may
      break at any time. */
  ghost predicate Possible(net: Net, m: Move) {
    match m
    case Establish(side, conn, a) =>
      && (side, conn) !in net.at
      && forall c :: (side, c) in net.at ==> a.policy.now - net.at[(side, c)] < TIE_BREAK_MS
    case Lose(side, conn, _, _) => (conn == ByHigh || conn in net.cut) && (side, conn) in net.at
  }

  /** The connections of `setup` among the Close commands sent since `before`. */
  ghost function NewlyCut(setup: Setup, side: Side, before: seq<(ConnId, Reason)>, after: seq<(ConnId, Reason)>): set<Conn> {
    set c: Conn | exists i :: |before| <= i < |after| && after[i].0 == setup.ids(side, c)
  }

  ghost function Next(setup: Setup, net: Net, m: Move): Net {
    var n := net.Of(m.side);
    match m
    case Establish(side, conn, a) =>
      var n1 := OnEstablished(setup.Me(side), n, setup.EstOf(side, conn), a);
      net.With(side, n1).(at := net.at[(side, conn) := a.policy.now], cut := net.cut + NewlyCut(setup, side, n.outbox, n1.outbox))
    case Lose(side, conn, reason, now) => net.With(side, OnClosed(n, setup.ids(side, conn), reason, now))
  }

  ghost function Run(setup: Setup, net: Net, moves: seq<Move>): Net {
    if moves == [] then net else Next(setup, Run(setup, net, moves[..|moves| - 1]), moves[|moves| - 1])
  }

  ghost predicate PossibleRun(setup: Setup, net: Net, moves: seq<Move>) {
    forall i :: 0 <= i < |moves| ==> Possible(Run(setup, net, moves[..i]), moves[i])
  }

  /** The peer is trusted and not blocked, and neither connection waits for pairing. */
  ghost predicate Ready(setup: Setup, side: Side, t: Tables) {
    && Indexed(t.sessions, t.connIndex)
    && setup.Peer(side) in t.trust && !t.trust[setup.Peer(side)].blocked
    && t.trust[setup.Peer(side)].key == setup.PeerKey(side)
    && (forall c :: setup.ids(side, c) !in t.unpaired && !PairedOn(t.pairings, setup.ids(side, c)))
  }

  /** Before: both ends trust each other, and neither connection is in use. */
  ghost predicate Start(setup: Setup, net: Net) {
    && setup.Valid() && net.at == map[] && net.cut == {}
    && forall side: Side ::
         var t := net.Of(side).t;
         && Ready(setup, side, t) && setup.Peer(side) !in t.sessions
         && setup.ids(side, ByLow) !in t.connIndex && setup.ids(side, ByHigh) !in t.connIndex
  }

  ghost predicate HoldsConn(setup: Setup, side: Side, t: Tables, conn: Conn, since: nat) {
    && setup.Peer(side) in t.sessions
    && t.sessions[setup.Peer(side)].est == setup.EstOf(side, conn)
    && t.sessions[setup.Peer(side)].connectedAt == since
  }

  /** One end: it holds the connection dialed by the lower id as soon as that was established, and
      before that at most the other one. */
  ghost predicate Settled(setup: Setup, side: Side, t: Tables, at: map<(Side, Conn), nat>) {
    && Ready(setup, side, t)
    && ((side, ByLow) in at ==>
          HoldsConn(setup, side, t, ByLow, at[(side, ByLow)]) && setup.ids(side, ByHigh) !in t.connIndex)
    && ((side, ByLow) !in at ==>
          && setup.ids(side, ByLow) !in t.connIndex
          && (setup.Peer(side) in t.sessions || setup.ids(side, ByHigh) in t.connIndex ==>
                (side, ByHigh) in at && HoldsConn(setup, side, t, ByHigh, at[(side, ByHigh)])))
  }

  ghost predicate Inv(setup: Setup, net: Net) {
    setup.Valid() && ByLow !in net.cut && forall side: Side :: Settled(setup, side, net.Of(side).t, net.at)
  }

  /** A trusted peer's connection becomes the session, unless the prior one is kept. */
  lemma PromoteEffect(setup: Setup, side: Side, n: State, conn: Conn, a: Ambient)
    requires setup.Valid() && Ready(setup, side, n.t)
    ensures var me, id, est := setup.Me(side), setup.Peer(side), setup.EstOf(side, conn);
            var n1 := OnEstablished(me, n, est, a);
            if Rejects(me, n.t, id, est, a.policy.now) then n1.t == n.t && n1.outbox == n.outbox + [(est.conn, Superseded)]
            else exists r: byte ::
                   && n1.t == Link(Unlink(n.t, id), id, Session(est, a.policy.now, r))
                   && n1.outbox == n.outbox + CloseOf(n.t, id, Superseded)
  {
    hide RoutesOnPromote;
    var me, id, est := setup.Me(side), setup.Peer(side), setup.EstOf(side, conn);
    assert me.idOf(est.key) == id;
    var n0 := n.(d := EndDial(n.d, est.conn));
    assert OnEstablished(me, n, est, a) == Promote(me, n0, id, est, a);
    if !Rejects(me, n.t, id, est, a.policy.now) {
      var r := RoutesOnPromote(n.t, n.routes, id, est, a.policy).1;
      assert Promote(me, n0, id, est, a).t == Link(Unlink(n.t, id), id, Session(est, a.policy.now, r));
    }
  }

  /** The lower id's connection replaces whatever the end holds. */
  lemma LowWins(setup: Setup, side: Side, t: Tables, at: map<(Side, Conn), nat>, now: nat, r: byte)
    requires setup.Valid() && Settled(setup, side, t, at) && (side, ByLow) !in at
    ensures var id, est := setup.Peer(side), setup.EstOf(side, ByLow);
            && !Rejects(setup.Me(side), t, id, est, now)
            && Settled(setup, side, Link(Unlink(t, id), id, Session(est, now, r)), at[(side, ByLow) := now])
            && (id in t.sessions ==> t.sessions[id].est.conn == setup.ids(side, ByHigh))
  {
    var id, est := setup.Peer(side), setup.EstOf(side, ByLow);
    if id in t.sessions { IndexedRemove(t.sessions, t.connIndex, id); }
    IndexedAdd(Unlink(t, id).sessions, Unlink(t, id).connIndex, id, Session(est, now, r));
  }

  /** The other connection is rejected if the lower id's is held, and kept until then otherwise. */
  lemma HighYields(setup: Setup, side: Side, t: Tables, at: map<(Side, Conn), nat>, now: nat, r: byte)
    requires setup.Valid() && Settled(setup, side, t, at) && (side, ByHigh) !in at
    requires (side, ByLow) in at ==> now - at[(side, ByLow)] < TIE_BREAK_MS
    ensures var id, est := setup.Peer(side), setup.EstOf(side, ByHigh);
            if (side, ByLow) in at then
              && Rejects(setup.Me(side), t, id, est, now)
              && Settled(setup, side, t, at[(side, ByHigh) := now])
            else
              && !Rejects(setup.Me(side), t, id, est, now) && id !in t.sessions
              && Settled(setup, side, Link(Unlink(t, id), id, Session(est, now, r)), at[(side, ByHigh) := now])
  {
    var id, est := setup.Peer(side), setup.EstOf(side, ByHigh);
    if (side, ByLow) !in at { IndexedAdd(t.sessions, t.connIndex, id, Session(est, now, r)); }
  }

  lemma OtherSide(setup: Setup, side: Side, t: Tables, at: map<(Side, Conn), nat>, mover: Side, conn: Conn, now: nat)
    requires Settled(setup, side, t, at) && mover != side
    ensures Settled(setup, side, t, at[(mover, conn) := now])
  {
  }

  lemma CutOnly(setup: Setup, side: Side, before: seq<(ConnId, Reason)>, more: seq<(ConnId, Reason)>)
    requires setup.Valid() && forall i :: 0 <= i < |more| ==> more[i].0 == setup.ids(side, ByHigh)
    ensures ByLow !in NewlyCut(setup, side, before, before + more)
  {
  }

  /** What establishing a connection does to its own end. */
  lemma OwnSide(setup: Setup, side: Side, n: State, at: map<(Side, Conn), nat>, conn: Conn, a: Ambient)
    requires setup.Valid() && Settled(setup, side, n.t, at) && (side, conn) !in at
    requires forall c :: (side, c) in at ==> a.policy.now - at[(side, c)] < TIE_BREAK_MS
    ensures var n1 := OnEstablished(setup.Me(side), n, setup.EstOf(side, conn), a);
            && Settled(setup, side, n1.t, at[(side, conn) := a.policy.now])
            && ByLow !in NewlyCut(setup, side, n.outbox, n1.outbox)
  {
    var id, est := setup.Peer(side), setup.EstOf(side, conn);
    var n1 := OnEstablished(setup.Me(side), n, est, a);
    PromoteEffect(setup, side, n, conn, a);
    hide OnEstablished, Settled, Rejects, Link, Unlink, NewlyCut;
    if conn == ByLow { LowWins(setup, side, n.t, at, a.policy.now, 0); } else { HighYields(setup, side, n.t, at, a.policy.now, 0); }
    if Rejects(setup.Me(side), n.t, id, est, a.policy.now) {
      CutOnly(setup, side, n.outbox, [(est.conn, Superseded)]);
    } else {
      var r: byte :| n1.t == Link(Unlink(n.t, id), id, Session(est, a.policy.now, r)) && n1.outbox == n.outbox + CloseOf(n.t, id, Superseded);
      if conn == ByLow { LowWins(setup, side, n.t, at, a.policy.now, r); } else { HighYields(setup, side, n.t, at, a.policy.now, r); }
      CutOnly(setup, side, n.outbox, CloseOf(n.t, id, Superseded));
    }
  }

  lemma EstablishKeeps(setup: Setup, net: Net, side: Side, conn: Conn, a: Ambient)
    requires Inv(setup, net) && Possible(net, Establish(side, conn, a))
    ensures Inv(setup, Next(setup, net, Establish(side, conn, a)))
  {
    hide OnEstablished, Settled, NewlyCut;
    OwnSide(setup, side, net.Of(side), net.at, conn, a);
    var other := if side == Low then High else Low;
    OtherSide(setup, other, net.Of(other).t, net.at, side, conn, a.policy.now);
    var r := Next(setup, net, Establish(side, conn, a));
    forall s: Side ensures Settled(setup, s, r.Of(s).t, r.at) {
      if s != side { assert s == other; }
    }
  }

  /** A late Closed event of the other connection changes nothing at an end that holds the lower id's. */
  lemma LateCloseIgnored(setup: Setup, side: Side, n: State, at: map<(Side, Conn), nat>, reason: Reason, now: nat)
    requires setup.Valid() && Settled(setup, side, n.t, at) && (side, ByLow) in at
    ensures OnClosed(n, setup.ids(side, ByHigh), reason, now) == n
  {
    var c := setup.ids(side, ByHigh);
    assert !PairedOn(n.t.pairings, c);
    assert PairingOn(n.t, c).None?;
    assert n.t.unpaired - {c} == n.t.unpaired;
  }

  /** Losing the other connection while it is held leaves the end without a session, and nothing else changed. */
  lemma LoseHigh(setup: Setup, side: Side, n: State, at: map<(Side, Conn), nat>, reason: Reason, now: nat)
    requires setup.Valid() && Settled(setup, side, n.t, at) && (side, ByLow) !in at
    ensures Settled(setup, side, OnClosed(n, setup.ids(side, ByHigh), reason, now).t, at)
  {
    var c, id := setup.ids(side, ByHigh), setup.Peer(side);
    assert !PairedOn(n.t.pairings, c);
    assert PairingOn(n.t, c).None?;
    assert n.t.unpaired - {c} == n.t.unpaired;
    assert DropWaiting(n.t, c) == n.t;
    if c in n.t.connIndex {
      IndexedRemove(n.t.sessions, n.t.connIndex, id);
      EndedTables(n.(t := Unlink(n.t, id)), id, reason, now);
    }
  }

  lemma EndedTables(n: State, id: DeviceId, reason: Reason, now: nat)
    ensures var t := SessionEnded(n, id, reason, now).t;
            && t == n.t.(trust := t.trust) && t.trust.Keys == n.t.trust.Keys
            && forall x :: x in n.t.trust ==> t.trust[x].key == n.t.trust[x].key && t.trust[x].blocked == n.t.trust[x].blocked
  {
  }

  lemma LoseKeeps(setup: Setup, net: Net, side: Side, conn: Conn, reason: Reason, now: nat)
    requires Inv(setup, net) && Possible(net, Lose(side, conn, reason, now))
    ensures Inv(setup, Next(setup, net, Lose(side, conn, reason, now)))
  {
    hide OnClosed, Settled;
    assert conn == ByHigh;
    if (side, ByLow) in net.at { LateCloseIgnored(setup, side, net.Of(side), net.at, reason, now); }
    else { LoseHigh(setup, side, net.Of(side), net.at, reason, now); }
    var r := Next(setup, net, Lose(side, conn, reason, now));
    forall s: Side ensures Settled(setup, s, r.Of(s).t, r.at) {
      if s != side { assert r.Of(s) == net.Of(s) && Settled(setup, s, net.Of(s).t, net.at); }
    }
  }

  lemma {:induction false} AlwaysInv(setup: Setup, net: Net, moves: seq<Move>)
    requires Start(setup, net) && PossibleRun(setup, net, moves)
    ensures Inv(setup, Run(setup, net, moves))
  {
    if moves != [] {
      var front, m := moves[..|moves| - 1], moves[|moves| - 1];
      forall i | 0 <= i < |front| ensures Possible(Run(setup, net, front[..i]), front[i]) {
        assert front[..i] == moves[..i];
      }
      AlwaysInv(setup, net, front);
      match m
      case Establish(side, conn, a) => EstablishKeeps(setup, Run(setup, net, front), side, conn, a);
      case Lose(side, conn, reason, now) => LoseKeeps(setup, Run(setup, net, front), side, conn, reason, now);
    }
  }

  /** In every interleaving: nobody ever closes the connection dialed by the lower id; an end that has
      established it holds it; so once both have, both hold the same connection; and a late Closed
      event of the other connection then changes nothing. */
  lemma {:induction false} BothKeepTheSame(setup: Setup, net: Net, moves: seq<Move>)
    requires Start(setup, net) && PossibleRun(setup, net, moves)
    ensures var r := Run(setup, net, moves);
            && ByLow !in r.cut
            && forall side :: (side, ByLow) in r.at ==> Decided(setup, side, r.Of(side))
  {
    AlwaysInv(setup, net, moves);
    var r := Run(setup, net, moves);
    forall side | (side, ByLow) in r.at ensures Decided(setup, side, r.Of(side)) {
      SettledDecides(setup, side, r.Of(side), r.at);
    }
    hide Run, Decided;
  }

  /** The end holds the lower id's connection, and losing the other one would change nothing. */
  ghost predicate Decided(setup: Setup, side: Side, n: State) {
    && setup.Peer(side) in n.t.sessions
    && n.t.sessions[setup.Peer(side)].est.conn == setup.ids(side, ByLow)
    && forall reason, now :: OnClosed(n, setup.ids(side, ByHigh), reason, now) == n
  }

  lemma SettledDecides(setup: Setup, side: Side, n: State, at: map<(Side, Conn), nat>)
    requires setup.Valid() && Settled(setup, side, n.t, at) && (side, ByLow) in at
    ensures Decided(setup, side, n)
  {
    forall reason, now ensures OnClosed(n, setup.ids(side, ByHigh), reason, now) == n {
      LateCloseIgnored(setup, side, n, at, reason, now);
    }
    hide OnClosed;
  }
}
