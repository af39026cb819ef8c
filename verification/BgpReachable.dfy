/** Live runs of one peer that reach the cases singled out elsewhere. */
module BgpReachable {
  import opened Sequences
  import opened BgpOpen
  import opened BgpConnection
  import opened BgpConnectionTheory
  import opened BgpPeerSpec
  import opened BgpPeerTheory
  import opened BgpPeerTheorems
  import opened BgpPeerLaws
  import opened BgpCollision
  import opened BgpTracked

  ghost function PlainOpen(s: Settings, x: nat): OpenMessage {
    OpenMessage(s.peerAsn, 90, x, [])
  }

  /** A connection that has sent its OPEN and heard nothing yet. */
  ghost predicate Untouched(s: Settings, c: Conn, d: Direction) {
    && c.state == ConnState.OpenSent && c.direction == d && c.peerBgpId.None? && !c.openDelayTimer
    && c.peerAsn == if s.dynamicAs then None else Some(s.peerAsn)
  }

  lemma {:induction false} OpenedIsUntouched(p: PeerView, d: Direction, e: Event, o: Oracle)
    requires !ComesFromPolling(e) && p.settings.conn.openDelay == 0 && o.o1 == Sent
    ensures exists c ::
      Untouched(p.settings, c, d) && Opened(p, d, e, o) == (Added(p.(retryTimer := false), c), Progress)
  {
    hide Handled, NewConn, Count, Added;
    var f := FreshConn(p.settings, d, o.jitter);
    FreshIsNew(p.settings, d, o.jitter);
    FreshHasNoId(p.settings, d, o.jitter);
    HandledOpens(f, e, o.o1, o.o2);
    var c := Handled(f, e, o.o1, o.o2).0;
    assert Untouched(p.settings, c, d);
  }

  lemma {:induction false} FirstOpenConfirms(p: PeerView, d: Direction, x: nat, o: Oracle)
    requires p.waiting == [] && p.connection.Some? && Untouched(p.settings, p.connection.value, d)
    requires p.tracked.Some? && p.tracked.value.peerBgpId.None?
    requires o == Undemanding([MainTurn(Incoming(Open(PlainOpen(p.settings, x))), Sent)])
    ensures var (q, r) := Ran(p, o);
      && r == Progress && q.tracked == p.tracked && q.fsm == Fsm.OpenConfirm && q.waiting == []
      && q.settings == p.settings
      && q.connection.Some? && q.connection.value.peerBgpId == Some(x) && q.connection.value.direction == d
  {
    hide Count, PollLoop, HandledMain;
    var open := PlainOpen(p.settings, x);
    assert MyAsn4(open) == p.settings.peerAsn;
    var q := Polling(p.connection, p.tracked, false, None);
    LoopEndsWith(p.settings.myBgpId, p.fsm, q, o.turns);
    var q1 := Turned(p.settings.myBgpId, p.fsm, q, o.turns[0]);
    assert q1.next == Some(MainEvent(BGPOpen(open)));
    ConfirmingKeepsMain(Asked(WithPolled(p, q1), o), open, o);
  }

  ghost function Connecting(): Oracle {
    Oracle([], ConnectDone(true), Sent, Sent, 1.0, true)
  }

  lemma {:induction false} BothConnectionsAreReached(s: Settings) returns (p: PeerView)
    requires s.conn.openDelay == 0 && !s.passiveTcp
    ensures Reaches(s, p) && p.settings == s && p.waiting == []
    ensures p.adminUp && p.fsm == Fsm.OpenSent
    ensures p.connection.Some? && Untouched(s, p.connection.value, Direction.Active)
    ensures p.tracked.Some? && Untouched(s, p.tracked.value, Passive)
  {
    hide Reaches, Opened, Untouched;
    NewPeerIsReached(s);
    ReachesByEvent(s, NewPeer(s), ManualStart);
    var p1 := Started(NewPeer(s));
    OpenedIsUntouched(p1.(mayConnect := false), Direction.Active, TcpConnectionRequestAcked, Connecting());
    ReachesNext(s, p1, Run(Connecting()));
    var p2 := Ran(p1, Connecting()).0;
    assert p2.connection.Some? && p2.tracked.None? && p2.adminUp && p2.fsm == Fsm.OpenSent by {
      UntouchedIsNamed(s, p2.connection.value);
    }
    OpenedIsUntouched(p2, Passive, TcpConnectionConfirmed, Undemanding([]));
    assert !Rejects(p2) by { UntouchedIsNamed(s, p2.connection.value); }
    ReachesByEvent(s, p2, ConnectionConfirmed);
    p := Administered(p2, ConnectionConfirmed, Undemanding([])).0;
  }

  lemma {:induction false} UntouchedIsNamed(s: Settings, c: Conn)
    ensures forall d :: Untouched(s, c, d) ==> Named(c.state) == Some(Fsm.OpenSent) && c.peerBgpId.None?
  {
  }

  lemma {:induction false} ReachedBelong(s: Settings, p: PeerView)
    requires Reaches(s, p)
    ensures ConnectionsBelong(p)
  {
    hide ConnectionsBelong, Played, LiveRun;
    var steps :| LiveRun(NewPeer(s), steps) && Played(NewPeer(s), steps) == p;
    PlayedBelong(s, steps);
  }

  /** The main connection is confirmed with identifier `x`; the tracked one has heard nothing yet. */
  lemma {:induction false} AnnouncedMainIsReached(s: Settings, x: nat) returns (p: PeerView)
    requires s.conn.openDelay == 0 && !s.passiveTcp
    ensures Reaches(s, p) && p.settings == s && p.waiting == [] && p.fsm == Fsm.OpenConfirm && ConnectionsBelong(p)
    ensures p.connection.Some? && p.connection.value.peerBgpId == Some(x)
    ensures p.connection.value.direction == Direction.Active
    ensures p.tracked.Some? && Untouched(s, p.tracked.value, Passive)
  {
    hide Ran, Reaches, ConnectionsBelong, Untouched;
    var p1 := BothConnectionsAreReached(s);
    var first := Undemanding([MainTurn(Incoming(Open(PlainOpen(s, x))), Sent)]);
    assert p1.tracked.value.peerBgpId.None? by { UntouchedIsNamed(s, p1.tracked.value); }
    FirstOpenConfirms(p1, Direction.Active, x, first);
    ReachesNext(s, p1, Run(first));
    p := Ran(p1, first).0;
    ReachedBelong(s, p);
  }

  /** Every active speaker without an open delay reaches, in a live run, a state in which the second OPEN of a peer with
      any identifier completes a collision, with its own connection as main and a tracked one that can take over. */
  lemma {:induction false} MeetingIsReachable(s: Settings, x: nat) returns (p: PeerView, o: Oracle)
    requires s.conn.openDelay == 0 && !s.passiveTcp
    ensures Reaches(s, p) && p.settings == s && Meets(p, o, x)
    ensures p.connection.value.direction == Direction.Active && Named(TrackedThen(p, o).state).Some?
  {
    hide Reaches, ConnectionsBelong, Count;
    p := AnnouncedMainIsReached(s, x);
    o := Undemanding([TrackedTurn(Incoming(Open(PlainOpen(s, x))), Sent, Sent)]);
    assert Resolves(p, o) && Announced(p, o) == x && Meets(p, o, x);
    assert MyAsn4(PlainOpen(s, x)) == s.peerAsn;
    TrackedIsFitIff(p, o);
  }

  /** A speaker that expects a fixed AS can so be brought, by a peer with a higher identifier, to fail on an OPEN with
      another AS. */
  lemma {:induction false} RefusalIsReachable(s: Settings, x: nat) returns (p: PeerView, o: Oracle)
    requires s.conn.openDelay == 0 && !s.passiveTcp && !s.dynamicAs && s.myBgpId < x
    ensures Reaches(s, p) && Ran(p, o).1 == InvalidTransition
  {
    hide Ran, Reaches, Count, ConnectionsBelong;
    p := AnnouncedMainIsReached(s, x);
    var open := PlainOpen(s, x).(myAs := if s.peerAsn == 1 then 2 else 1);
    o := Undemanding([TrackedTurn(Incoming(Open(open)), Sent, Sent)]);
    assert MyAsn4(open) != s.peerAsn;
    assert Resolves(p, o) && Announced(p, o) == x;
    RefusedTrackedOpenStopsPeer(p, o);
  }

  // ----- What the tracked connection hears first

  /** A turn of the tracked connection while the main one has announced nothing changes the tracked one only. */
  lemma {:induction false} TrackedTurnAlone(p: PeerView, t: Turn)
    requires p.waiting == [] && p.fsm != Connect && p.tracked.Some? && p.tracked.value.state == ConnState.OpenSent
    requires p.connection.Some? && p.connection.value.peerBgpId.None?
    requires t.TrackedTurn? && Enabled(p.tracked.value, t.input)
    ensures Ran(p, Undemanding([t])) ==
      (p.(tracked := Some(Driven(p.tracked.value, Drive(t.input, t.o1, t.o2)).0)), Pending)
  {
    hide Handled, Count, MessageEvent;
    var q := Turned(p.settings.myBgpId, p.fsm, Unpolled(p), t);
    LoopTakesTurn(p.settings.myBgpId, p.fsm, Unpolled(p), [t]);
    assert [t][1..] == [];
    assert PolledBy(p, [t]) == q;
  }

  lemma {:induction false} DrivenKeepsDirection(c: Conn, t: Turn)
    requires t.TrackedTurn? && Enabled(c, t.input)
    ensures Driven(c, Drive(t.input, t.o1, t.o2)).0.direction == c.direction
  {
    hide Handled, Count, MessageEvent;
    var (d, e) := Polled(c, t.input);
    HandledKeepsIdentity(d, e, t.o1, t.o2);
  }

  /** The tracked connection has announced `x` and its OPEN has been answered; the main one has heard nothing yet. */
  lemma {:induction false} AnnouncedTrackedIsReached(s: Settings, x: nat) returns (p: PeerView)
    requires s.conn.openDelay == 0 && !s.passiveTcp
    ensures Reaches(s, p) && p.settings == s && p.waiting == [] && ConnectionsBelong(p)
    ensures p.connection.Some? && Untouched(s, p.connection.value, Direction.Active)
    ensures p.tracked.Some? && p.tracked.value.peerBgpId == Some(x) && p.tracked.value.direction == Passive
  {
    hide Ran, Reaches, ConnectionsBelong, Handled, Count;
    var p1 := BothConnectionsAreReached(s);
    var t := TrackedTurn(Incoming(Open(PlainOpen(s, x))), Sent, Sent);
    TrackedTurnAlone(p1, t);
    DrivenId(p1.tracked.value, t.input, t.o1, t.o2);
    DrivenKeepsDirection(p1.tracked.value, t);
    ReachesNext(s, p1, Run(Undemanding([t])));
    p := Ran(p1, Undemanding([t])).0;
    ReachedBelong(s, p);
  }

  /** A speaker with the higher identifier can so lose the connection both sides agreed on. */
  lemma {:induction false} LossIsReachable(s: Settings, x: nat) returns (p: PeerView, o: Oracle, next: Oracle)
    requires s.conn.openDelay == 0 && !s.passiveTcp && x <= s.myBgpId
    ensures Reaches(s, p) && Meets(p, o, x) && Ran(p, o).1 == Progress
    ensures var q := Ran(Ran(p, o).0, next).0; q.connection == None && q.fsm == Idle
  {
    hide Ran, Reaches, ConnectionsBelong, Count;
    p := AnnouncedTrackedIsReached(s, x);
    o := Undemanding([MainTurn(Incoming(Open(PlainOpen(s, x))), Sent)]);
    next := Undemanding([MainTurn(Incoming(KeepAlive), Sent)]);
    assert Resolves(p, o) && Announced(p, o) == x;
    CollisionIsResolved(p, o);
    WinningOpenIsLost(p, o, next);
  }

  /** A peer with two identifiers can so have a collision overlooked. */
  lemma {:induction false} OverlookingIsReachable(s: Settings, x: nat, y: nat) returns (p: PeerView, o: Oracle)
    requires s.conn.openDelay == 0 && !s.passiveTcp && x != y
    ensures Reaches(s, p) && Ran(p, o).1 == Progress && CollisionLeft(Ran(p, o).0)
  {
    hide Ran, Reaches, ConnectionsBelong, Count, CollisionLeft;
    p := AnnouncedTrackedIsReached(s, x);
    var first, second := PlainOpen(s, y), PlainOpen(s, x);
    o := Undemanding([MainTurn(Incoming(Open(first)), Sent), MainTurn(Incoming(Open(second)), Sent)]);
    assert MyAsn4(second) == s.peerAsn;
    CollisionIsOverlooked(p, first, second, o);
  }

  /** An answer can so be lost on a tracked connection whose session then runs without a hold time, but with timers. */
  lemma {:induction false} LostAnswerIsReachable(s: Settings, x: nat) returns (p: PeerView)
    requires s.conn.openDelay == 0 && !s.passiveTcp && s.conn.holdTime > 0
    ensures Reaches(s, p) && p.tracked.Some?
    ensures var c := p.tracked.value;
      c.state == ConnState.OpenConfirm && c.holdTime == 0 && c.keepAliveTimer.Some? && c.holdTimer.Some?
  {
    hide Ran, Reaches, Count;
    var p1 := BothConnectionsAreReached(s);
    ReachedBelong(s, p1);
    var first, second := PlainOpen(s, x), PlainOpen(s, x).(holdTime := 0);
    assert MyAsn4(first) == s.peerAsn && MyAsn4(second) == s.peerAsn;
    var t1 := TrackedTurn(Incoming(Open(first)), FailedBeforeStart, Sent);
    var t2 := TrackedTurn(Incoming(Open(second)), Sent, Sent);
    TrackedTurnAlone(p1, t1);
    ReachesNext(s, p1, Run(Undemanding([t1])));
    var p2 := Ran(p1, Undemanding([t1])).0;
    TrackedTurnAlone(p2, t2);
    ReachesNext(s, p2, Run(Undemanding([t2])));
    LostAnswerKeepsTimers(p1.tracked.value, first, second, FailedBeforeStart);
    p := Ran(p2, Undemanding([t2])).0;
  }

  /** A tracked connection can so end, and is held beside a main one. */
  lemma {:induction false} EndedIsReachable(s: Settings) returns (p: PeerView)
    requires s.conn.openDelay == 0 && !s.passiveTcp
    ensures Reaches(s, p) && HoldsEnded(p) && p.connection.Some? && p.adminUp
  {
    hide Ran, Reaches, Count;
    var p1 := BothConnectionsAreReached(s);
    var t := TrackedTurn(EndOfStream, Sent, Sent);
    TrackedTurnAlone(p1, t);
    ReachesNext(s, p1, Run(Undemanding([t])));
    p := Ran(p1, Undemanding([t])).0;
  }
}
