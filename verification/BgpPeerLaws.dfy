/** Where a BGP peer departs from what its documentation and RFC 4271 promise, and exactly when. */
module BgpPeerLaws {
  import opened Sequences
  import opened BgpOpen
  import opened BgpConnection
  import opened BgpConnectionTheory
  import opened BgpPeerSpec
  import opened BgpPeerTheory
  import opened BgpPeerTheorems

  // ----- A failed connection attempt is not retried

  ghost predicate Stranded(p: PeerView) {
    p.fsm == Connect && !p.mayConnect && !p.retryTimer && p.connection.None?
  }

  /** What gets a stranded peer going again: a stop, or an incoming connection that can be opened. */
  ghost predicate Frees(p: PeerView, s: PeerStep) {
    s.Run? && p.waiting != [] &&
    match p.waiting[|p.waiting| - 1]
    case ManualStop | AutomaticStop => true
    case ConnectionConfirmed => p.adminUp && (p.settings.conn.openDelay == 0 ==> s.oracle.o1.Sent?)
    case _ => false
  }

  lemma {:induction false} NothingIsPolled(id: nat, q: Polling, turns: seq<Turn>)
    requires q.main.None? && q.next.None?
    ensures PollLoop(id, Connect, q, turns) == q
    decreases |turns|
  {
    if turns != [] {
      assert Turned(id, Connect, q, turns[0]) == q;
      NothingIsPolled(id, q, turns[1..]);
    }
  }

  lemma {:induction false} SelectedStaysStranded(p: PeerView, o: Oracle)
    requires Stranded(p)
    ensures Selected(p, o) == (p, Pending)
  {
    hide PollLoop;
    NothingIsPolled(p.settings.myBgpId, Polling(p.connection, p.tracked, false, None), o.turns);
  }

  lemma {:induction false} OpeningSucceedsIff(p: PeerView, o: Oracle)
    requires p.connection.None?
    ensures var (q, r) := Opened(p, Passive, TcpConnectionConfirmed, o);
      && (r == Progress <==> (p.settings.conn.openDelay == 0 ==> o.o1.Sent?))
      && (if r == Progress then q.connection.Some? else q == p.(retryTimer := false))
  {
    hide NewConn, Count;
    FreshIsNew(p.settings, Passive, o.jitter);
  }

  /** A stranded peer stays so at every step that does not free it, and at no other. */
  lemma {:induction false} StrandedUntilFreed(p: PeerView, s: PeerStep)
    requires Stranded(p)
    ensures Stranded(Stepped(p, s).0) <==> !Frees(p, s)
  {
    hide Selected, Opened;
    match s {
      case Tell(e) =>
      case Relay(k, ot, om) =>
      case Run(o) =>
        SelectedStaysStranded(Popped(p), o);
        OpeningSucceedsIff(Popped(p), o);
    }
  }

  ghost predicate StrandedThroughout(p: PeerView, steps: seq<PeerStep>) {
    forall k :: 0 <= k <= |steps| ==> Stranded(Played(p, steps[..k]))
  }

  /** Once an outgoing connection attempt fails, the peer never tries again and never leaves Connect, along every run,
      if and only if no step of the run handles a stop or opens an incoming connection: the retry timer that should have
      repeated the attempt has been cancelled with it. */
  lemma {:induction false} FailedConnectIsNotRetriedIff(p: PeerView, o: Oracle, steps: seq<PeerStep>)
    requires p.fsm == Connect && p.mayConnect && p.connection.None? && p.waiting == [] && o.choice == ConnectDone(false)
    ensures var q := Ran(p, o).0;
      StrandedThroughout(q, steps) <==> forall k :: 0 <= k < |steps| ==> !Frees(Played(q, steps[..k]), steps[k])
  {
    hide Stepped, Frees, Stranded, PollLoop, Played;
    var q := Ran(p, o).0;
    assert Stranded(q) by { FailedConnectStrands(p, o); }
    var good := (k: nat) => k <= |steps| && Stranded(Played(q, steps[..k]));
    var bad := (k: nat) => k < |steps| && Frees(Played(q, steps[..k]), steps[k]);
    assert steps[..0] == [] && Played(q, []) == q by { PlayedNothing(q); }
    forall k: nat | k < |steps| && good(k) ensures good(k + 1) <==> !bad(k) {
      PlayedNext(q, steps, k);
      StrandedUntilFreed(Played(q, steps[..k]), steps[k]);
    }
    ThroughoutIff(|steps|, good, bad);
    assert forall k: nat :: k <= |steps| ==> (good(k) <==> Stranded(Played(q, steps[..k])));
    assert forall k: nat :: k < |steps| ==> (bad(k) <==> Frees(Played(q, steps[..k]), steps[k]));
  }

  lemma {:induction false} FailedConnectStrands(p: PeerView, o: Oracle)
    requires p.fsm == Connect && p.mayConnect && p.connection.None? && p.waiting == [] && o.choice == ConnectDone(false)
    ensures Stranded(Ran(p, o).0)
  {
    hide PollLoop;
    NothingIsPolled(p.settings.myBgpId, Polling(p.connection, p.tracked, false, None), o.turns);
  }

  // ----- A stale start loses the session

  /** A start event that finds the peer idle with a waiting connection arms the retry timer beside it. Its next tick
      takes the connection away while the peer publishes OpenSent. */
  lemma {:induction false} StaleStartLosesSession(p: PeerView, start: Oracle, open: Oracle, tick: Oracle)
    requires p.fsm == Idle && p.waiting == [ManualStart] && p.tracked.None?
    requires p.connection.Some? && p.connection.value.state == Connected && p.connection.value.openDelayTimer
    requires open.turns == [MainTurn(DelayTick, Sent)] && open.o1 == Sent
    requires tick.turns == [] && tick.choice == RetryTick
    ensures var q := Played(p, [Run(start), Run(open), Run(tick)]);
      q.fsm == Fsm.OpenSent && q.connection.None? && !Coherent(q)
  {
    hide Ran;
    StartingBesideConnection(p, start);
    var p1 := Ran(p, start).0;
    OpeningBesideRetryTimer(p1, open);
    var p2 := Ran(p1, open).0;
    TickingInOpenSent(p2, tick);
    PlayedThree(p, Run(start), Run(open), Run(tick));
  }

  lemma {:induction false} StartingBesideConnection(p: PeerView, o: Oracle)
    requires p.fsm == Idle && p.waiting == [ManualStart]
    ensures Ran(p, o).0 == Started(p).(waiting := [])
  {
  }

  lemma {:induction false} OpeningBesideRetryTimer(p: PeerView, o: Oracle)
    requires p.waiting == [] && p.retryTimer && p.tracked.None?
    requires p.connection.Some? && p.connection.value.state == Connected && p.connection.value.openDelayTimer
    requires o.turns == [MainTurn(DelayTick, Sent)] && o.o1 == Sent
    ensures var q := Ran(p, o).0; q.fsm == Fsm.OpenSent && q.retryTimer && q.waiting == []
  {
    hide Count;
    var q := Polling(p.connection, p.tracked, false, None);
    var q' := Turned(p.settings.myBgpId, p.fsm, q, o.turns[0]);
    assert q'.next == Some(MainEvent(DelayOpenTimerExpires));
    assert PollLoop(p.settings.myBgpId, p.fsm, q, o.turns) == q';
  }

  lemma {:induction false} TickingInOpenSent(p: PeerView, o: Oracle)
    requires p.waiting == [] && p.retryTimer && p.fsm == Fsm.OpenSent && o.turns == [] && o.choice == RetryTick
    ensures var q := Ran(p, o).0; q.fsm == Fsm.OpenSent && q.connection.None?
  {
  }

  lemma {:induction false} PlayedThree(p: PeerView, a: PeerStep, b: PeerStep, c: PeerStep)
    ensures Played(p, [a, b, c]) == Stepped(Stepped(Stepped(p, a).0, b).0, c).0
  {
    hide Stepped;
    assert [a, b, c][..2] == [a, b] && [a, b][..1] == [a] && [a][..0] == [];
    assert Played(p, [a]) == Stepped(p, a).0;
    assert Played(p, [a, b]) == Stepped(Stepped(p, a).0, b).0;
  }

  // ----- Such a start is reachable with every open delay

  ghost predicate Reaches(s: Settings, p: PeerView) {
    exists steps :: LiveRun(NewPeer(s), steps) && Played(NewPeer(s), steps) == p
  }

  lemma {:induction false} ReachesNext(s: Settings, p: PeerView, step: PeerStep)
    requires Reaches(s, p) && Lives(Stepped(p, step).1)
    ensures Reaches(s, Stepped(p, step).0)
  {
    hide Stepped, Lives;
    var steps :| LiveRun(NewPeer(s), steps) && Played(NewPeer(s), steps) == p;
    var more := steps + [step];
    assert more[..|more| - 1] == steps;
    assert LiveRun(NewPeer(s), more) && Played(NewPeer(s), more) == Stepped(p, step).0;
  }

  ghost function Undemanding(turns: seq<Turn>): Oracle {
    Oracle(turns, Quiet, Sent, Sent, 1.0, false)
  }

  /** An administrative event is announced to a peer with nothing else to do, and handled. */
  lemma {:induction false} ReachesByEvent(s: Settings, p: PeerView, e: AdminEvent)
    requires Reaches(s, p) && p.waiting == [] && Administered(p, e, Undemanding([])).1 == Some(Progress)
    ensures Reaches(s, Administered(p, e, Undemanding([])).0)
  {
    hide Reaches, Administered;
    var q := p.(waiting := [e]);
    assert p.waiting + [e] == [e];
    ReachesNext(s, p, Tell(e));
    assert q.(waiting := q.waiting[..0]) == p;
    ReachesNext(s, q, Run(Undemanding([])));
  }

  /** Accepting a connection while none is held: it waits for its delay timer. */
  lemma {:induction false} AcceptedConnectionWaits(p: PeerView)
    requires p.adminUp && p.connection.None? && p.fsm != Fsm.Established && p.settings.conn.openDelay != 0
    ensures var (q, r) := Administered(p, ConnectionConfirmed, Undemanding([]));
      && r == Some(Progress) && q == p.(retryTimer := false, connection := q.connection)
      && q.connection.Some? && q.connection.value.state == Connected && q.connection.value.openDelayTimer
  {
  }

  lemma {:induction false} UnexpectedKeepAliveFails(p: PeerView, o: Oracle)
    requires p.waiting == [] && p.tracked.None? && p.connection.Some? && p.connection.value.state == Connected
    requires o.turns == [MainTurn(Incoming(KeepAlive), Sent)] && !o.connectPolled
    ensures Ran(p, o) == (Failed(p), Progress)
  {
    hide Count;
    var q := Polling(p.connection, p.tracked, false, None);
    var q' := Turned(p.settings.myBgpId, p.fsm, q, o.turns[0]);
    assert q'.next == Some(MainEvent(KeepAliveMsg));
    assert PollLoop(p.settings.myBgpId, p.fsm, q, o.turns) == q';
  }

  lemma {:induction false} StaleStartIsReachable(s: Settings) returns (p: PeerView)
    requires s.conn.openDelay != 0
    ensures Reaches(s, p) && StaleStart(p, Run(Undemanding([]))) && Lives(Stepped(p, Run(Undemanding([]))).1)
  {
    hide Reaches, Ran, Opened, NewConn;
    var p0 := NewPeer(s);
    NewPeerIsReached(s);
    ReachesByEvent(s, p0, ManualStart);
    var p1 := Started(p0);
    AcceptedConnectionWaits(p1);
    ReachesByEvent(s, p1, ConnectionConfirmed);
    var p2 := Administered(p1, ConnectionConfirmed, Undemanding([])).0;
    var o := Undemanding([MainTurn(Incoming(KeepAlive), Sent)]);
    UnexpectedKeepAliveFails(p2, o);
    ReachesNext(s, p2, Run(o));
    var p3 := Failed(p2);
    AcceptedConnectionWaits(p3);
    ReachesByEvent(s, p3, ConnectionConfirmed);
    var p4 := Administered(p3, ConnectionConfirmed, Undemanding([])).0;
    assert p4.waiting + [ManualStart] == [ManualStart];
    ReachesNext(s, p4, Tell(ManualStart));
    p := p4.(waiting := [ManualStart]);
    StartLives(p);
  }

  lemma {:induction false} NewPeerIsReached(s: Settings)
    ensures Reaches(s, NewPeer(s))
  {
    assert LiveRun(NewPeer(s), []) && Played(NewPeer(s), []) == NewPeer(s);
  }

  lemma {:induction false} StartLives(p: PeerView)
    requires p.fsm == Idle && p.waiting == [ManualStart]
    ensures Lives(Ran(p, Undemanding([])).1)
  {
  }

  ghost predicate AlwaysCoherent(s: Settings) {
    forall steps :: LiveRun(NewPeer(s), steps) ==> CoherentThroughout(NewPeer(s), steps)
  }

  /** All runs of a peer are coherent if and only if it is configured without an open delay. */
  lemma {:induction false} AlwaysCoherentIffNoOpenDelay(s: Settings)
    ensures AlwaysCoherent(s) <==> s.conn.openDelay == 0
  {
    hide LiveRun, Played, CoherentThroughout, NoStaleStart, StaleStart, Lives, Stepped;
    if s.conn.openDelay == 0 {
      forall steps | LiveRun(NewPeer(s), steps) ensures CoherentThroughout(NewPeer(s), steps) {
        CoherentWithoutOpenDelay(s, steps);
      }
    } else {
      var p := StaleStartIsReachable(s);
      StaleStartRunIsIncoherent(s, p);
    }
  }

  lemma {:induction false} StaleStartRunIsIncoherent(s: Settings, p: PeerView)
    requires Reaches(s, p) && StaleStart(p, Run(Undemanding([]))) && Lives(Stepped(p, Run(Undemanding([]))).1)
    ensures !AlwaysCoherent(s)
  {
    hide StaleStart, Lives, Stepped, CoherentThroughout;
    var step := Run(Undemanding([]));
    var steps :| LiveRun(NewPeer(s), steps) && Played(NewPeer(s), steps) == p;
    var more := steps + [step];
    assert more[..|more| - 1] == steps;
    assert LiveRun(NewPeer(s), more);
    assert more[|steps|] == step && StaleStart(Played(NewPeer(s), more[..|steps|]), more[|steps|]);
    CoherentIffNoStaleStart(s, more);
    assert !CoherentThroughout(NewPeer(s), more);
  }

  // ----- A passive peer waits

  ghost predicate IsPassive(c: Option<Conn>) {
    c.Some? ==> c.value.direction == Passive
  }

  ghost predicate Waits(p: PeerView) {
    p.settings.passiveTcp && p.fsm != Connect && IsPassive(p.connection) && IsPassive(p.tracked)
  }

  lemma {:induction false} TurnedKeepsDirections(id: nat, fsm: Fsm, q: Polling, t: Turn)
    requires IsPassive(q.main) && IsPassive(q.tracked)
    ensures var r := Turned(id, fsm, q, t); IsPassive(r.main) && IsPassive(r.tracked)
  {
    hide Handled, Count, MyAsn4, MessageEvent;
    if t.TrackedTurn? && q.tracked.Some? && Enabled(q.tracked.value, t.input) {
      var (c, e) := Polled(q.tracked.value, t.input);
      HandledKeepsIdentity(c, e, t.o1, t.o2);
    }
  }

  lemma {:induction false} PollLoopKeepsDirections(id: nat, fsm: Fsm, q: Polling, turns: seq<Turn>)
    requires IsPassive(q.main) && IsPassive(q.tracked)
    ensures var r := PollLoop(id, fsm, q, turns); IsPassive(r.main) && IsPassive(r.tracked)
    decreases |turns|
  {
    hide Turned, IsPassive;
    if turns != [] && q.next.None? {
      TurnedKeepsDirections(id, fsm, q, turns[0]);
      PollLoopKeepsDirections(id, fsm, Turned(id, fsm, q, turns[0]), turns[1..]);
    }
  }

  lemma {:induction false} ReactedKeepsWaiting(p: PeerView, before: ConnState, c: Conn, e: Event)
    requires p.fsm != Connect
    ensures Reacted(p, before, c, e).0.fsm != Connect
  {
    hide ReactedConnected, ReactedOpenSent;
    match before {
      case Connected => ReactedConnectedKeepsWaiting(p, c, e);
      case OpenSent => ReactedOpenSentKeepsWaiting(p, c, e);
      case OpenConfirm =>
      case Established =>
      case Terminate =>
    }
  }

  lemma {:induction false} ReactedConnectedKeepsWaiting(p: PeerView, c: Conn, e: Event)
    requires p.fsm != Connect
    ensures ReactedConnected(p, c, e).0.fsm != Connect
  {
  }

  lemma {:induction false} ReactedOpenSentKeepsWaiting(p: PeerView, c: Conn, e: Event)
    requires p.fsm != Connect
    ensures ReactedOpenSent(p, c, e).0.fsm != Connect
  {
  }

  lemma {:induction false} HandledMainKeepsWaiting(p: PeerView, e: Event, o1: SendOutcome, o2: SendOutcome)
    requires Waits(p)
    ensures Waits(HandledMain(p, e, o1, o2).0)
  {
    hide Handled, Reacted;
    if p.connection.Some? {
      var c := p.connection.value;
      var d := Handled(c, e, o1, o2).0;
      HandledKeepsIdentity(c, e, o1, o2);
      ReactedKeepsWaiting(p.(connection := Some(d)), c.state, d, e);
      ReactedKeepsConnections(p.(connection := Some(d)), c.state, d, e);
    }
  }

  lemma {:induction false} SelectedKeepsWaiting(p: PeerView, o: Oracle)
    requires Waits(p) && !o.choice.RetryTick?
    ensures Waits(Selected(p, o).0)
  {
    hide PollLoop, HandledMain, Opened;
    PollLoopKeepsDirections(p.settings.myBgpId, p.fsm, Polling(p.connection, p.tracked, false, None), o.turns);
    var q := PolledBy(p, o.turns);
    if q.next.Some? && q.next.value.MainEvent? {
      HandledMainKeepsWaiting(Asked(WithPolled(p, q), o), q.next.value.event, o.o1, o.o2);
    }
  }

  lemma {:induction false} AcceptingKeepsWaiting(p: PeerView, o: Oracle)
    requires Waits(p)
    ensures Waits(Opened(p, Passive, TcpConnectionConfirmed, o).0)
  {
    hide Handled;
    HandledKeepsIdentity(FreshConn(p.settings, Passive, o.jitter), TcpConnectionConfirmed, o.o1, o.o2);
  }

  lemma {:induction false} AdministeredKeepsWaiting(p: PeerView, e: AdminEvent, o: Oracle)
    requires Waits(p)
    ensures Waits(Administered(p, e, o).0)
  {
    hide Opened;
    AcceptingKeepsWaiting(p, o);
  }

  lemma {:induction false} SteppedKeepsWaiting(p: PeerView, s: PeerStep)
    requires Waits(p) && !(s.Run? && s.oracle.choice.RetryTick?)
    ensures Waits(Stepped(p, s).0)
  {
    hide Selected, Administered, Count;
    if s.Run? {
      if p.waiting == [] {
        SelectedKeepsWaiting(p, s.oracle);
      } else {
        var n := |p.waiting| - 1;
        var p1 := p.(waiting := p.waiting[..n]);
        AdministeredKeepsWaiting(p1, p.waiting[n], s.oracle);
        SelectedKeepsWaiting(Administered(p1, p.waiting[n], s.oracle).0, s.oracle);
      }
    }
  }

  /** Until its retry timer ticks for the first time, a passive peer never tries to connect: every connection it holds
      was opened by the other side. */
  lemma {:induction false} PassivePeersWait(s: Settings, steps: seq<PeerStep>)
    requires s.passiveTcp
    requires forall i :: 0 <= i < |steps| && steps[i].Run? ==> !steps[i].oracle.choice.RetryTick?
    ensures Waits(Played(NewPeer(s), steps))
  {
    hide Stepped;
    if steps != [] {
      PassivePeersWait(s, steps[..|steps| - 1]);
      SteppedKeepsWaiting(Played(NewPeer(s), steps[..|steps| - 1]), steps[|steps| - 1]);
    }
  }

  // ----- OPENs of one speaker seen by another

  /** A strict peer configured with a speaker's AS number accepts every OPEN its policy builds, whatever it has learned,
      exactly if the speaker's configured capabilities do not end with another four-octet AS number. */
  lemma {:induction false} StrictPeerAcceptsIff(p: Echo, opens: seq<OpenMessage>, delayTimerRunning: bool)
    requires p.peerCapabilities == []
    ensures OpenEvent(OpenOf(LearnedAll(p, opens)), Some(p.myAsn), delayTimerRunning) != BGPOpenMsgErr <==>
            LastAsn4(p.capabilities) == None || LastAsn4(p.capabilities) == Some(p.myAsn)
  {
    AsnRoundTripsIff(p, opens);
  }
}
