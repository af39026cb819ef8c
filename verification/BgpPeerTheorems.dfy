/** Whole runs of a BGP peer, and of two peers that collide. */
module BgpPeerTheorems {
  import opened Sequences
  import opened BgpOpen
  import opened BgpConnection
  import opened BgpConnectionTheory
  import opened BgpPeerSpec
  import opened BgpPeerTheory

  ghost function Played(p: PeerView, steps: seq<PeerStep>): PeerView {
    if steps == [] then p else Stepped(Played(p, steps[..|steps| - 1]), steps[|steps| - 1]).0
  }

  /** No step ends in an error; the controller stops the peer at the first one. */
  ghost predicate LiveRun(p: PeerView, steps: seq<PeerStep>) {
    steps == [] ||
    (LiveRun(p, steps[..|steps| - 1]) && Lives(Stepped(Played(p, steps[..|steps| - 1]), steps[|steps| - 1]).1))
  }

  ghost predicate CoherentThroughout(p: PeerView, steps: seq<PeerStep>) {
    forall k :: 0 <= k <= |steps| ==> Coherent(Played(p, steps[..k]))
  }

  ghost predicate NoStaleStart(p: PeerView, steps: seq<PeerStep>) {
    forall k :: 0 <= k < |steps| ==> !StaleStart(Played(p, steps[..k]), steps[k])
  }

  // ----- Every run

  lemma {:induction false} PlayedBelong(s: Settings, steps: seq<PeerStep>)
    ensures var p := Played(NewPeer(s), steps); ConnectionsBelong(p) && p.settings == s
  {
    hide Stepped, Belongs;
    if steps != [] {
      PlayedBelong(s, steps[..|steps| - 1]);
      SteppedKeeps(Played(NewPeer(s), steps[..|steps| - 1]), steps[|steps| - 1]);
    }
  }

  lemma {:induction false} PlayedNext(p: PeerView, steps: seq<PeerStep>, k: nat)
    requires k < |steps|
    ensures Played(p, steps[..k + 1]) == Stepped(Played(p, steps[..k]), steps[k]).0
    ensures LiveRun(p, steps[..k + 1]) <==> LiveRun(p, steps[..k]) && Lives(Stepped(Played(p, steps[..k]), steps[k]).1)
  {
    hide Stepped;
    assert steps[..k + 1][..k] == steps[..k];
  }

  lemma {:induction false} LivePrefix(p: PeerView, steps: seq<PeerStep>, k: nat)
    requires LiveRun(p, steps) && k <= |steps|
    ensures LiveRun(p, steps[..k])
    decreases |steps|
  {
    hide Stepped;
    if k < |steps| {
      var head := steps[..|steps| - 1];
      LivePrefix(p, head, k);
      assert head[..k] == steps[..k];
    } else {
      assert steps[..k] == steps;
    }
  }

  lemma {:induction false} NewPeerIsCoherent(s: Settings)
    ensures Orderly(NewPeer(s)) && Agrees(NewPeer(s))
  {
  }

  /** As long as a run lives, no main connection is left terminated, and a stopped peer holds nothing. */
  lemma {:induction false} LiveRunsAreOrderly(s: Settings, steps: seq<PeerStep>)
    requires LiveRun(NewPeer(s), steps)
    ensures Orderly(Played(NewPeer(s), steps))
  {
    hide Stepped, Orderly, ConnectionsBelong;
    NewPeerIsCoherent(s);
    if steps != [] {
      var n := |steps| - 1;
      LiveRunsAreOrderly(s, steps[..n]);
      PlayedBelong(s, steps[..n]);
      SteppedKeeps(Played(NewPeer(s), steps[..n]), steps[n]);
    }
  }

  /** A live run comes to an end with an invalid transition exactly if a call polls, finds a collision that drops the
      main connection, and the tracked one is Connected or terminated. No event of a main connection ever does it. */
  lemma {:induction false} InvalidTransitionIff(s: Settings, steps: seq<PeerStep>, step: PeerStep)
    requires LiveRun(NewPeer(s), steps)
    ensures var p := Played(NewPeer(s), steps); Stepped(p, step).1 == InvalidTransition <==> Dooms(p, step)
  {
    hide Stepped, Played, Orderly, ConnectionsBelong;
    LiveRunsAreOrderly(s, steps);
    PlayedBelong(s, steps);
    SteppedKeeps(Played(NewPeer(s), steps), step);
  }

  /** Along every run the published state agrees with the connections, up to the end of the run, if and only if no
      start event reaches the peer while it is idle and still holds a connection. */
  lemma {:induction false} CoherentIffNoStaleStart(s: Settings, steps: seq<PeerStep>)
    requires LiveRun(NewPeer(s), steps)
    ensures CoherentThroughout(NewPeer(s), steps) <==> NoStaleStart(NewPeer(s), steps)
  {
    hide Stepped, Orderly, Agrees, StaleStart, ConnectionsBelong, Played, LiveRun;
    var p := NewPeer(s);
    var good := (k: nat) => k <= |steps| && Coherent(Played(p, steps[..k]));
    var bad := (k: nat) => k < |steps| && StaleStart(Played(p, steps[..k]), steps[k]);
    assert steps[..0] == [] && Played(p, []) == p by { PlayedNothing(p); }
    NewPeerIsCoherent(s);
    forall k: nat | k < |steps| && good(k) ensures good(k + 1) <==> !bad(k) {
      CoherentNext(s, steps, k);
    }
    ThroughoutIff(|steps|, good, bad);
    assert forall k: nat :: k <= |steps| ==> (good(k) <==> Coherent(Played(p, steps[..k])));
    assert forall k: nat :: k < |steps| ==> (bad(k) <==> StaleStart(Played(p, steps[..k]), steps[k]));
  }

  lemma {:induction false} PlayedNothing(p: PeerView)
    ensures Played(p, []) == p
  {
  }

  lemma {:induction false} CoherentNext(s: Settings, steps: seq<PeerStep>, k: nat)
    requires LiveRun(NewPeer(s), steps) && k < |steps| && Coherent(Played(NewPeer(s), steps[..k]))
    ensures Coherent(Played(NewPeer(s), steps[..k + 1])) <==> !StaleStart(Played(NewPeer(s), steps[..k]), steps[k])
  {
    hide Stepped, Orderly, Agrees, StaleStart, ConnectionsBelong, Played, LiveRun;
    LivePrefix(NewPeer(s), steps, k + 1);
    PlayedNext(NewPeer(s), steps, k);
    PlayedBelong(s, steps[..k]);
    SteppedKeeps(Played(NewPeer(s), steps[..k]), steps[k]);
  }

  lemma {:induction false} CoherentAtEnd(p: PeerView, steps: seq<PeerStep>)
    ensures CoherentThroughout(p, steps) ==> Coherent(Played(p, steps))
  {
    hide Coherent, Played;
    assert steps[..|steps|] == steps;
  }

  /** Without an open delay no connection waits in an idle peer, so every run is coherent. */
  lemma {:induction false} CoherentWithoutOpenDelay(s: Settings, steps: seq<PeerStep>)
    requires LiveRun(NewPeer(s), steps) && s.conn.openDelay == 0
    ensures CoherentThroughout(NewPeer(s), steps) && NoStaleStart(NewPeer(s), steps)
  {
    hide Coherent, StaleStart, Played, LiveRun;
    CoherentIffNoStaleStart(s, steps);
    forall k | 0 <= k < |steps| ensures !StaleStart(Played(NewPeer(s), steps[..k]), steps[k]) {
      LivePrefix(NewPeer(s), steps, k);
      CoherentSoFar(s, steps[..k]);
      PlayedBelong(s, steps[..k]);
      NotStaleWithoutOpenDelay(Played(NewPeer(s), steps[..k]), steps[k]);
    }
  }

  lemma {:induction false} CoherentSoFar(s: Settings, steps: seq<PeerStep>)
    requires LiveRun(NewPeer(s), steps) && s.conn.openDelay == 0
    ensures Coherent(Played(NewPeer(s), steps))
  {
    hide Stepped, Orderly, Agrees, StaleStart;
    NewPeerIsCoherent(s);
    if steps != [] {
      var n := |steps| - 1;
      CoherentSoFar(s, steps[..n]);
      PlayedBelong(s, steps[..n]);
      NotStaleWithoutOpenDelay(Played(NewPeer(s), steps[..n]), steps[n]);
      SteppedKeeps(Played(NewPeer(s), steps[..n]), steps[n]);
    }
  }

  lemma {:induction false} NotStaleWithoutOpenDelay(p: PeerView, s: PeerStep)
    requires Coherent(p) && ConnectionsBelong(p) && p.settings.conn.openDelay == 0
    ensures !StaleStart(p, s)
  {
    hide Sound, Armed;
  }

  // ----- Established sessions

  /** What an established session stands for. */
  ghost predicate EarnedSession(s: Settings, c: Conn) {
    && c.sent.open > 0 && c.received.open > 0 && c.sent.keepAlive > 0 && c.received.keepAlive > 0
    && c.peerAsn.Some? && (!s.dynamicAs ==> c.peerAsn == Some(s.peerAsn))
    && c.peerBgpId.Some? && NegotiatedSession(s, c)
  }

  /** The timers of a session that has been confirmed. */
  ghost predicate NegotiatedSession(s: Settings, c: Conn) {
    && c.peerHoldTime.Some?
    && c.holdTime == (if c.peerHoldTime.value < s.conn.holdTime then c.peerHoldTime.value else s.conn.holdTime)
    && (c.holdTime > 0 ==>
          && c.holdTimer == Some(c.holdTime) && c.keepAliveTimer.Some?
          && c.holdTime as real / 4.0 <= c.keepAliveTimer.value <= c.holdTime as real / 3.0)
  }

  lemma {:induction false} JitterBounds(third: real, jitter: real)
    requires third >= 0.0 && 0.75 <= jitter <= 1.0
    ensures third * 0.75 <= Jittered(third, jitter) <= third
  {
  }

  lemma {:induction false} ConfirmedIsNegotiated(s: Settings, c: Conn)
    requires Belongs(s, c) && c.state in {ConnState.OpenConfirm, ConnState.Established}
    ensures NegotiatedSession(s, c)
  {
    hide Jittered, Armed;
    JitterBounds(c.holdTime as real / 3.0, c.jitter);
  }

  lemma {:induction false} EstablishedIsEarned(s: Settings, c: Conn)
    requires Belongs(s, c) && c.state == ConnState.Established
    ensures EarnedSession(s, c)
  {
    hide Armed, TimersNegotiated, NegotiatedSession;
    ConfirmedIsNegotiated(s, c);
  }

  /** In every run, whatever fails, a main connection is established only if both OPENs and both KEEPALIVEs have passed
      on it, with the expected AS, the smaller hold time and timers armed from it; a tracked one never is. */
  lemma {:induction false} EstablishedSessionsAreEarned(s: Settings, steps: seq<PeerStep>)
    ensures var p := Played(NewPeer(s), steps);
      && (p.connection.Some? && p.connection.value.state == ConnState.Established ==>
        EarnedSession(s, p.connection.value))
      && (p.tracked.Some? ==> p.tracked.value.state != ConnState.Established)
  {
    hide Played, Belongs, EarnedSession;
    PlayedBelong(s, steps);
    var p := Played(NewPeer(s), steps);
    if p.connection.Some? && p.connection.value.state == ConnState.Established {
      EstablishedIsEarned(s, p.connection.value);
    }
  }

  /** In every coherent run, a peer that publishes Established holds such a session. */
  lemma {:induction false} PublishedSessionsAreEarned(s: Settings, steps: seq<PeerStep>)
    requires LiveRun(NewPeer(s), steps) && NoStaleStart(NewPeer(s), steps)
    ensures var p := Played(NewPeer(s), steps);
      p.fsm == Fsm.Established ==>
        p.connection.Some? && p.connection.value.state == ConnState.Established && EarnedSession(s, p.connection.value)
  {
    hide Played, EarnedSession, LiveRun, NoStaleStart, CoherentThroughout;
    CoherentIffNoStaleStart(s, steps);
    CoherentAtEnd(NewPeer(s), steps);
    EstablishedSessionsAreEarned(s, steps);
  }

  /** Which timers run on a confirmed connection: those of a positive hold time, those left from an OPEN whose answer
      was lost, and the large hold timer if our OPEN went out first. */
  ghost predicate TimersExact(c: Conn) {
    c.state in {ConnState.OpenConfirm, ConnState.Established} ==>
      && (c.keepAliveTimer.Some? <==> c.holdTime > 0 || c.unanswered)
      && (c.holdTimer.Some? <==> c.holdTime > 0 || c.unanswered || (c.openedFirst && c.config.holdTimeLarge != 0))
      && (c.config.openDelay == 0 ==> c.openedFirst)
  }

  /** In every run, on every connection a peer holds, main or tracked. */
  lemma {:induction false} TimersRunIff(s: Settings, steps: seq<PeerStep>)
    ensures var p := Played(NewPeer(s), steps);
      && (p.connection.Some? ==>
            && TimersExact(p.connection.value)
            && (p.connection.value.state in {ConnState.OpenConfirm, ConnState.Established} ==>
                  NegotiatedSession(s, p.connection.value)))
      && (p.tracked.Some? ==>
            && TimersExact(p.tracked.value)
            && (p.tracked.value.state == ConnState.OpenConfirm ==> NegotiatedSession(s, p.tracked.value)))
  {
    hide Played, Sound, NegotiatedSession;
    PlayedBelong(s, steps);
    var p := Played(NewPeer(s), steps);
    if p.connection.Some? && p.connection.value.state in {ConnState.OpenConfirm, ConnState.Established} {
      ConfirmedIsNegotiated(s, p.connection.value);
    }
    if p.tracked.Some? && p.tracked.value.state == ConnState.OpenConfirm {
      ConfirmedIsNegotiated(s, p.tracked.value);
    }
  }

  // ----- Answers are lost on tracked connections only

  ghost predicate IsAnswered(c: Option<Conn>) {
    c.Some? ==> !c.value.unanswered
  }

  ghost predicate AllAnswered(p: PeerView) {
    IsAnswered(p.connection) && IsAnswered(p.tracked)
  }

  /** No write fails that answers an OPEN of a tracked connection. */
  ghost predicate AnswersTracked(turns: seq<Turn>) {
    forall i ::
      0 <= i < |turns| && turns[i].TrackedTurn? && turns[i].input.Incoming? && turns[i].input.message.Open? ==>
        turns[i].o1.Sent? && turns[i].o2.Sent?
  }

  lemma {:induction false} LostByFailure(c: Conn, e: Event, o1: SendOutcome, o2: SendOutcome)
    requires LostBy(c, e, o1, o2)
    ensures !Handled(c, e, o1, o2).1 && (e.BGPOpen? || e.BGPOpenWithDelayOpenTimer?) && !(o1.Sent? && o2.Sent?)
  {
    hide Handled, Negotiated, Count;
    HandledOpens(c, e, o1, o2);
  }

  lemma {:induction false} PolledOpens(c: Conn, input: Input)
    requires Enabled(c, input)
    ensures var (d, e) := Polled(c, input);
      d.unanswered == c.unanswered && (e.BGPOpen? || e.BGPOpenWithDelayOpenTimer? ==>
        input.Incoming? && input.message.Open?)
  {
  }

  lemma {:induction false} TurnedAnswers(id: nat, fsm: Fsm, q: Polling, t: Turn)
    requires IsAnswered(q.main) && IsAnswered(q.tracked) && AnswersTracked([t])
    ensures var r := Turned(id, fsm, q, t); IsAnswered(r.main) && IsAnswered(r.tracked)
  {
    hide Handled, Polled, Enabled, Count, LostBy;
    assert [t][0] == t;
    match t {
      case MainTurn(input, o) =>
        if q.main.Some? && Enabled(q.main.value, input) {
          PolledOpens(q.main.value, input);
        }
      case TrackedTurn(input, o1, o2) =>
        if q.tracked.Some? && Enabled(q.tracked.value, input) {
          PolledOpens(q.tracked.value, input);
          var (c, e) := Polled(q.tracked.value, input);
          HandledRemembersLoss(c, e, o1, o2);
          if LostBy(c, e, o1, o2) {
            LostByFailure(c, e, o1, o2);
          }
        }
    }
  }

  lemma {:induction false} PollLoopAnswers(id: nat, fsm: Fsm, q: Polling, turns: seq<Turn>)
    requires IsAnswered(q.main) && IsAnswered(q.tracked) && AnswersTracked(turns)
    ensures var r := PollLoop(id, fsm, q, turns); IsAnswered(r.main) && IsAnswered(r.tracked)
    decreases |turns|
  {
    hide Turned, IsAnswered;
    if turns != [] && q.next.None? {
      assert AnswersTracked([turns[0]]) && AnswersTracked(turns[1..]);
      TurnedAnswers(id, fsm, q, turns[0]);
      PollLoopAnswers(id, fsm, Turned(id, fsm, q, turns[0]), turns[1..]);
    }
  }

  lemma {:induction false} HandledMainAnswers(p: PeerView, e: Event, o1: SendOutcome, o2: SendOutcome)
    requires AllAnswered(p) && HandledMain(p, e, o1, o2).1 == Progress
    ensures AllAnswered(HandledMain(p, e, o1, o2).0)
  {
    hide Handled, Reacted, LostBy;
    if p.connection.Some? {
      var c := p.connection.value;
      var d := Handled(c, e, o1, o2).0;
      HandledRemembersLoss(c, e, o1, o2);
      if LostBy(c, e, o1, o2) {
        LostByFailure(c, e, o1, o2);
      }
      ReactedKeepsConnections(p.(connection := Some(d)), c.state, d, e);
    }
  }

  lemma {:induction false} OpenedAnswers(p: PeerView, d: Direction, e: Event, o: Oracle)
    requires AllAnswered(p) && !ComesFromPolling(e)
    ensures AllAnswered(Opened(p, d, e, o).0)
  {
    hide Handled, FreshConn, LostBy;
    var c := FreshConn(p.settings, d, o.jitter);
    FreshIsNew(p.settings, d, o.jitter);
    HandledRemembersLoss(c, e, o.o1, o.o2);
    if LostBy(c, e, o.o1, o.o2) {
      LostByFailure(c, e, o.o1, o.o2);
    }
  }

  lemma {:induction false} SelectedAnswers(p: PeerView, o: Oracle)
    requires AllAnswered(p) && AnswersTracked(o.turns) && Lives(Selected(p, o).1)
    ensures AllAnswered(Selected(p, o).0)
  {
    hide PollLoop, HandledMain, Opened, AnswersTracked;
    PollLoopAnswers(p.settings.myBgpId, p.fsm, Polling(p.connection, p.tracked, false, None), o.turns);
    var q := PolledBy(p, o.turns);
    var r := WithPolled(p, q);
    if q.next.Some? && q.next.value.MainEvent? {
      HandledMainEnds(Asked(r, o), q.next.value.event, o.o1, o.o2);
      HandledMainAnswers(Asked(r, o), q.next.value.event, o.o1, o.o2);
    }
    OpenedAnswers(r.(mayConnect := false), Direction.Active, TcpConnectionRequestAcked, o);
  }

  lemma {:induction false} SteppedAnswers(p: PeerView, s: PeerStep)
    requires AllAnswered(p) && Lives(Stepped(p, s).1) && (s.Run? ==> AnswersTracked(s.oracle.turns))
    ensures AllAnswered(Stepped(p, s).0)
  {
    hide Selected, Opened, Count, AnswersTracked;
    if s.Run? {
      OpenedAnswers(Popped(p), Passive, TcpConnectionConfirmed, s.oracle);
      if p.waiting == [] || Administered(Popped(p), p.waiting[|p.waiting| - 1], s.oracle).1.None? {
        SelectedAnswers(Popped(p), s.oracle);
      }
    }
  }

  lemma {:induction false} AnswersAreNotLost(s: Settings, steps: seq<PeerStep>)
    requires LiveRun(NewPeer(s), steps)
    requires forall i :: 0 <= i < |steps| && steps[i].Run? ==> AnswersTracked(steps[i].oracle.turns)
    ensures var p := Played(NewPeer(s), steps); AllAnswered(p)
  {
    hide Stepped, AnswersTracked;
    if steps != [] {
      var n := |steps| - 1;
      AnswersAreNotLost(s, steps[..n]);
      SteppedAnswers(Played(NewPeer(s), steps[..n]), steps[n]);
    }
  }

  /** In every live run in which no answer to an OPEN on a tracked connection is lost, the keepalive timer of a
      confirmed connection runs exactly if its hold time is not zero, and the hold timer as well unless our OPEN went
      out first. */
  lemma {:induction false} TimersRunIffAnswered(s: Settings, steps: seq<PeerStep>)
    requires LiveRun(NewPeer(s), steps)
    requires forall i :: 0 <= i < |steps| && steps[i].Run? ==> AnswersTracked(steps[i].oracle.turns)
    ensures var p := Played(NewPeer(s), steps);
      p.connection.Some? && p.connection.value.state in {ConnState.OpenConfirm, ConnState.Established} ==>
        var c := p.connection.value;
        && (c.keepAliveTimer.Some? <==> c.holdTime > 0)
        && (c.holdTimer.Some? <==> c.holdTime > 0 || (c.openedFirst && s.conn.holdTimeLarge != 0))
  {
    hide Played, LiveRun, AnswersTracked, Sound;
    AnswersAreNotLost(s, steps);
    PlayedBelong(s, steps);
  }

  lemma {:induction false} ReactedEstablishes(p: PeerView, before: ConnState, c: Conn, e: Event)
    requires p.fsm != Fsm.Established && Reacted(p, before, c, e).0.fsm == Fsm.Established
    ensures before == ConnState.OpenConfirm && e.KeepAliveMsg? && Reacted(p, before, c, e).0.connection == p.connection
  {
    hide ReactedConnected, ReactedOpenSent;
    match before {
      case Connected => ConnectedDoesNotEstablish(p, c, e);
      case OpenSent => OpenSentDoesNotEstablish(p, c, e);
      case OpenConfirm =>
      case Established =>
      case Terminate =>
    }
  }

  lemma {:induction false} ConnectedDoesNotEstablish(p: PeerView, c: Conn, e: Event)
    requires p.fsm != Fsm.Established
    ensures ReactedConnected(p, c, e).0.fsm != Fsm.Established
  {
  }

  lemma {:induction false} OpenSentDoesNotEstablish(p: PeerView, c: Conn, e: Event)
    requires p.fsm != Fsm.Established
    ensures ReactedOpenSent(p, c, e).0.fsm != Fsm.Established
  {
  }

  lemma {:induction false} HandledMainEstablishes(p: PeerView, e: Event, o1: SendOutcome, o2: SendOutcome)
    requires p.connection.Some? && p.fsm != Fsm.Established
    requires HandledMain(p, e, o1, o2).0.fsm == Fsm.Established
    ensures e.KeepAliveMsg? && p.connection.value.state == ConnState.OpenConfirm
    ensures HandledMain(p, e, o1, o2).0.connection == Some(p.connection.value.(state := ConnState.Established))
  {
    hide Reacted, OnConnected, OnOpenSent, OnEstablished;
    var c := p.connection.value;
    var d := Handled(c, e, o1, o2).0;
    ReactedEstablishes(p.(connection := Some(d)), c.state, d, e);
  }

  /** How a session can come to be established: the main connection was waiting in OpenConfirm, and has since taken in
      another KEEPALIVE. */
  ghost predicate ConfirmedByKeepAlive(p: PeerView, q: PeerView) {
    && p.connection.Some? && p.connection.value.state == ConnState.OpenConfirm
    && q.connection.Some? && q.connection.value.state == ConnState.Established
    && q.connection.value.direction == p.connection.value.direction
    && p.connection.value.received.keepAlive < q.connection.value.received.keepAlive
  }

  lemma {:induction false} SelectedEstablishes(p: PeerView, o: Oracle)
    requires ConnectionsBelong(p) && p.fsm != Fsm.Established && Selected(p, o).0.fsm == Fsm.Established
    ensures ConfirmedByKeepAlive(p, Selected(p, o).0)
  {
    hide Belongs, Due, PollLoop, HandledMain, Opened;
    PollingIsGood(p, o.turns);
    var q := PolledBy(p, o.turns);
    var r := WithPolled(p, q);
    if q.next.Some? {
      if q.next.value.MainEvent? {
        HandledMainEstablishes(Asked(r, o), q.next.value.event, o.o1, o.o2);
      }
    } else if o.choice == ConnectDone(true) && p.fsm == Connect && p.mayConnect {
      OpenedDoesNotEstablish(r.(mayConnect := false), Direction.Active, TcpConnectionRequestAcked, o);
    }
  }

  lemma {:induction false} OpenedDoesNotEstablish(p: PeerView, d: Direction, e: Event, o: Oracle)
    requires !ComesFromPolling(e) && p.fsm != Fsm.Established
    ensures Opened(p, d, e, o).0.fsm != Fsm.Established
  {
  }

  lemma {:induction false} SteppedEstablishes(p: PeerView, s: PeerStep)
    requires ConnectionsBelong(p) && p.fsm != Fsm.Established && Stepped(p, s).0.fsm == Fsm.Established
    ensures ConfirmedByKeepAlive(p, Stepped(p, s).0)
  {
    hide Belongs, Selected, Opened, Transmitted;
    match s {
      case Tell(e) =>
      case Relay(k, ot, om) =>
      case Run(o) =>
        if p.waiting == [] {
          SelectedEstablishes(p, o);
        } else {
          var n := |p.waiting| - 1;
          var p1 := p.(waiting := p.waiting[..n]);
          OpenedDoesNotEstablish(p1, Passive, TcpConnectionConfirmed, o);
          if Administered(p1, p.waiting[n], o).1.None? {
            SelectedEstablishes(p1, o);
          }
        }
    }
  }

  /** In every run Established is published only by a KEEPALIVE on a main connection in OpenConfirm: not by a collision,
      not by an administrative event, not by a new connection. */
  lemma {:induction false} OnlyKeepAliveEstablishes(s: Settings, steps: seq<PeerStep>, step: PeerStep)
    requires var p := Played(NewPeer(s), steps); p.fsm != Fsm.Established && Stepped(p, step).0.fsm == Fsm.Established
    ensures var p := Played(NewPeer(s), steps); ConfirmedByKeepAlive(p, Stepped(p, step).0)
  {
    hide Played, Stepped, Belongs, ConfirmedByKeepAlive;
    PlayedBelong(s, steps);
    SteppedEstablishes(Played(NewPeer(s), steps), step);
  }

  /** In every run, whatever fails, every connection a strict peer holds is bound to the configured AS number. */
  lemma {:induction false} AsnIsEnforced(s: Settings, steps: seq<PeerStep>)
    requires !s.dynamicAs
    ensures var p := Played(NewPeer(s), steps);
      && (p.connection.Some? ==> p.connection.value.peerAsn == Some(s.peerAsn))
      && (p.tracked.Some? ==> p.tracked.value.peerAsn == Some(s.peerAsn))
  {
    hide Played, Sound, Armed;
    PlayedBelong(s, steps);
  }

  // ----- Losing a connection

  /** Which losses are counted: all but a version error that was expected, and a TCP failure that was not held against
      the peer. */
  ghost predicate IsCounted(p: PeerView, c: Conn, e: Event) {
    match e
    case NotifMsgVerErr => c.state == ConnState.Established || (c.state == Connected && !c.openDelayTimer)
    case TcpConnectionFails =>
      c.state == ConnState.OpenConfirm || c.state == ConnState.Established || (c.state == Connected
        && p.fsm == Fsm.Active)
    case _ => true
  }

  /** After which losses the peer waits for its retry timer: TCP failures before the OPENs have been exchanged. */
  ghost predicate IsRetried(p: PeerView, c: Conn, e: Event) {
    e.TcpConnectionFails? &&
    (c.state == ConnState.OpenSent || (c.state == Connected && p.fsm == Connect && c.openDelayTimer))
  }

  ghost predicate LostAsExpected(p: PeerView, q: PeerView, c: Conn, e: Event) {
    && q.retryCounter == p.retryCounter + (if IsCounted(p, c, e) then 1 else 0)
    && q.fsm == (if IsRetried(p, c, e) then Fsm.Active else Idle)
    && q.retryTimer == IsRetried(p, c, e)
  }

  lemma {:induction false} ReactedLoses(p: PeerView, c: Conn, d: Conn, e: Event)
    requires p.connection == Some(d) && d.openDelayTimer == c.openDelayTimer && d.state == Terminate && !e.NotifMsgErr?
    requires Reacted(p, c.state, d, e).1 == Progress
    ensures Reacted(p, c.state, d, e).0.connection == None && LostAsExpected(p, Reacted(p, c.state, d, e).0, c, e)
  {
    hide ReactedConnected, ReactedOpenSent, ReactedOpenConfirm, ReactedEstablished;
    match c.state {
      case Connected => ReactedConnectedLoses(p, c, d, e);
      case OpenSent => ReactedOpenSentLoses(p, c, d, e);
      case OpenConfirm => ReactedOpenConfirmLoses(p, c, d, e);
      case Established => ReactedEstablishedLoses(p, c, d, e);
      case Terminate =>
    }
  }

  lemma {:induction false} ReactedOpenConfirmLoses(p: PeerView, c: Conn, d: Conn, e: Event)
    requires c.state == ConnState.OpenConfirm && d.state == Terminate && ReactedOpenConfirm(p, d, e).1 == Progress
    ensures ReactedOpenConfirm(p, d, e).0.connection == None && LostAsExpected(p, ReactedOpenConfirm(p, d, e).0, c, e)
  {
  }

  lemma {:induction false} ReactedEstablishedLoses(p: PeerView, c: Conn, d: Conn, e: Event)
    requires c.state == ConnState.Established && d.state == Terminate && ReactedEstablished(p, d, e).1 == Progress
    ensures ReactedEstablished(p, d, e).0.connection == None && LostAsExpected(p, ReactedEstablished(p, d, e).0, c, e)
  {
  }

  lemma {:induction false} ReactedConnectedLoses(p: PeerView, c: Conn, d: Conn, e: Event)
    requires c.state == Connected && d.openDelayTimer == c.openDelayTimer && d.state == Terminate
    requires ReactedConnected(p, d, e).1 == Progress
    ensures ReactedConnected(p, d, e).0.connection == None && LostAsExpected(p, ReactedConnected(p, d, e).0, c, e)
  {
  }

  lemma {:induction false} ReactedOpenSentLoses(p: PeerView, c: Conn, d: Conn, e: Event)
    requires c.state == ConnState.OpenSent && d.state == Terminate && ReactedOpenSent(p, d, e).1 == Progress
    ensures ReactedOpenSent(p, d, e).0.connection == None && LostAsExpected(p, ReactedOpenSent(p, d, e).0, c, e)
  {
  }

  /** A connection that terminates keeps its delay timer as it was. */
  lemma {:induction false} TerminationKeepsDelayTimer(c: Conn, e: Event, o1: SendOutcome, o2: SendOutcome)
    requires Handled(c, e, o1, o2).0.state == Terminate
    ensures Handled(c, e, o1, o2).0.openDelayTimer == c.openDelayTimer
    ensures c.state != Terminate ==> !e.NotifMsgErr?
  {
    hide Handled, Count, Minimum, Jittered, MyAsn4;
    if OnlyMoves(c, e) {
      HandledMoves(c, e, o1, o2);
      NotificationErrorsAreIgnored(c, e, o1, o2);
    } else {
      HandledOpens(c, e, o1, o2);
    }
  }

  lemma {:induction false} NotificationErrorsAreIgnored(c: Conn, e: Event, o1: SendOutcome, o2: SendOutcome)
    ensures e.NotifMsgErr? ==> Handled(c, e, o1, o2) == (c, true)
  {
  }

  /** When the main connection terminates, the peer drops it, counts the loss and goes on to Idle or Active exactly as
      the cause of the loss demands. */
  lemma {:induction false} LossesAreHandled(p: PeerView, e: Event, o1: SendOutcome, o2: SendOutcome)
    requires p.connection.Some? && p.connection.value.state != Terminate && ComesFromPolling(e)
    requires var r := Handled(p.connection.value, e, o1, o2); r.1 && r.0.state == Terminate
    ensures var (q, r) := HandledMain(p, e, o1, o2);
      r == Progress && q.connection == None && LostAsExpected(p, q, p.connection.value, e)
  {
    hide Handled, Reacted;
    var c := p.connection.value;
    var d := Handled(c, e, o1, o2).0;
    TerminationKeepsDelayTimer(c, e, o1, o2);
    TablesAgree(p.(connection := Some(d)), c, e, o1, o2);
    ReactedLoses(p.(connection := Some(d)), c, d, e);
  }
}
