/** What single calls of a peer's run loop do, and what follows from a few of them in a row. */
module BgpPeerCalls {
  import opened Sequences
  import opened BgpOpen
  import opened BgpConnection
  import opened BgpConnectionTheory
  import opened BgpConnectionLaws
  import opened BgpPeerSpec
  import opened BgpPeerTheory
  import opened BgpPeerTheorems
  import opened BgpPeerLaws
  import opened BgpCollision
  import opened BgpTracked

  /** No turn of the polling loop ends it, so the call waits for what completes first. */
  ghost predicate Waits(p: PeerView, o: Oracle) {
    Ignores(p) && !exists k :: EndsAt(p, o.turns, k)
  }

  /** A peer without a main connection always waits. */
  lemma {:induction false} NoMainWaits(p: PeerView, o: Oracle)
    requires Ignores(p) && p.connection.None?
    ensures Waits(p, o)
  {
    hide PollLoop, SetsAside, Ignores, Enabled;
    forall k: nat ensures !EndsAt(p, o.turns, k) {
      if k < |o.turns| {
        SlotsStay(p.settings.myBgpId, p.fsm, Unpolled(p), o.turns[..k]);
      }
    }
  }

  lemma {:induction false} WaitingCompletes(p: PeerView, o: Oracle)
    requires Waits(p, o)
    ensures var q := PolledBy(p, o.turns);
      && Ran(p, o) == Completed(Popped(p).(connection := q.main, tracked := q.tracked), o)
      && (p.connection.Some? <==> q.main.Some?) && (p.tracked.Some? <==> q.tracked.Some?)
  {
    hide PollLoop, Completed, EndsAt, Ran, Ignores;
    RanPolls(p, o);
    PoppedIsSame(p, o.turns);
    LoopEndsIff(p, o.turns);
    SlotsStay(p.settings.myBgpId, p.fsm, Unpolled(p), o.turns);
  }

  // ----- The retry timer

  /** A tick of the retry timer takes the main connection away and leaves the timer running. A peer that is Active goes
      on to Connect; one in Connect may try to connect again, any other may not. */
  lemma {:induction false} TickRetries(p: PeerView, o: Oracle)
    requires Waits(p, o) && p.retryTimer && o.choice == RetryTick
    ensures var (q, r) := Ran(p, o);
      && r == Progress && q.connection == None && q.retryTimer
      && q.fsm == (if p.fsm == Fsm.Active then Connect else p.fsm)
      && q.mayConnect == (p.fsm == Fsm.Active || p.fsm == Connect)
      && q.tracked == PolledBy(p, o.turns).tracked
      && q.settings == p.settings && q.adminUp == p.adminUp && q.retryCounter == p.retryCounter
      && q.waiting == Popped(p).waiting
  {
    hide PollLoop, Waits, Ran, PolledBy;
    WaitingCompletes(p, o);
  }

  // ----- Connecting

  /** A new connection as it is added: our OPEN has been sent, or waits for the delay timer. */
  ghost predicate IsNew(s: Settings, c: Conn, d: Direction) {
    && c.direction == d && c.config == s.conn && c.peerBgpId == None && c.received == NO_MESSAGES
    && c.peerAsn == (if s.dynamicAs then None else Some(s.peerAsn))
    && c.state == (if s.conn.openDelay == 0 then ConnState.OpenSent else Connected)
    && c.openDelayTimer == (s.conn.openDelay > 0)
  }

  /** Opening fails exactly if our OPEN should go out at once and cannot be written. */
  ghost predicate CanOpen(s: Settings, o: Oracle) {
    s.conn.openDelay > 0 || o.o1.Sent?
  }

  /** A connection that is opened is main if there is none, else tracked; it stops the retry timer either way. */
  ghost predicate HasOpened(p: PeerView, q: PeerView, r: Outcome, d: Direction, o: Oracle) {
    && !q.retryTimer && q.settings == p.settings && q.adminUp == p.adminUp && q.retryCounter == p.retryCounter
    && if !CanOpen(p.settings, o) then
         r == WriteError && q.connection == p.connection && q.tracked == p.tracked && q.fsm == p.fsm
       else if p.connection.None? then
         && r == Progress && q.connection.Some? && IsNew(p.settings, q.connection.value, d) && q.tracked == p.tracked
         && q.fsm == (if p.settings.conn.openDelay == 0 then Fsm.OpenSent else p.fsm)
       else
         && r == Progress && q.tracked.Some? && IsNew(p.settings, q.tracked.value, d) && q.connection == p.connection
         && q.fsm == p.fsm
  }

  lemma {:induction false} OpenedOpens(p: PeerView, d: Direction, e: Event, o: Oracle)
    requires e == TcpConnectionRequestAcked || e == TcpConnectionConfirmed
    ensures var (q, r) := Opened(p, d, e, o);
      HasOpened(p, q, r, d, o) && q.mayConnect == p.mayConnect && q.waiting == p.waiting
  {
    hide Count;
  }

  /** An outgoing attempt that succeeds opens a connection of our own; one that fails stops the retry timer. Either way
      the permission is used up. */
  lemma {:induction false} AttemptOpens(p: PeerView, o: Oracle)
    requires Waits(p, o) && p.fsm == Connect && p.mayConnect && o.choice.ConnectDone?
    ensures var polled := PolledBy(p, o.turns);
      var before := Popped(p).(connection := polled.main, tracked := polled.tracked);
      var (q, r) := Ran(p, o);
      && !q.mayConnect && q.waiting == before.waiting
      && (o.choice.connected ==> HasOpened(before, q, r, Direction.Active, o))
      && (!o.choice.connected ==> r == Progress && q == before.(mayConnect := false, retryTimer := false))
  {
    hide PollLoop, Waits, Ran, PolledBy, Opened, HasOpened;
    WaitingCompletes(p, o);
    var polled := PolledBy(p, o.turns);
    var before := Popped(p).(connection := polled.main, tracked := polled.tracked);
    OpenedOpens(before.(mayConnect := false), Direction.Active, TcpConnectionRequestAcked, o);
    OpenedRegardless(before, Direction.Active, o);
  }

  lemma {:induction false} OpenedRegardless(p: PeerView, d: Direction, o: Oracle)
    ensures forall q, r :: HasOpened(p.(mayConnect := false), q, r, d, o) <==> HasOpened(p, q, r, d, o)
  {
  }

  /** The permission to connect lasts until the attempt is begun: a call that polls it and ends otherwise than by a tick
      uses it up, and without it no attempt completes. */
  lemma {:induction false} PermissionIsUsed(p: PeerView, o: Oracle)
    requires Waits(p, o) && !(o.choice == RetryTick && p.retryTimer)
    ensures p.fsm == Connect && o.connectPolled ==> !Ran(p, o).0.mayConnect
    ensures !p.mayConnect ==> !Ran(p, o).0.mayConnect && Ran(p, o).1 == Pending
  {
    hide PollLoop, Waits, Ran, PolledBy, Opened, HasOpened;
    WaitingCompletes(p, o);
    var polled := PolledBy(p, o.turns);
    var before := Popped(p).(connection := polled.main, tracked := polled.tracked);
    OpenedOpens(before.(mayConnect := false), Direction.Active, TcpConnectionRequestAcked, o);
  }

  // ----- Losses are retried

  /** In turn `k` the transport of the main connection is found lost, before the OPENs have been exchanged. */
  ghost predicate LosesAt(p: PeerView, turns: seq<Turn>, k: nat) {
    EndsAt(p, turns, k) &&
    var q, t := PolledBy(p, turns[..k]), turns[k];
    !Finds(p.fsm, q, t) && t.MainTurn? && q.main.Some? && IsLoss(t.input) &&
    (|| q.main.value.state == ConnState.OpenSent
     || (q.main.value.state == Connected && p.fsm == Connect && q.main.value.openDelayTimer))
  }

  lemma {:induction false} LostMain(p: PeerView, o: Oracle)
    requires p.connection.Some?
    requires var c := p.connection.value;
      c.state == ConnState.OpenSent || (c.state == Connected && p.fsm == Connect && c.openDelayTimer)
    ensures HandledMain(p, TcpConnectionFails, o.o1, o.o2) ==
      (p.(connection := None, retryTimer := true, fsm := Fsm.Active), Progress)
  {
    hide Count, Negotiated, OpenFirst, Answered, AnsweredWithOpen;
  }

  lemma {:induction false} LosingTurn(id: nat, fsm: Fsm, q: Polling, t: Turn)
    requires q.next.None? && q.main.Some? && t.MainTurn? && IsLoss(t.input) && !Finds(fsm, q, t) && !SetsAside(q, t)
    ensures Turned(id, fsm, q, t) == q.(next := Some(MainEvent(TcpConnectionFails)))
  {
    hide MyAsn4, Count;
  }

  /** Then the call ends in Active, without a main connection and with the retry timer armed, and the loss is not
      counted. */
  lemma {:induction false} LossWaitsForRetry(p: PeerView, o: Oracle, k: nat)
    requires Ignores(p) && LosesAt(p, o.turns, k)
    ensures var (q, r) := Ran(p, o);
      && r == Progress && q.connection == None && q.fsm == Fsm.Active && q.retryTimer
      && q.settings == p.settings && q.adminUp == p.adminUp && q.retryCounter == p.retryCounter
  {
    hide PollLoop, Ran, Ignores, Turned, HandledMain, Finds, Ready, SetsAside, IsLoss;
    var id, q := p.settings.myBgpId, PolledBy(p, o.turns[..k]);
    LosingTurn(id, p.fsm, q, o.turns[k]);
    LoopEndsAt(p, o.turns, k);
    RanPolls(p, o);
    PoppedIsSame(p, o.turns);
    LostMain(Asked(WithPolled(Popped(p), q), o), o);
  }

  /** After every loss that is retried, a tick and a successful attempt give a main connection that we opened, whether
      the peer is passive or not, whatever its tracked connection does meanwhile. */
  lemma {:induction false} LossIsRetried(p: PeerView, o: Oracle, k: nat, tick: Oracle, attempt: Oracle)
    requires Ignores(p) && LosesAt(p, o.turns, k)
    requires Ignores(Ran(p, o).0) && tick.choice == RetryTick
    requires Ignores(Ran(Ran(p, o).0, tick).0) && attempt.choice == ConnectDone(true) && CanOpen(p.settings, attempt)
    ensures var q := Ran(Ran(p, o).0, tick).0;
      var (end, r) := Ran(q, attempt);
      && q.fsm == Connect && q.mayConnect && q.retryTimer
      && r == Progress && end.connection.Some? && IsNew(p.settings, end.connection.value, Direction.Active)
  {
    hide Ran, Ignores, LosesAt, Waits, IsNew, CanOpen, PolledBy, PollLoop;
    LossWaitsForRetry(p, o, k);
    var lost := Ran(p, o).0;
    NoMainWaits(lost, tick);
    TickRetries(lost, tick);
    var q := Ran(lost, tick).0;
    NoMainWaits(q, attempt);
    AttemptOpens(q, attempt);
    WaitingCompletes(q, attempt);
  }

  // ----- Turns that go on

  /** A turn with nothing to poll changes nothing. A tracked connection is driven by what is polled from it. One that is
      set aside is sent a NOTIFICATION, whether that gets through or not. */
  lemma {:induction false} TurnGoesOn(id: nat, fsm: Fsm, q: Polling, t: Turn, k: Kind)
    requires q.next.None?
    ensures !Ready(fsm, q, t) ==> Turned(id, fsm, q, t) == q
    ensures Ready(fsm, q, t) && t.TrackedTurn? && !Finds(fsm, q, t) && !SetsAside(q, t) ==>
      Turned(id, fsm, q, t) == q.(tracked := Some(TrackedAfter(q, t)))
    ensures Ready(fsm, q, t) && SetsAside(q, t) ==>
      var r := Turned(id, fsm, q, t);
      && r.main == Some(MainAfter(q, t)) && r.hidden && r.next.None? && r.tracked.Some?
      && r.tracked.value == TrackedAfter(q, t).(sent := r.tracked.value.sent)
      && Tally(r.tracked.value.sent, k) ==
           Tally(TrackedAfter(q, t).sent, k) +
           (if k == NotificationKind then Counted(if t.MainTurn? then t.o else t.o1) else 0)
  {
    hide Polled, Handled, Enabled, Transmitted, Tally;
    match t {
      case MainTurn(input, o) =>
        if q.main.Some? && Enabled(q.main.value, input) {
          PolledId(q.main.value, input);
        }
        if q.tracked.Some? {
          TransmittedTallies(q.tracked.value, NotificationKind, o, k);
        }
      case TrackedTurn(input, o1, o2) =>
        if q.tracked.Some? && Enabled(q.tracked.value, input) {
          DrivenId(q.tracked.value, input, o1, o2);
          TransmittedTallies(TrackedAfter(q, t), NotificationKind, o1, k);
        }
    }
  }

  // ----- Other input of the main connection

  /** What happens to a connection that survives an input: the peer publishes its state if that is a new one, and when
      the OPENs have been exchanged it stops the retry timer. */
  ghost function Survived(p: PeerView, before: ConnState, c: Conn): PeerView {
    var q := p.(connection := Some(c));
    if c.state == before || Named(c.state).None? then q
    else q.(fsm := Named(c.state).value, retryTimer := p.retryTimer && c.state != ConnState.OpenConfirm)
  }

  lemma {:induction false} ConnectedSurvives(p: PeerView, c: Conn, e: Event, o1: SendOutcome, o2: SendOutcome)
    requires c.state == Connected && ComesFromPolling(e)
    requires var (d, ok) := OnConnected(c, e, o1, o2); ok && d.state != Terminate && p.connection == Some(d)
    ensures var d := OnConnected(c, e, o1, o2).0; ReactedConnected(p, d, e) == (Survived(p, c.state, d), Progress)
  {
    hide Count, Minimum, Jittered, MyAsn4, Failed, Dropped, Retrying;
  }

  lemma {:induction false} OpenSentSurvives(p: PeerView, c: Conn, e: Event, o1: SendOutcome)
    requires c.state == ConnState.OpenSent && ComesFromPolling(e)
    requires var (d, ok) := OnOpenSent(c, e, o1); ok && d.state != Terminate && p.connection == Some(d)
    ensures var d := OnOpenSent(c, e, o1).0; ReactedOpenSent(p, d, e) == (Survived(p, c.state, d), Progress)
  {
    hide Count, Minimum, Jittered, MyAsn4, Failed, Dropped, Retrying;
  }

  lemma {:induction false} OpenConfirmSurvives(p: PeerView, c: Conn, e: Event, o1: SendOutcome)
    requires c.state == ConnState.OpenConfirm && ComesFromPolling(e)
    requires var (d, ok) := OnOpenConfirm(c, e, o1); ok && d.state != Terminate && p.connection == Some(d)
    ensures var d := OnOpenConfirm(c, e, o1).0; ReactedOpenConfirm(p, d, e) == (Survived(p, c.state, d), Progress)
  {
    hide Count, Failed, Dropped;
  }

  lemma {:induction false} EstablishedSurvives(p: PeerView, c: Conn, e: Event, o1: SendOutcome)
    requires c.state == ConnState.Established && ComesFromPolling(e)
    requires var (d, ok) := OnEstablished(c, e, o1); ok && d.state != Terminate && p.connection == Some(d)
    ensures var d := OnEstablished(c, e, o1).0; ReactedEstablished(p, d, e) == (Survived(p, c.state, d), Progress)
  {
    hide Count, Failed, Dropped;
  }

  lemma {:induction false} MainSurvives(p: PeerView, c: Conn, e: Event, o1: SendOutcome, o2: SendOutcome)
    requires c.state != Terminate && ComesFromPolling(e)
    requires var (d, ok) := Handled(c, e, o1, o2); ok && d.state != Terminate && p.connection == Some(d)
    ensures var d := Handled(c, e, o1, o2).0; Reacted(p, c.state, d, e) == (Survived(p, c.state, d), Progress)
  {
    hide OnConnected, OnOpenSent, OnOpenConfirm, OnEstablished, Survived;
    hide ReactedConnected, ReactedOpenSent, ReactedOpenConfirm, ReactedEstablished;
    match c.state {
      case Connected => ConnectedSurvives(p, c, e, o1, o2);
      case OpenSent => OpenSentSurvives(p, c, e, o1);
      case OpenConfirm => OpenConfirmSurvives(p, c, e, o1);
      case Established => EstablishedSurvives(p, c, e, o1);
    }
  }

  /** Turn `k` yields something on the main connection that the call acts upon. */
  ghost predicate ActsAt(p: PeerView, turns: seq<Turn>, k: nat) {
    EndsAt(p, turns, k) && !Finds(p.fsm, PolledBy(p, turns[..k]), turns[k])
  }

  lemma {:induction false} ActingTurn(p: PeerView, turns: seq<Turn>, k: nat)
    requires ActsAt(p, turns, k)
    ensures var q, t := PolledBy(p, turns[..k]), turns[k];
      && t.MainTurn? && q.main.Some? && Enabled(q.main.value, t.input)
      && var (c, e) := Polled(q.main.value, t.input);
      PolledBy(p, turns) == q.(main := Some(c), next := Some(MainEvent(e)))
  {
    hide PollLoop, Polled, Enabled;
    var q, t := PolledBy(p, turns[..k]), turns[k];
    NoticedIff(p.settings.myBgpId, p.fsm, q, t);
    LoopEndsAt(p, turns, k);
  }

  /** What a call does with an input of the main connection, in the terms of that input: a failed write that is reported
      ends the call, with everything else as it was. A connection that ends is dropped, counted and retried as its loss
      demands. One that survives is kept. */
  lemma {:induction false} MainInputIsHandled(p: PeerView, o: Oracle, k: nat)
    requires Ignores(p) && ActsAt(p, o.turns, k)
    requires PolledBy(p, o.turns[..k]).main.Some? && PolledBy(p, o.turns[..k]).main.value.state != Terminate
    ensures var polled, d := PolledBy(p, o.turns[..k]), Drive(o.turns[k].input, o.o1, o.o2);
      var c := polled.main.value;
      && Enabled(c, d.input)
      && var before := Asked(Popped(p).(connection := polled.main, tracked := polled.tracked), o);
      var n := Driven(c, d).0;
      var (q, r) := Ran(p, o);
      if IsReported(c, d) then r == WriteError && q == before.(connection := Some(n))
      else if NextState(c, d) == Terminate then
        && r == Progress && q.connection == None && q.tracked == before.tracked
        && LostAsExpected(before, q, c, Polled(c, d.input).1)
      else r == Progress && q == Survived(before, c.state, n)
  {
    hide Ran, Ignores, PollLoop, Handled, Polled, Enabled, IsReported, NextState, Reacted, LostAsExpected;
    hide Survived, Finds, Ready, SetsAside;
    var polled, d := PolledBy(p, o.turns[..k]), Drive(o.turns[k].input, o.o1, o.o2);
    var c := polled.main.value;
    ActingTurn(p, o.turns, k);
    RanPolls(p, o);
    PoppedIsSame(p, o.turns);
    InputsAreAnswered(c, d, OpenKind);
    PolledEvent(c, d.input);
    PolledKeepsRest(c, d.input);
    var (m, e) := Polled(c, d.input);
    var r := Asked(WithPolled(Popped(p), PolledBy(p, o.turns)), o);
    var (n, ok) := Handled(m, e, o.o1, o.o2);
    if ok {
      if n.state == Terminate {
        LossesAreHandled(r, e, o.o1, o.o2);
        HandledMainKeepsTracked(r, e, o.o1, o.o2);
        SameLoss(Asked(Popped(p).(connection := polled.main, tracked := polled.tracked), o), r, c, m, e);
      } else {
        MainSurvives(r.(connection := Some(n)), m, e, o.o1, o.o2);
        SurvivedRegardless(r, n, m.state);
      }
    }
  }

  lemma {:induction false} SurvivedRegardless(p: PeerView, c: Conn, before: ConnState)
    ensures forall d :: Survived(p.(connection := d), before, c) == Survived(p, before, c)
  {
  }

  /** The delay timer of the connection is all a tick of it changes, and no loss depends on that. */
  lemma {:induction false} SameLoss(p: PeerView, r: PeerView, c: Conn, m: Conn, e: Event)
    requires p.retryCounter == r.retryCounter && p.fsm == r.fsm && c.state == m.state
    requires e.DelayOpenTimerExpires? || c.openDelayTimer == m.openDelayTimer
    ensures forall q :: LostAsExpected(r, q, m, e) <==> LostAsExpected(p, q, c, e)
  {
  }

  // ----- Administrative events

  ghost predicate Next(p: PeerView, e: AdminEvent) {
    p.waiting != [] && p.waiting[|p.waiting| - 1] == e
  }

  ghost predicate IsStart(e: AdminEvent) {
    e == ManualStart || e == AutomaticStart
  }

  /** The event that was told last is handled first. A start finds an idle peer and arms its retry timer; a passive peer
      waits in Active, any other goes to Connect and may connect. */
  lemma {:induction false} StartsWhenIdle(p: PeerView, e: AdminEvent, o: Oracle)
    requires IsStart(e) && Next(p, e) && p.fsm == Idle
    ensures var (q, r) := Ran(p, o);
      && r == Progress && q.adminUp && q.retryTimer && q.retryCounter == 0
      && q.fsm == (if p.settings.passiveTcp then Fsm.Active else Connect)
      && q.mayConnect == (p.mayConnect || !p.settings.passiveTcp)
      && q.connection == p.connection && q.tracked == p.tracked && q.settings == p.settings
      && q.waiting == p.waiting[..|p.waiting| - 1]
  {
  }

  /** A stop drops everything in every state; a manual one resets the retry counter, an automatic one counts. */
  lemma {:induction false} StopsAlways(p: PeerView, e: AdminEvent, o: Oracle)
    requires (e == ManualStop || e == AutomaticStop) && Next(p, e)
    ensures var (q, r) := Ran(p, o);
      && r == Progress && !q.adminUp && !q.retryTimer && q.fsm == Idle && q.connection == None && q.tracked == None
      && q.retryCounter == (if e == ManualStop then 0 else p.retryCounter + 1)
      && q.settings == p.settings && q.waiting == p.waiting[..|p.waiting| - 1]
  {
  }

  /** An incoming connection is opened exactly if the peer is up, has room for it, and is not Established, unless it is
      configured to look for collisions there; else the call goes on as if there had been none. */
  lemma {:induction false} IncomingIsOpenedIff(p: PeerView, o: Oracle)
    requires Next(p, ConnectionConfirmed)
    ensures var before := p.(waiting := p.waiting[..|p.waiting| - 1]);
      var (q, r) := Ran(p, o);
      if && p.adminUp && (p.connection.None? || p.tracked.None?)
         && (p.fsm == Fsm.Established ==> p.settings.collisionDetectEstablished)
      then HasOpened(before, q, r, Passive, o) && q.mayConnect == p.mayConnect && q.waiting == before.waiting
      else Ran(p, o) == Selected(before, o)
  {
    hide Selected, Opened, HasOpened;
    OpenedOpens(p.(waiting := p.waiting[..|p.waiting| - 1]), Passive, TcpConnectionConfirmed, o);
  }

  /** A started active peer gets a connection of its own by its first successful attempt. */
  lemma {:induction false} StartedPeersConnect(p: PeerView, e: AdminEvent, o: Oracle, attempt: Oracle)
    requires IsStart(e) && Next(p, e) && p.fsm == Idle && p.connection.None? && !p.settings.passiveTcp
    requires Ignores(Ran(p, o).0) && attempt.choice == ConnectDone(true) && CanOpen(p.settings, attempt)
    ensures var (end, r) := Ran(Ran(p, o).0, attempt);
      r == Progress && end.connection.Some? && IsNew(p.settings, end.connection.value, Direction.Active)
  {
    hide Ran, Ignores, Waits, IsNew, CanOpen, PolledBy, PollLoop;
    StartsWhenIdle(p, e, o);
    var q := Ran(p, o).0;
    NoMainWaits(q, attempt);
    AttemptOpens(q, attempt);
    WaitingCompletes(q, attempt);
  }

  // ----- Messages of the user

  /** A message goes to both connections and is counted on each that takes it. The tracked connection is dropped exactly
      if it cannot be written; the call fails exactly if the main one cannot. */
  lemma {:induction false} MessagesAreRelayed(p: PeerView, kind: Kind, ot: SendOutcome, om: SendOutcome, k: Kind)
    ensures var (q, r) := Stepped(p, Relay(kind, ot, om));
      && r == (if p.connection.Some? && !om.Sent? then WriteError else Progress)
      && q == p.(connection := q.connection, tracked := q.tracked)
      && (q.connection.Some? <==> p.connection.Some?) && (q.tracked.Some? <==> p.tracked.Some? && ot.Sent?)
      && (p.connection.Some? ==>
            && q.connection.value == p.connection.value.(sent := q.connection.value.sent)
            && Tally(q.connection.value.sent, k) ==
               Tally(p.connection.value.sent, k) + (if k == kind then Counted(om) else 0))
      && (q.tracked.Some? ==>
            && q.tracked.value == p.tracked.value.(sent := q.tracked.value.sent)
            && Tally(q.tracked.value.sent, k) == Tally(p.tracked.value.sent, k) + if k == kind then 1 else 0)
  {
    hide Count, Tally;
    if p.connection.Some? {
      TransmittedTallies(p.connection.value, kind, om, k);
      CountTallies(p.connection.value.sent, kind, k);
    }
    if p.tracked.Some? {
      TransmittedTallies(p.tracked.value, kind, ot, k);
    }
  }
}
