/** What every step of a peer keeps about its two connections and about its published state. */
module BgpPeerTheory {
  import opened Sequences
  import opened BgpOpen
  import opened BgpConnection
  import opened BgpConnectionTheory
  import opened BgpPeerSpec

  // ----- Connections

  /** A connection of this peer: sound, with the right timers armed, configured by it, and from the AS the peer insists
      on. Its creation time keeps its default value. */
  ghost predicate Belongs(s: Settings, c: Conn) {
    && Sound(c) && Armed(c)
    && c.config == s.conn && c.created == 0
    && (!s.dynamicAs ==> c.peerAsn == Some(s.peerAsn))
    && (s.conn.openDelay == 0 ==> c.state != Connected)
  }

  ghost predicate Held(s: Settings, main: Option<Conn>, tracked: Option<Conn>) {
    && (main.Some? ==> Belongs(s, main.value))
    && (tracked.Some? ==> Belongs(s, tracked.value) && tracked.value.state != ConnState.Established)
  }

  ghost predicate ConnectionsBelong(p: PeerView) {
    Held(p.settings, p.connection, p.tracked)
  }

  lemma {:induction false} ExtensionBelongs(s: Settings, c: Conn, d: Conn)
    requires Belongs(s, c) && Sound(d) && Armed(d) && Extends(c, d)
    ensures Belongs(s, d)
  {
  }

  lemma {:induction false} HandledBelongs(s: Settings, c: Conn, e: Event, o1: SendOutcome, o2: SendOutcome)
    requires Belongs(s, c) && Due(c, e)
    ensures Belongs(s, Handled(c, e, o1, o2).0) && Extends(c, Handled(c, e, o1, o2).0)
  {
    hide Sound, Armed, ArmedFor, Extends, Evidence, Handled;
    HandledKeepsSound(c, e, o1, o2);
    HandledKeepsArmed(c, e, o1, o2);
    ExtensionBelongs(s, c, Handled(c, e, o1, o2).0);
  }

  lemma {:induction false} TransmittedBelongs(s: Settings, c: Conn, k: Kind, o: SendOutcome)
    requires Belongs(s, c)
    ensures Belongs(s, Transmitted(c, k, o)) && Transmitted(c, k, o).state == c.state
    ensures Extends(c, Transmitted(c, k, o))
  {
    hide Sound, Extends, Count;
    TransmittedKeepsSound(c, k, o);
    ExtensionBelongs(s, c, Transmitted(c, k, o));
  }

  lemma {:induction false} PolledBelongs(s: Settings, c: Conn, input: Input)
    requires Belongs(s, c) && Enabled(c, input)
    ensures var (d, e) := Polled(c, input); Belongs(s, d) && Extends(c, d) && d.state == c.state && Due(d, e)
  {
    hide Sound, Armed, ArmedFor, Extends, Evidence, Polled, Enabled;
    PolledKeepsSound(c, input);
    PolledIsArmed(c, input);
    ExtensionBelongs(s, c, Polled(c, input).0);
  }

  /** A tracked connection is only polled before it is confirmed, so it cannot become established. */
  lemma {:induction false} TrackedIsNotEstablished(c: Conn, e: Event, o1: SendOutcome, o2: SendOutcome)
    requires c.state != ConnState.Established && c.state != ConnState.OpenConfirm
    ensures Handled(c, e, o1, o2).0.state != ConnState.Established
  {
    hide Handled, Minimum, Jittered, MyAsn4, Count;
    if OnlyMoves(c, e) {
      HandledMoves(c, e, o1, o2);
    } else {
      HandledOpens(c, e, o1, o2);
    }
  }

  lemma {:induction false} FreshIsNew(s: Settings, d: Direction, jitter: Jitter)
    ensures var c := FreshConn(s, d, jitter);
      && Sound(c) && Armed(c) && c.state == Connected && c.direction == d && c.config == s.conn && c.created == 0
      && !c.openDelayTimer && !c.openedFirst && !c.unanswered && c.keepAliveTimer.None? && c.holdTimer.None?
      && c.peerAsn == if s.dynamicAs then None else Some(s.peerAsn)
  {
    hide Sound;
    NewIsSound(d, s.conn, if s.dynamicAs then None else Some(s.peerAsn), s.keepAliveTime as real, jitter);
  }

  lemma {:induction false} OpeningStates(c: Conn, e: Event, o1: SendOutcome, o2: SendOutcome)
    requires c.state == Connected && !ComesFromPolling(e) && Handled(c, e, o1, o2).1
    ensures Handled(c, e, o1, o2).0.state == if c.config.openDelay == 0 then ConnState.OpenSent else Connected
  {
  }

  lemma {:induction false} NewConnectionBelongs(s: Settings, d: Direction, e: Event, o: Oracle)
    requires !ComesFromPolling(e) && Handled(FreshConn(s, d, o.jitter), e, o.o1, o.o2).1
    ensures var c := Handled(FreshConn(s, d, o.jitter), e, o.o1, o.o2).0;
      && Belongs(s, c) && c.direction == d
      && c.state == (if s.conn.openDelay == 0 then ConnState.OpenSent else Connected)
  {
    hide Sound, Armed, Handled, NewConn, FreshConn;
    var c := FreshConn(s, d, o.jitter);
    FreshIsNew(s, d, o.jitter);
    HandledKeepsSound(c, e, o.o1, o.o2);
    HandledKeepsArmed(c, e, o.o1, o.o2);
    OpeningStates(c, e, o.o1, o.o2);
  }

  // ----- The polling loop

  /** A KEEPALIVE that is reported has been counted since `c`. */
  ghost predicate CountsKeepAlive(c: Conn, d: Conn, e: Event) {
    e.KeepAliveMsg? ==> c.received.keepAlive < d.received.keepAlive
  }

  /** What holds between turns; `main` is the main connection the loop started with. */
  ghost predicate GoodPolling(s: Settings, main: Option<Conn>, q: Polling) {
    && Held(s, q.main, q.tracked)
    && main.Some? == q.main.Some?
    && (main.Some? ==> Extends(main.value, q.main.value) && main.value.state == q.main.value.state)
    && (q.next.Some? ==>
          if q.next.value.MainEvent? then
            && main.Some? && q.main.Some? && Due(q.main.value, q.next.value.event)
            && CountsKeepAlive(main.value, q.main.value, q.next.value.event)
          else q.main.Some? && q.tracked.Some?)
  }

  lemma {:induction false} ResolvedIsGood(
    s: Settings, main: Option<Conn>, id: nat, q: Polling, o: SendOutcome, n: Option<NextEvent>)
    requires GoodPolling(s, main, q) && q.next.None?
    requires n.Some? ==>
      && n.value.MainEvent? && main.Some? && q.main.Some? && Due(q.main.value, n.value.event)
      && CountsKeepAlive(main.value, q.main.value, n.value.event)
    ensures GoodPolling(s, main, Resolved(id, q, o, n))
  {
    hide Belongs, Extends, Due, Transmitted, CountsKeepAlive;
    if q.tracked.Some? {
      TransmittedBelongs(s, q.tracked.value, NotificationKind, o);
    }
  }

  lemma {:induction false} ExtendsTransitively(c: Conn, d: Conn, e: Conn)
    requires Extends(c, d) && Extends(d, e)
    ensures Extends(c, e)
  {
  }

  lemma {:induction false} KeepAliveIsCounted(c: Conn, d: Conn, input: Input)
    requires Extends(c, d) && Enabled(d, input)
    ensures CountsKeepAlive(c, Polled(d, input).0, Polled(d, input).1)
  {
  }

  lemma {:induction false} TurnedIsGood(s: Settings, main: Option<Conn>, id: nat, fsm: Fsm, q: Polling, t: Turn)
    requires GoodPolling(s, main, q) && q.next.None?
    ensures GoodPolling(s, main, Turned(id, fsm, q, t))
  {
    hide Belongs, Extends, Due, CountsKeepAlive, Resolved, Polled, Handled, Enabled;
    match t {
      case MainTurn(input, o) =>
        if q.main.Some? && Enabled(q.main.value, input) {
          PolledBelongs(s, q.main.value, input);
          var (c, e) := Polled(q.main.value, input);
          ExtendsTransitively(main.value, q.main.value, c);
          KeepAliveIsCounted(main.value, q.main.value, input);
          ResolvedIsGood(s, main, id, q.(main := Some(c)), o, Some(MainEvent(e)));
        }
      case TrackedTurn(input, o1, o2) =>
        if TrackedIsPolled(fsm, q.tracked, q.hidden) && Enabled(q.tracked.value, input) {
          PolledBelongs(s, q.tracked.value, input);
          var (c, e) := Polled(q.tracked.value, input);
          HandledBelongs(s, c, e, o1, o2);
          TrackedIsNotEstablished(c, e, o1, o2);
          ResolvedIsGood(s, main, id, q.(tracked := Some(Handled(c, e, o1, o2).0)), o1, None);
        }
    }
  }

  lemma {:induction false} PollLoopIsGood(
    s: Settings, main: Option<Conn>, id: nat, fsm: Fsm, q: Polling, turns: seq<Turn>)
    requires GoodPolling(s, main, q)
    ensures GoodPolling(s, main, PollLoop(id, fsm, q, turns))
    decreases |turns|
  {
    hide GoodPolling, Turned;
    if turns != [] && q.next.None? {
      TurnedIsGood(s, main, id, fsm, q, turns[0]);
      PollLoopIsGood(s, main, id, fsm, Turned(id, fsm, q, turns[0]), turns[1..]);
    }
  }

  /** What the loop hands to the event handler. */
  lemma {:induction false} PollingIsGood(p: PeerView, turns: seq<Turn>)
    requires ConnectionsBelong(p)
    ensures GoodPolling(p.settings, p.connection,
              PollLoop(p.settings.myBgpId, p.fsm, Polling(p.connection, p.tracked, false, None), turns))
  {
    hide Belongs, Extends;
    if p.connection.Some? {
      SoundExtendsItself(p.connection.value);
    }
    PollLoopIsGood(p.settings, p.connection, p.settings.myBgpId, p.fsm, Polling(p.connection, p.tracked, false, None),
      turns);
  }

  // ----- The two state tables

  /** Every state change of a connection is one the peer's own table expects, except that a terminated connection
      handles anything, and that a connection past Connected is told again that TCP is up. */
  lemma {:induction false} TablesAgree(p: PeerView, c: Conn, e: Event, o1: SendOutcome, o2: SendOutcome)
    requires Handled(c, e, o1, o2).1
    ensures var r := Reacted(p, c.state, Handled(c, e, o1, o2).0, e).1;
      && r in {Progress, InvalidTransition}
      && (r == InvalidTransition <==> c.state == Terminate || (c.state != Connected && !ComesFromPolling(e)))
  {
    hide OnConnected, OnOpenSent, OnOpenConfirm, OnEstablished;
    hide ReactedConnected, ReactedOpenSent, ReactedOpenConfirm, ReactedEstablished;
    match c.state {
      case Connected => ConnectedTablesAgree(p, c, e, o1, o2);
      case OpenSent => OpenSentTablesAgree(p, c, e, o1);
      case OpenConfirm => OpenConfirmTablesAgree(p, c, e, o1);
      case Established => EstablishedTablesAgree(p, c, e, o1);
      case Terminate =>
    }
  }

  lemma {:induction false} OpenConfirmTablesAgree(p: PeerView, c: Conn, e: Event, o1: SendOutcome)
    requires c.state == ConnState.OpenConfirm && OnOpenConfirm(c, e, o1).1
    ensures ReactedOpenConfirm(p, OnOpenConfirm(c, e, o1).0, e).1 ==
      if ComesFromPolling(e) then Progress else InvalidTransition
  {
    hide Count, Failed, Dropped;
  }

  lemma {:induction false} EstablishedTablesAgree(p: PeerView, c: Conn, e: Event, o1: SendOutcome)
    requires c.state == ConnState.Established && OnEstablished(c, e, o1).1
    ensures ReactedEstablished(p, OnEstablished(c, e, o1).0, e).1 ==
      if ComesFromPolling(e) then Progress else InvalidTransition
  {
    hide Count, Failed, Dropped;
  }

  lemma {:induction false} ConnectedTablesAgree(p: PeerView, c: Conn, e: Event, o1: SendOutcome, o2: SendOutcome)
    requires c.state == Connected && OnConnected(c, e, o1, o2).1
    ensures ReactedConnected(p, OnConnected(c, e, o1, o2).0, e).1 == Progress
  {
    hide Count, Minimum, Jittered, MyAsn4, Failed, Dropped, Retrying;
  }

  lemma {:induction false} OpenSentTablesAgree(p: PeerView, c: Conn, e: Event, o1: SendOutcome)
    requires c.state == ConnState.OpenSent && OnOpenSent(c, e, o1).1
    ensures ReactedOpenSent(p, OnOpenSent(c, e, o1).0, e).1 ==
      if ComesFromPolling(e) then Progress else InvalidTransition
  {
  }

  // ----- The published state

  ghost predicate IsSessionState(f: Fsm) {
    f == Fsm.OpenSent || f == Fsm.OpenConfirm || f == Fsm.Established
  }

  /** No terminated main connection is left, and a peer that is administratively down holds nothing. */
  ghost predicate Orderly(p: PeerView) {
    && (p.connection.Some? ==> p.connection.value.state != Terminate)
    && (!p.adminUp ==> p.fsm == Idle && p.connection.None? && p.tracked.None? && !p.retryTimer)
  }

  /** The published state agrees with the main connection, and the retry timer runs only without one. */
  ghost predicate Agrees(p: PeerView) {
    && (p.connection.Some? && Named(p.connection.value.state).Some? ==> Named(p.connection.value.state) == Some(p.fsm))
    && (IsSessionState(p.fsm) ==> p.connection.Some? && Named(p.connection.value.state) == Some(p.fsm))
    && (p.retryTimer ==> p.connection.None?)
  }

  ghost predicate Coherent(p: PeerView) {
    Orderly(p) && Agrees(p)
  }

  /** What the published state was before the main connection changed to `c`. */
  ghost predicate WasCoherent(p: PeerView, before: ConnState, c: Conn) {
    && p.connection == Some(c) && p.adminUp && !p.retryTimer
    && (Named(before).Some? ==> p.fsm == Named(before).value)
    && (IsSessionState(p.fsm) ==> Named(before) == Some(p.fsm))
  }

  lemma {:induction false} ReactedConnectedIsCoherent(p: PeerView, c: Conn, e: Event)
    requires WasCoherent(p, Connected, c) && ReactedConnected(p, c, e).1 == Progress
    ensures Coherent(ReactedConnected(p, c, e).0)
  {
  }

  lemma {:induction false} ReactedOpenSentIsCoherent(p: PeerView, c: Conn, e: Event)
    requires WasCoherent(p, ConnState.OpenSent, c) && ReactedOpenSent(p, c, e).1 == Progress
    ensures Coherent(ReactedOpenSent(p, c, e).0)
  {
  }

  lemma {:induction false} ReactedOpenConfirmIsCoherent(p: PeerView, c: Conn, e: Event)
    requires WasCoherent(p, ConnState.OpenConfirm, c) && ReactedOpenConfirm(p, c, e).1 == Progress
    ensures Coherent(ReactedOpenConfirm(p, c, e).0)
  {
  }

  lemma {:induction false} ReactedEstablishedIsCoherent(p: PeerView, c: Conn, e: Event)
    requires WasCoherent(p, ConnState.Established, c) && ReactedEstablished(p, c, e).1 == Progress
    ensures Coherent(ReactedEstablished(p, c, e).0)
  {
  }

  lemma {:induction false} ReactedIsCoherent(p: PeerView, before: ConnState, c: Conn, e: Event)
    requires WasCoherent(p, before, c) && before != Terminate && Reacted(p, before, c, e).1 == Progress
    ensures Coherent(Reacted(p, before, c, e).0)
  {
    hide Coherent, WasCoherent, ReactedConnected, ReactedOpenSent, ReactedOpenConfirm, ReactedEstablished;
    match before {
      case Connected => ReactedConnectedIsCoherent(p, c, e);
      case OpenSent => ReactedOpenSentIsCoherent(p, c, e);
      case OpenConfirm => ReactedOpenConfirmIsCoherent(p, c, e);
      case Established => ReactedEstablishedIsCoherent(p, c, e);
    }
  }

  /** A terminated connection is dropped. */
  lemma {:induction false} ReactedDrops(p: PeerView, before: ConnState, c: Conn, e: Event)
    requires c.state == Terminate && Reacted(p, before, c, e).1 == Progress
    ensures Reacted(p, before, c, e).0.connection == None
  {
    hide ReactedConnected;
    if before == Connected {
      ReactedConnectedDrops(p, c, e);
    }
  }

  lemma {:induction false} ReactedConnectedDrops(p: PeerView, c: Conn, e: Event)
    requires c.state == Terminate && ReactedConnected(p, c, e).1 == Progress
    ensures ReactedConnected(p, c, e).0.connection == None
  {
  }

  /** The peer's reaction keeps the connection it is told about, or drops it, and leaves the other one alone. */
  ghost predicate SameButMain(p: PeerView, q: PeerView) {
    && (q.connection == p.connection || q.connection == None) && q.tracked == p.tracked
    && q.settings == p.settings && q.adminUp == p.adminUp
  }

  lemma {:induction false} ReactedKeepsConnections(p: PeerView, before: ConnState, c: Conn, e: Event)
    ensures SameButMain(p, Reacted(p, before, c, e).0)
  {
    hide ReactedConnected, ReactedOpenSent;
    match before {
      case Connected => ReactedConnectedKeeps(p, c, e);
      case OpenSent => ReactedOpenSentKeeps(p, c, e);
      case OpenConfirm =>
      case Established =>
      case Terminate =>
    }
  }

  lemma {:induction false} ReactedConnectedKeeps(p: PeerView, c: Conn, e: Event)
    ensures SameButMain(p, ReactedConnected(p, c, e).0)
  {
  }

  lemma {:induction false} ReactedOpenSentKeeps(p: PeerView, c: Conn, e: Event)
    ensures SameButMain(p, ReactedOpenSent(p, c, e).0)
  {
  }

  lemma {:induction false} HandledMainKeeps(p: PeerView, e: Event, o1: SendOutcome, o2: SendOutcome)
    requires ConnectionsBelong(p) && Orderly(p) && p.connection.Some? && Due(p.connection.value, e)
    ensures var (q, r) := HandledMain(p, e, o1, o2);
      && ConnectionsBelong(q) && q.settings == p.settings && r in {Progress, WriteError}
      && (r == Progress ==> Orderly(q) && (Agrees(p) ==> Agrees(q)))
  {
    hide Belongs, Extends, Evidence, ArmedFor, Handled, Reacted;
    var c := p.connection.value;
    var (d, ok) := Handled(c, e, o1, o2);
    HandledBelongs(p.settings, c, e, o1, o2);
    var q := p.(connection := Some(d));
    if ok {
      ReactedKeepsConnections(q, c.state, d, e);
      TablesAgree(q, c, e, o1, o2);
      if d.state == Terminate {
        ReactedDrops(q, c.state, d, e);
      }
      if Agrees(p) {
        ReactedIsCoherent(q, c.state, d, e);
      }
    }
  }

  lemma {:induction false} HandledMainBelongs(p: PeerView, e: Event, o1: SendOutcome, o2: SendOutcome)
    requires ConnectionsBelong(p) && p.connection.Some? && Due(p.connection.value, e)
    ensures var q := HandledMain(p, e, o1, o2).0; ConnectionsBelong(q) && q.settings == p.settings
  {
    hide Belongs, Extends, Due, Handled, Reacted;
    var c := p.connection.value;
    var d := Handled(c, e, o1, o2).0;
    HandledBelongs(p.settings, c, e, o1, o2);
    ReactedKeepsConnections(p.(connection := Some(d)), c.state, d, e);
  }

  lemma {:induction false} PromotedKeeps(p: PeerView)
    requires ConnectionsBelong(p) && p.connection.Some? && p.tracked.Some?
    ensures var (q, r) := Promoted(p);
      && ConnectionsBelong(q) && q.settings == p.settings
      && r == (if Named(p.tracked.value.state).Some? then Progress else InvalidTransition)
      && (Orderly(p) ==> Orderly(q)) && (r == Progress && Orderly(p) && Agrees(p) ==> Agrees(q))
  {
    hide Belongs;
  }

  /** What the polling loop hands over is handled without leaving the invariants. */
  lemma {:induction false} HandledNextKeeps(p: PeerView, n: NextEvent, o: Oracle)
    requires ConnectionsBelong(p) && p.connection.Some?
    requires if n.MainEvent? then Due(p.connection.value, n.event) else p.tracked.Some?
    ensures var (q, r) := HandledNext(p, n, o);
      && ConnectionsBelong(q) && q.settings == p.settings && r != Pending
      && (Orderly(p) ==>
            && (r == InvalidTransition <==> n == Collision(true) && Named(p.tracked.value.state).None?)
            && (r == Progress ==> Orderly(q) && (Agrees(p) ==> Agrees(q))))
  {
    hide Belongs, Due, HandledMain, Promoted, Orderly, Agrees;
    match n {
      case Collision(dropMain) => PromotedKeeps(p); WithoutTracked(p);
      case MainEvent(e) =>
        HandledMainBelongs(p, e, o.o1, o.o2);
        HandledMainEnds(p, e, o.o1, o.o2);
        if Orderly(p) {
          HandledMainKeeps(p, e, o.o1, o.o2);
        }
    }
  }

  lemma {:induction false} WithoutTracked(p: PeerView)
    ensures var q := p.(tracked := None);
      (Orderly(p) ==> Orderly(q)) && (Agrees(p) <==> Agrees(q)) && (ConnectionsBelong(p) ==> ConnectionsBelong(q))
  {
    hide Belongs;
  }

  lemma {:induction false} HandledMainEnds(p: PeerView, e: Event, o1: SendOutcome, o2: SendOutcome)
    ensures HandledMain(p, e, o1, o2).1 != Pending
  {
    hide Handled, Failed, Dropped, Retrying;
  }

  lemma {:induction false} OpenedKeeps(p: PeerView, d: Direction, e: Event, o: Oracle)
    requires ConnectionsBelong(p) && !ComesFromPolling(e)
    ensures var (q, r) := Opened(p, d, e, o);
      && ConnectionsBelong(q) && q.settings == p.settings && r in {Progress, WriteError}
      && (Orderly(p) && p.adminUp && r == Progress ==> Orderly(q) && (Agrees(p) ==> Agrees(q)))
  {
    hide Belongs, Handled, FreshConn, ComesFromPolling;
    if Handled(FreshConn(p.settings, d, o.jitter), e, o.o1, o.o2).1 {
      NewConnectionBelongs(p.settings, d, e, o);
    }
  }

  lemma {:induction false} CompletedKeeps(p: PeerView, o: Oracle)
    requires ConnectionsBelong(p)
    ensures var (q, r) := Completed(p, o);
      && ConnectionsBelong(q) && q.settings == p.settings && r != InvalidTransition
      && (Orderly(p) && Lives(r) ==> Orderly(q) && (Agrees(p) ==> Agrees(q)))
  {
    hide Belongs, Opened;
    if o.choice == ConnectDone(true) && p.fsm == Connect && p.mayConnect {
      OpenedKeeps(p.(mayConnect := false), Direction.Active, TcpConnectionRequestAcked, o);
    }
  }

  // ----- One call of the run loop

  /** What the loop found, and the peer with its connections as the loop left them. */
  ghost function PolledBy(p: PeerView, turns: seq<Turn>): Polling {
    PollLoop(p.settings.myBgpId, p.fsm, Polling(p.connection, p.tracked, false, None), turns)
  }

  ghost function WithPolled(p: PeerView, q: Polling): PeerView {
    p.(connection := q.main, tracked := q.tracked)
  }

  lemma {:induction false} PollingKeepsCoherent(p: PeerView, turns: seq<Turn>)
    requires ConnectionsBelong(p)
    ensures var r := WithPolled(p, PolledBy(p, turns));
      ConnectionsBelong(r) && (Orderly(p) ==> Orderly(r)) && (Agrees(p) ==> Agrees(r))
  {
    hide Belongs, Extends, Due, PollLoop;
    PollingIsGood(p, turns);
    if p.tracked.None? {
      NothingToTrack(p.settings.myBgpId, p.fsm, Polling(p.connection, p.tracked, false, None), turns);
    }
  }

  lemma {:induction false} NothingToTrack(id: nat, fsm: Fsm, q: Polling, turns: seq<Turn>)
    requires q.tracked.None?
    ensures PollLoop(id, fsm, q, turns).tracked.None?
    decreases |turns|
  {
    hide Polled, Enabled, Collide;
    if turns != [] && q.next.None? {
      NothingToTrack(id, fsm, Turned(id, fsm, q, turns[0]), turns[1..]);
    }
  }

  /** The loop finds a collision that chooses a tracked connection which cannot take over. */
  ghost predicate PromotesUnfit(p: PeerView, turns: seq<Turn>) {
    var q := PolledBy(p, turns);
    q.next == Some(Collision(true)) && q.tracked.Some? && Named(q.tracked.value.state).None?
  }

  /** The error that stops the peer arises only from a collision that promotes an unfit tracked connection. */
  lemma {:induction false} SelectedKeeps(p: PeerView, o: Oracle)
    requires ConnectionsBelong(p)
    ensures var (q, r) := Selected(p, o);
      && ConnectionsBelong(q) && q.settings == p.settings
      && (Orderly(p) ==> (r == InvalidTransition <==> PromotesUnfit(p, o.turns)))
      && (Orderly(p) && Lives(r) ==> Orderly(q) && (Agrees(p) ==> Agrees(q)))
  {
    hide Belongs, Extends, Due, PollLoop, HandledNext, Completed, Orderly, Agrees;
    PollingIsGood(p, o.turns);
    PollingKeepsCoherent(p, o.turns);
    var q := PolledBy(p, o.turns);
    var r := WithPolled(p, q);
    AskedChangesNothing(r, o);
    if q.next.Some? {
      HandledNextKeeps(Asked(r, o), q.next.value, o);
    } else {
      CompletedKeeps(r, o);
    }
  }

  lemma {:induction false} AskedChangesNothing(p: PeerView, o: Oracle)
    ensures (Orderly(Asked(p, o)) <==> Orderly(p)) && (Agrees(Asked(p, o)) <==> Agrees(p))
    ensures ConnectionsBelong(Asked(p, o)) <==> ConnectionsBelong(p)
  {
    hide Belongs;
  }

  /** A start event delivered to a peer that is idle but still holds a connection waiting for its delay timer. */
  ghost predicate StaleStart(p: PeerView, s: PeerStep) {
    && s.Run? && p.waiting != []
    && p.waiting[|p.waiting| - 1] in {ManualStart, AutomaticStart}
    && p.fsm == Idle && p.connection.Some?
  }

  lemma {:induction false} AdministeredKeeps(p: PeerView, e: AdminEvent, o: Oracle)
    requires ConnectionsBelong(p)
    ensures var (q, r) := Administered(p, e, o);
      && ConnectionsBelong(q) && q.settings == p.settings && (r.None? ==> q == p)
      && r in {None, Some(Progress), Some(WriteError)}
      && (Orderly(p) && r == Some(Progress) ==>
            && Orderly(q)
            && (Agrees(p) ==>
                  (Agrees(q) <==> !(e in {ManualStart, AutomaticStart} && p.fsm == Idle && p.connection.Some?))))
  {
    hide Belongs, Opened;
    if e.ConnectionConfirmed? {
      OpenedKeeps(p, Passive, TcpConnectionConfirmed, o);
    }
  }

  ghost predicate Lives(r: Outcome) {
    r == Progress || r == Pending
  }

  /** The administrative event that waits is ignored, and the call goes on to poll. */
  ghost predicate Ignores(p: PeerView) {
    p.waiting == [] ||
    match p.waiting[|p.waiting| - 1]
    case ManualStart | AutomaticStart => p.fsm != Idle
    case ConnectionConfirmed => Rejects(p)
    case _ => false
  }

  /** The step that fails with an invalid transition. */
  ghost predicate Dooms(p: PeerView, s: PeerStep) {
    s.Run? && Ignores(p) && PromotesUnfit(p, s.oracle.turns)
  }

  ghost function Popped(p: PeerView): PeerView {
    if p.waiting == [] then p else p.(waiting := p.waiting[..|p.waiting| - 1])
  }

  lemma {:induction false} PoppedIsSame(p: PeerView, turns: seq<Turn>)
    ensures (Orderly(Popped(p)) <==> Orderly(p)) && (Agrees(Popped(p)) <==> Agrees(p))
    ensures (ConnectionsBelong(Popped(p)) <==> ConnectionsBelong(p)) && PolledBy(Popped(p), turns) == PolledBy(p, turns)
  {
    hide Belongs;
  }

  lemma {:induction false} IgnoredIff(p: PeerView, o: Oracle)
    requires p.waiting != []
    ensures Administered(Popped(p), p.waiting[|p.waiting| - 1], o).1.None? <==> Ignores(p)
  {
    hide Opened;
  }

  lemma {:induction false} RanKeeps(p: PeerView, o: Oracle)
    requires ConnectionsBelong(p)
    ensures var (q, r) := Ran(p, o);
      && ConnectionsBelong(q) && q.settings == p.settings
      && (Orderly(p) ==> (r == InvalidTransition <==> Dooms(p, Run(o))))
      && (Orderly(p) && Lives(r) ==> Orderly(q) && (Agrees(p) ==> (Agrees(q) <==> !StaleStart(p, Run(o)))))
  {
    hide Belongs, Selected, Administered, Orderly, Agrees, PollLoop;
    PoppedIsSame(p, o.turns);
    if p.waiting == [] {
      SelectedKeeps(p, o);
    } else {
      var n := |p.waiting| - 1;
      AdministeredKeeps(Popped(p), p.waiting[n], o);
      IgnoredIff(p, o);
      if Ignores(p) {
        SelectedKeeps(Popped(p), o);
      }
    }
  }

  lemma {:induction false} RelayedKeeps(p: PeerView, k: Kind, ot: SendOutcome, om: SendOutcome)
    requires ConnectionsBelong(p)
    ensures var (q, r) := Relayed(p, k, ot, om);
      && ConnectionsBelong(q) && q.settings == p.settings && r != InvalidTransition
      && (Orderly(p) ==> Orderly(q)) && (Agrees(p) ==> Agrees(q))
  {
    hide Belongs, Transmitted, Extends;
    if p.connection.Some? {
      TransmittedBelongs(p.settings, p.connection.value, k, om);
    }
    if p.tracked.Some? {
      TransmittedBelongs(p.settings, p.tracked.value, k, ot);
    }
  }

  /** One step: the connections stay sound whatever happens; no terminated connection is left and a stopped peer holds
      nothing as long as the run lives; and the published state stays in agreement unless the step is a stale start,
      which always breaks it. Exactly the doomed steps fail with an invalid transition. */
  lemma {:induction false} SteppedKeeps(p: PeerView, s: PeerStep)
    requires ConnectionsBelong(p)
    ensures var (q, r) := Stepped(p, s);
      && ConnectionsBelong(q) && q.settings == p.settings
      && (Orderly(p) ==> (r == InvalidTransition <==> Dooms(p, s)))
      && (Orderly(p) && Lives(r) ==> Orderly(q) && (Agrees(p) ==> (Agrees(q) <==> !StaleStart(p, s))))
  {
    hide Belongs, Ran, Relayed, PromotesUnfit;
    match s {
      case Tell(e) =>
      case Run(o) => RanKeeps(p, o);
      case Relay(k, ot, om) => RelayedKeeps(p, k, ot, om);
    }
  }
}
