/** What every run of one BGP connection keeps: its history, its counters and its timers. */
module BgpConnectionTheory {
  import opened Sequences
  import opened BgpOpen
  import opened BgpConnection

  ghost predicate Balanced(c: Counters) {
    c.total == c.open + c.update + c.notification + c.keepAlive + c.routeRefresh
  }

  /** The hold time in force is the smaller of the two announced ones; if it is not zero both timers run with it. */
  ghost predicate TimersNegotiated(c: Conn) {
    && c.peerHoldTime.Some?
    && c.holdTime == (if c.config.holdTime == 0 then 0 else Minimum(c.config.holdTime, c.peerHoldTime.value))
    && (c.holdTime > 0 ==>
          && c.holdTimer == Some(c.holdTime)
          && c.keepAliveTimer == Some(Jittered(c.holdTime as real / 3.0, c.jitter)))
  }

  /** What the state of a connection says about its past. */
  ghost predicate Sound(c: Conn) {
    && Balanced(c.sent) && Balanced(c.received)
    && 0.75 <= c.jitter <= 1.0
    && (c.state in {OpenSent, OpenConfirm, Established} ==> c.sent.open > 0)
    && (c.state in {OpenConfirm, Established} ==>
          && c.received.open > 0 && c.sent.keepAlive > 0
          && c.peerBgpId.Some? && c.peerAsn.Some?
          && TimersNegotiated(c))
    && (c.state == Established ==> c.received.keepAlive > 0)
  }

  /** What polling an event says about the connection it was polled from. */
  ghost predicate Evidence(c: Conn, e: Event) {
    && (e.BGPOpen? || e.BGPOpenWithDelayOpenTimer? ==>
          && c.received.open > 0 && c.peerBgpId == Some(e.open.bgpId)
          && (c.peerAsn.Some? ==> c.peerAsn.value == MyAsn4(e.open)))
    && (e.KeepAliveMsg? ==> c.received.keepAlive > 0)
  }

  ghost predicate ComesFromPolling(e: Event) {
    !e.TcpConnectionRequestAcked? && !e.TcpConnectionConfirmed?
  }

  ghost function Rank(s: ConnState): nat {
    match s
    case Connected => 0
    case OpenSent => 1
    case OpenConfirm => 2
    case Established => 3
    case Terminate => 4
  }

  /** What never changes, and what only grows. */
  ghost predicate Extends(c: Conn, d: Conn) {
    && d.direction == c.direction && d.config == c.config && d.jitter == c.jitter && d.created == c.created
    && Rank(c.state) <= Rank(d.state)
    && c.sent.total <= d.sent.total && c.received.total <= d.received.total
    && c.received.keepAlive <= d.received.keepAlive
    && (c.peerAsn.Some? ==> d.peerAsn == c.peerAsn)
    && (c.peerBgpId.Some? ==> d.peerBgpId.Some?)
  }

  lemma {:induction false} ConnectedIsSound(c: Conn)
    requires c.state == Connected && Balanced(c.sent) && Balanced(c.received) && 0.75 <= c.jitter <= 1.0
    ensures Sound(c)
  {
  }

  lemma {:induction false} NoMessagesBalance()
    ensures Balanced(NO_MESSAGES)
  {
  }

  lemma {:induction false} NewIsSound(d: Direction, f: ConnConfig, a: Option<nat>, k: real, j: real)
    requires 0.75 <= j <= 1.0
    ensures Sound(NewConn(d, f, a, k, j))
  {
    hide Sound, Balanced;
    NoMessagesBalance();
    ConnectedIsSound(NewConn(d, f, a, k, j));
  }

  // ----- One step

  lemma {:induction false} CountBalances(c: Counters, k: Kind)
    requires Balanced(c)
    ensures Balanced(Count(c, k)) && Count(c, k).total == c.total + 1
  {
  }

  lemma {:induction false} PolledKeepsSound(c: Conn, input: Input)
    requires Sound(c) && Enabled(c, input)
    ensures var (d, e) := Polled(c, input); Sound(d) && Extends(c, d) && d.state == c.state && Evidence(d, e)
    ensures ComesFromPolling(Polled(c, input).1)
  {
    hide Jittered, Minimum, MyAsn4;
    if input.Incoming? {
      MessageKeepsSound(c, input);
    }
  }

  lemma {:induction false} MessageKeepsSound(c: Conn, input: Input)
    requires Sound(c) && Enabled(c, input) && input.Incoming?
    ensures var (d, e) := Polled(c, input); Sound(d) && Extends(c, d) && d.state == c.state && Evidence(d, e)
    ensures ComesFromPolling(Polled(c, input).1)
  {
    hide Jittered, Minimum, MyAsn4;
    CountBalances(c.received, KindOf(input.message));
  }

  lemma {:induction false} TransmittedKeepsSound(c: Conn, k: Kind, o: SendOutcome)
    requires Sound(c)
    ensures Sound(Transmitted(c, k, o)) && Extends(c, Transmitted(c, k, o))
  {
  }

  /** Entering Terminate needs no history. */
  lemma {:induction false} TerminatedIsSound(c: Conn)
    requires Sound(c)
    ensures Sound(c.(state := Terminate)) && Extends(c, c.(state := Terminate))
  {
  }

  /** A matching OPEN is taken in: all that is missing for OpenConfirm is what has been sent. */
  lemma {:induction false} NegotiatedKeepsSound(c: Conn, open: OpenMessage)
    requires Sound(c) && c.state in {Connected, OpenSent}
    requires c.peerAsn.Some? ==> c.peerAsn.value == MyAsn4(open)
    ensures var d := Negotiated(c, open); Sound(d) && Extends(c, d) && TimersNegotiated(d) && d.state == c.state
    ensures var d := Negotiated(c, open); d.peerAsn.Some? && d.peerBgpId.Some?
    ensures var d := Negotiated(c, open); d.sent == c.sent && d.received == c.received
  {
  }

  /** The KEEPALIVE that answers an OPEN has been sent. */
  lemma {:induction false} ConfirmedIsSound(c: Conn, o: SendOutcome)
    requires Sound(c) && c.state in {Connected, OpenSent} && c.sent.open > 0 && c.received.open > 0
    requires c.peerBgpId.Some? && c.peerAsn.Some? && TimersNegotiated(c)
    ensures var d := Answered(c, o).0; Sound(d) && Extends(c, d)
  {
  }

  lemma {:induction false} OpenSentIsSound(c: Conn, o: SendOutcome)
    requires Sound(c) && c.state == Connected
    ensures var d := OpenFirst(c, o).0; Sound(d) && Extends(c, d)
  {
    CountBalances(c.sent, OpenKind);
  }

  lemma {:induction false} ConnectedKeepsSound(c: Conn, e: Event, o1: SendOutcome, o2: SendOutcome)
    requires Sound(c) && c.state == Connected && Evidence(c, e)
    ensures var d := OnConnected(c, e, o1, o2).0; Sound(d) && Extends(c, d)
  {
    hide Sound, Extends, Evidence, Negotiated, OpenFirst, AnsweredWithOpen;
    match e {
      case BGPOpenWithDelayOpenTimer(open) => AnsweringKeepsSound(c, e, o1, o2);
      case DelayOpenTimerExpires => OpenSentIsSound(c, o1);
      case BGPHeaderErr | BGPOpenMsgErr => NotifiedIsSound(c, o1); TerminatedIsSound(c);
      case NotifMsgErr => SoundExtendsItself(c);
      case TcpConnectionRequestAcked | TcpConnectionConfirmed => OpenSentIsSound(c, o1); DelayingIsSound(c);
      case _ => TerminatedIsSound(c);
    }
  }

  lemma {:induction false} SoundExtendsItself(c: Conn)
    ensures Extends(c, c)
  {
  }

  lemma {:induction false} DelayingIsSound(c: Conn)
    requires Sound(c) && c.state == Connected
    ensures Sound(c.(openDelayTimer := true)) && Extends(c, c.(openDelayTimer := true))
  {
  }

  /** A notification, delivered or not, and the end of the connection. */
  lemma {:induction false} NotifiedIsSound(c: Conn, o: SendOutcome)
    requires Sound(c)
    ensures var d := Transmitted(c, NotificationKind, o).(state := Terminate); Sound(d) && Extends(c, d)
  {
  }

  lemma {:induction false} AnsweringKeepsSound(c: Conn, e: Event, o1: SendOutcome, o2: SendOutcome)
    requires Sound(c) && c.state == Connected && Evidence(c, e) && e.BGPOpenWithDelayOpenTimer?
    ensures var d := OnConnected(c, e, o1, o2).0; Sound(d) && Extends(c, d)
  {
    hide Negotiated, TimersNegotiated, Balanced;
    NegotiatedKeepsSound(c, e.open);
    var d := Negotiated(c, e.open);
    CountBalances(d.sent, OpenKind);
    var d1 := Transmitted(d, OpenKind, o1);
    assert TimersNegotiated(d1) by { TimersIgnoreCounters(d, d1.sent); }
    if o1.Sent? {
      ConfirmedIsSound(d1, o2);
    }
  }

  lemma {:induction false} TimersIgnoreCounters(c: Conn, sent: Counters)
    requires TimersNegotiated(c)
    ensures TimersNegotiated(c.(sent := sent))
  {
  }

  lemma {:induction false} OpenSentKeepsSound(c: Conn, e: Event, o1: SendOutcome)
    requires Sound(c) && c.state == OpenSent && Evidence(c, e)
    ensures var d := OnOpenSent(c, e, o1).0; Sound(d) && Extends(c, d)
  {
    hide Negotiated, TimersNegotiated;
    NotifiedIsSound(c, o1);
    TransmittedKeepsSound(c, NotificationKind, o1);
    TerminatedIsSound(c);
    if e.BGPOpen? {
      NegotiatedKeepsSound(c, e.open);
      ConfirmedIsSound(Negotiated(c, e.open), o1);
    }
  }

  lemma {:induction false} OpenConfirmKeepsSound(c: Conn, e: Event, o1: SendOutcome)
    requires Sound(c) && c.state == OpenConfirm && Evidence(c, e)
    ensures var d := OnOpenConfirm(c, e, o1).0; Sound(d) && Extends(c, d)
  {
    hide Jittered, Minimum;
    NotifiedIsSound(c, o1);
    TransmittedKeepsSound(c, KeepAliveKind, o1);
    TerminatedIsSound(c);
  }

  lemma {:induction false} EstablishedKeepsSound(c: Conn, e: Event, o1: SendOutcome)
    requires Sound(c) && c.state == Established && Evidence(c, e)
    ensures var d := OnEstablished(c, e, o1).0; Sound(d) && Extends(c, d)
  {
  }

  /** Handling an event that was polled from the connection. A write error may leave it half-way, but never unsound. */
  lemma {:induction false} HandledKeepsSound(c: Conn, e: Event, o1: SendOutcome, o2: SendOutcome)
    requires Sound(c) && Evidence(c, e)
    ensures var d := Handled(c, e, o1, o2).0; Sound(d) && Extends(c, d)
  {
    hide Sound, Extends, Evidence, OnConnected, OnOpenSent, OnOpenConfirm, OnEstablished;
    match c.state {
      case Connected => ConnectedKeepsSound(c, e, o1, o2);
      case OpenSent => OpenSentKeepsSound(c, e, o1);
      case OpenConfirm => OpenConfirmKeepsSound(c, e, o1);
      case Established => EstablishedKeepsSound(c, e, o1);
      case Terminate => SoundExtendsItself(c);
    }
  }

  /** What no event changes. */
  ghost predicate SameIdentity(c: Conn, d: Conn) {
    d.direction == c.direction && d.config == c.config && d.created == c.created && d.received == c.received
  }

  /** All but five kinds of handling only change the state and the counters. */
  ghost predicate OnlyMoves(c: Conn, e: Event) {
    match c.state
    case Connected => ComesFromPolling(e) && !e.DelayOpenTimerExpires? && !e.BGPOpenWithDelayOpenTimer?
    case OpenSent => !e.BGPOpen?
    case _ => true
  }

  ghost predicate Moved(c: Conn, d: Conn) {
    && d == c.(state := d.state, sent := d.sent)
    && (d.state == c.state || d.state == Terminate || (c.state == OpenConfirm && d.state == Established))
  }

  lemma {:induction false} ConnectedMoves(c: Conn, e: Event, o1: SendOutcome, o2: SendOutcome)
    requires c.state == Connected && OnlyMoves(c, e)
    ensures Moved(c, OnConnected(c, e, o1, o2).0)
  {
    hide Count, Negotiated, OpenFirst, AnsweredWithOpen;
  }

  lemma {:induction false} OpenSentMoves(c: Conn, e: Event, o1: SendOutcome)
    requires c.state == OpenSent && OnlyMoves(c, e)
    ensures Moved(c, OnOpenSent(c, e, o1).0)
  {
    hide Count, Negotiated, Answered;
  }

  lemma {:induction false} OpenConfirmMoves(c: Conn, e: Event, o1: SendOutcome)
    requires c.state == OpenConfirm
    ensures Moved(c, OnOpenConfirm(c, e, o1).0)
  {
    hide Count;
  }

  lemma {:induction false} EstablishedMoves(c: Conn, e: Event, o1: SendOutcome)
    requires c.state == Established
    ensures Moved(c, OnEstablished(c, e, o1).0)
  {
    hide Count;
  }

  lemma {:induction false} HandledMoves(c: Conn, e: Event, o1: SendOutcome, o2: SendOutcome)
    requires OnlyMoves(c, e)
    ensures Moved(c, Handled(c, e, o1, o2).0)
  {
    hide OnConnected, OnOpenSent, OnOpenConfirm, OnEstablished;
    match c.state {
      case Connected => ConnectedMoves(c, e, o1, o2);
      case OpenSent => OpenSentMoves(c, e, o1);
      case OpenConfirm => OpenConfirmMoves(c, e, o1);
      case Established => EstablishedMoves(c, e, o1);
      case Terminate =>
    }
  }

  /** The five others. */
  ghost function Opening(c: Conn, e: Event, o1: SendOutcome, o2: SendOutcome): (Conn, bool) {
    if e.BGPOpen? then Answered(Negotiated(c, e.open), o1)
    else if e.BGPOpenWithDelayOpenTimer? then AnsweredWithOpen(Negotiated(c, e.open), o1, o2)
    else if e.DelayOpenTimerExpires? || c.config.openDelay == 0 then OpenFirst(c, o1)
    else (c.(openDelayTimer := true), true)
  }

  lemma {:induction false} HandledOpens(c: Conn, e: Event, o1: SendOutcome, o2: SendOutcome)
    requires !OnlyMoves(c, e)
    ensures Handled(c, e, o1, o2) == Opening(c, e, o1, o2)
  {
    hide Negotiated, OpenFirst, Answered, AnsweredWithOpen;
  }

  lemma {:induction false} HandledKeepsIdentity(c: Conn, e: Event, o1: SendOutcome, o2: SendOutcome)
    ensures SameIdentity(c, Handled(c, e, o1, o2).0)
  {
    hide Handled, Count, Minimum, Jittered, MyAsn4;
    if OnlyMoves(c, e) {
      HandledMoves(c, e, o1, o2);
    } else {
      HandledOpens(c, e, o1, o2);
    }
  }

  /** The identifier is that of the last OPEN, from the moment it is polled. */
  lemma {:induction false} HandledKeepsId(c: Conn, e: Event, o1: SendOutcome, o2: SendOutcome)
    requires e.BGPOpen? || e.BGPOpenWithDelayOpenTimer? ==> c.peerBgpId == Some(e.open.bgpId)
    ensures Handled(c, e, o1, o2).0.peerBgpId == c.peerBgpId
  {
    hide Handled, Count, Minimum, Jittered, MyAsn4;
    if OnlyMoves(c, e) {
      HandledMoves(c, e, o1, o2);
    } else {
      HandledOpens(c, e, o1, o2);
    }
  }

  // ----- Whole runs of one connection

  /** One input of a run, with the outcomes of the writes it causes. */
  datatype Drive = Drive(input: Input, o1: SendOutcome, o2: SendOutcome)

  function Driven(c: Conn, d: Drive): (Conn, bool)
    requires Enabled(c, d.input)
  {
    var (p, e) := Polled(c, d.input);
    Handled(p, e, d.o1, d.o2)
  }

  /** A run in which every timer that ticks is armed. Writes may fail: an owner may go on all the same. */
  ghost predicate Possible(c: Conn, run: seq<Drive>)
    decreases |run|
  {
    run == [] || (Enabled(c, run[0].input) && Possible(Driven(c, run[0]).0, run[1..]))
  }

  ghost function After(c: Conn, run: seq<Drive>): Conn
    requires Possible(c, run)
    decreases |run|
  {
    if run == [] then c else After(Driven(c, run[0]).0, run[1..])
  }

  /** A connection that has just been opened, by us or by the peer. */
  ghost predicate JustOpened(c: Conn) {
    exists d: Direction, f: ConnConfig, a: Option<nat>, k: real, j: real, e: Event, o1: SendOutcome, o2: SendOutcome ::
      0.75 <= j <= 1.0 && !ComesFromPolling(e) && Handled(NewConn(d, f, a, k, j), e, o1, o2) == (c, true)
  }

  // ----- Timers

  /** Which timers run in which state. A connection that waits without a delay timer will not be confirmed any more. */
  ghost predicate Armed(c: Conn) {
    match c.state
    case Connected =>
      c.openDelayTimer ==>
        c.config.openDelay != 0 && !c.openedFirst && !c.unanswered && c.keepAliveTimer.None? && c.holdTimer.None?
    case OpenSent =>
      && !c.openDelayTimer && c.openedFirst
      && (c.keepAliveTimer.Some? <==> c.unanswered)
      && (c.holdTimer.Some? <==> c.unanswered || c.config.holdTimeLarge != 0)
    case OpenConfirm | Established =>
      && !c.openDelayTimer && (c.config.openDelay == 0 ==> c.openedFirst)
      && (c.keepAliveTimer.Some? <==> c.holdTime > 0 || c.unanswered)
      && (c.holdTimer.Some? <==> c.holdTime > 0 || c.unanswered || (c.openedFirst && c.config.holdTimeLarge != 0))
    case Terminate => true
  }

  /** What is armed between polling an event and handling it: a delay timer that has ticked is gone. */
  ghost predicate ArmedFor(c: Conn, e: Event) {
    if e.DelayOpenTimerExpires? || !ComesFromPolling(e) then
      (c.state == Connected ==>
         !c.openDelayTimer && !c.openedFirst && !c.unanswered && c.keepAliveTimer.None? && c.holdTimer.None?)
    else Armed(c) && (c.state == Connected && e.BGPOpenWithDelayOpenTimer? ==> c.openDelayTimer)
  }

  /** An event that has just been polled from the connection. */
  ghost predicate Due(c: Conn, e: Event) {
    Evidence(c, e) && ComesFromPolling(e) && ArmedFor(c, e)
  }

  lemma {:induction false} PolledIsArmed(c: Conn, input: Input)
    requires Armed(c) && Enabled(c, input)
    ensures ArmedFor(Polled(c, input).0, Polled(c, input).1) && Armed(Polled(c, input).0)
  {
  }

  /** Handling keeps the timers as they should be, whether or not its writes succeed. */
  lemma {:induction false} HandledKeepsArmed(c: Conn, e: Event, o1: SendOutcome, o2: SendOutcome)
    requires ArmedFor(c, e) && Armed(c)
    ensures Armed(Handled(c, e, o1, o2).0)
  {
    hide Handled, Count, Minimum, Jittered, MyAsn4;
    if OnlyMoves(c, e) {
      HandledMoves(c, e, o1, o2);
    } else {
      HandledOpens(c, e, o1, o2);
    }
  }

  lemma {:induction false} JustOpenedIsArmed(c: Conn)
    requires JustOpened(c)
    ensures Armed(c) && !c.unanswered && c.state in {Connected, OpenSent} && c.openedFirst == (c.config.openDelay == 0)
  {
  }

  lemma {:induction false} RunKeepsArmed(c: Conn, run: seq<Drive>)
    requires Armed(c) && Possible(c, run)
    ensures Armed(After(c, run))
    decreases |run|
  {
    hide Armed, ArmedFor, Handled, Polled, Enabled;
    if run != [] {
      PolledIsArmed(c, run[0].input);
      var (p, e) := Polled(c, run[0].input);
      HandledKeepsArmed(p, e, run[0].o1, run[0].o2);
      RunKeepsArmed(Driven(c, run[0]).0, run[1..]);
    }
  }

  /** Handling `e` takes in an OPEN with a positive hold time, but its answer cannot be written. */
  ghost predicate LostBy(c: Conn, e: Event, o1: SendOutcome, o2: SendOutcome) {
    match c.state
    case Connected =>
      && e.BGPOpenWithDelayOpenTimer? && !(o1.Sent? && o2.Sent?)
      && c.config.holdTime > 0 && e.open.holdTime > 0
    case OpenSent => e.BGPOpen? && !o1.Sent? && c.config.holdTime > 0 && e.open.holdTime > 0
    case _ => false
  }

  lemma {:induction false} HandledRemembersLoss(c: Conn, e: Event, o1: SendOutcome, o2: SendOutcome)
    ensures Handled(c, e, o1, o2).0.unanswered <==> c.unanswered || LostBy(c, e, o1, o2)
  {
    hide Handled, Count, Jittered, MyAsn4;
    if OnlyMoves(c, e) {
      HandledMoves(c, e, o1, o2);
    } else {
      HandledOpens(c, e, o1, o2);
    }
  }

  /** An answer is lost somewhere in a run. */
  ghost predicate LosesIn(c: Conn, run: seq<Drive>)
    requires Possible(c, run)
    decreases |run|
  {
    run != [] &&
    var (p, e) := Polled(c, run[0].input);
    LostBy(p, e, run[0].o1, run[0].o2) || LosesIn(Driven(c, run[0]).0, run[1..])
  }

  ghost predicate DelayTicks(run: seq<Drive>) {
    run != [] && (run[0].input.DelayTick? || DelayTicks(run[1..]))
  }

  /** A connection past Connected sent its OPEN first if it did not have to wait, or its delay timer has ticked. */
  ghost predicate TickedAs(c: Conn, ticked: bool) {
    && (c.state == Connected ==> (c.openDelayTimer ==> !ticked))
    && (c.state in {OpenSent, OpenConfirm, Established} ==> (c.openedFirst <==> c.config.openDelay == 0 || ticked))
  }

  lemma {:induction false} HandledKeepsTicked(c: Conn, e: Event, o1: SendOutcome, o2: SendOutcome, ticked: bool)
    requires ArmedFor(c, e) && Armed(c) && ComesFromPolling(e) && TickedAs(c, ticked)
    requires c.state == Connected && e.DelayOpenTimerExpires? ==> ticked
    ensures TickedAs(Handled(c, e, o1, o2).0, ticked)
  {
    hide Handled, Count, Minimum, Jittered, MyAsn4;
    if OnlyMoves(c, e) {
      HandledMoves(c, e, o1, o2);
    } else {
      HandledOpens(c, e, o1, o2);
    }
  }

  lemma {:induction false} PolledKeepsTicked(c: Conn, input: Input, ticked: bool)
    requires Enabled(c, input) && Armed(c) && TickedAs(c, ticked)
    ensures var (d, e) := Polled(c, input);
      && TickedAs(d, ticked || input.DelayTick?)
      && ComesFromPolling(e) && (e.DelayOpenTimerExpires? ==> input.DelayTick?)
  {
  }

  /** The two fields of history say what they should: whether an answer has been lost, and whether the delay timer has
      ticked. */
  lemma {:induction false} HistoryIsRemembered(c: Conn, run: seq<Drive>, ticked: bool)
    requires Armed(c) && Possible(c, run) && TickedAs(c, ticked)
    ensures After(c, run).unanswered <==> c.unanswered || LosesIn(c, run)
    ensures TickedAs(After(c, run), ticked || DelayTicks(run)) && After(c, run).config == c.config
    decreases |run|
  {
    hide Armed, ArmedFor, Handled, Polled, Enabled, LostBy, TickedAs, ComesFromPolling;
    if run != [] {
      var (p, e) := Polled(c, run[0].input);
      PolledIsArmed(c, run[0].input);
      PolledKeepsTicked(c, run[0].input, ticked);
      PolledKeepsHistory(c, run[0].input);
      HandledRemembersLoss(p, e, run[0].o1, run[0].o2);
      HandledKeepsArmed(p, e, run[0].o1, run[0].o2);
      HandledKeepsTicked(p, e, run[0].o1, run[0].o2, ticked || run[0].input.DelayTick?);
      HandledKeepsIdentity(p, e, run[0].o1, run[0].o2);
      HistoryIsRemembered(Driven(c, run[0]).0, run[1..], ticked || run[0].input.DelayTick?);
    }
  }

  lemma {:induction false} PolledKeepsHistory(c: Conn, input: Input)
    requires Enabled(c, input)
    ensures Polled(c, input).0.unanswered == c.unanswered && Polled(c, input).0.config == c.config
  {
  }

  /** Once a session is confirmed, whatever writes failed on the way, the keepalive timer runs exactly if the hold time
      in force is not zero or an earlier OPEN had a positive one and could not be answered. The hold timer runs in these
      cases and also if our OPEN went out first: then its large initial value survives a hold time of zero. */
  lemma {:induction false} HoldTimerRunsIff(c: Conn, run: seq<Drive>)
    requires JustOpened(c) && Possible(c, run)
    requires After(c, run).state in {OpenConfirm, Established}
    ensures var d := After(c, run);
      && (d.keepAliveTimer.Some? <==> d.holdTime > 0 || LosesIn(c, run))
      && (d.holdTimer.Some? <==>
            || d.holdTime > 0 || LosesIn(c, run)
            || ((c.config.openDelay == 0 || DelayTicks(run)) && c.config.holdTimeLarge != 0))
  {
    JustOpenedIsArmed(c);
    RunKeepsArmed(c, run);
    HistoryIsRemembered(c, run, false);
  }

  /** An OPEN is taken in whose answer cannot be written, and a second one announces no hold time: the session is
      confirmed without a hold time, with both timers of the first OPEN still running. */
  lemma {:induction false} LostAnswerKeepsTimers(c: Conn, first: OpenMessage, second: OpenMessage, o: SendOutcome)
    requires c.state == OpenSent && Armed(c) && c.config.holdTime > 0 && first.holdTime > 0 && second.holdTime == 0
    requires !o.Sent? && MyAsn4(first) == MyAsn4(second) && (c.peerAsn.Some? ==> c.peerAsn.value == MyAsn4(first))
    ensures var lost := Driven(c, Drive(Incoming(Open(first)), o, Sent)).0;
      var d := Driven(lost, Drive(Incoming(Open(second)), Sent, Sent)).0;
      d.state == OpenConfirm && d.holdTime == 0 && d.keepAliveTimer.Some? && d.holdTimer.Some?
  {
    hide MyAsn4, Count, Jittered;
    var lost := Driven(c, Drive(Incoming(Open(first)), o, Sent)).0;
    assert lost.state == OpenSent && lost.unanswered && lost.keepAliveTimer.Some? && lost.holdTimer.Some?;
    assert lost.peerAsn == Some(MyAsn4(first)) && !lost.openDelayTimer;
  }

  /** A session negotiated without a hold time, by either side, is nevertheless ended by a hold timer. */
  lemma {:induction false} ZeroHoldTimeExpires(c: Conn, open: OpenMessage)
    requires c.state == OpenSent && Armed(c) && c.config.holdTimeLarge != 0
    requires c.config.holdTime == 0 || open.holdTime == 0
    requires c.peerAsn.None? || c.peerAsn.value == MyAsn4(open)
    ensures var confirmed := Driven(c, Drive(Incoming(Open(open)), Sent, Sent)).0;
      var session := Driven(confirmed, Drive(Incoming(KeepAlive), Sent, Sent)).0;
      && session.state == Established && session.holdTime == 0
      && Enabled(session, HoldTick) && Driven(session, Drive(HoldTick, Sent, Sent)).0.state == Terminate
  {
    hide MyAsn4, Count, Jittered;
    var confirmed := Driven(c, Drive(Incoming(Open(open)), Sent, Sent)).0;
    assert confirmed.state == OpenConfirm && confirmed.holdTime == 0 && confirmed.holdTimer.Some?;
    var session := Driven(confirmed, Drive(Incoming(KeepAlive), Sent, Sent)).0;
    assert session.state == Established && session.holdTimer == confirmed.holdTimer;
  }

  // ----- Counters

  function Tally(c: Counters, k: Kind): nat {
    match k
    case OpenKind => c.open
    case UpdateKind => c.update
    case NotificationKind => c.notification
    case KeepAliveKind => c.keepAlive
    case RouteRefreshKind => c.routeRefresh
  }

  ghost function Arrived(d: Drive, k: Kind): nat {
    if d.input.Incoming? && KindOf(d.input.message) == k then 1 else 0
  }

  ghost function ArrivedIn(run: seq<Drive>, k: Kind): nat {
    if run == [] then 0 else Arrived(run[0], k) + ArrivedIn(run[1..], k)
  }

  /** Every message of a run is counted once, under its own kind, whatever writes fail. */
  lemma {:induction false} MessagesAreCounted(c: Conn, run: seq<Drive>, k: Kind)
    requires Possible(c, run)
    ensures Tally(After(c, run).received, k) == Tally(c.received, k) + ArrivedIn(run, k)
    decreases |run|
  {
    hide Handled;
    if run != [] {
      var (p, e) := Polled(c, run[0].input);
      HandledKeepsIdentity(p, e, run[0].o1, run[0].o2);
      PolledCounts(c, run[0], k);
      MessagesAreCounted(Driven(c, run[0]).0, run[1..], k);
    }
  }

  lemma {:induction false} PolledCounts(c: Conn, d: Drive, k: Kind)
    requires Enabled(c, d.input)
    ensures Tally(Polled(c, d.input).0.received, k) == Tally(c.received, k) + Arrived(d, k)
  {
  }
}
