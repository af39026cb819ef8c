/**
 One TCP connection to a BGP peer: its part of the finite state machine of section 8.2.2 of RFC 4271, its timers and
 its message counters. Payloads that no decision depends on are dropped from events and messages.
 */
module BgpConnection {
  import opened Sequences
  import opened BgpOpen

  datatype ConnState = Connected | OpenSent | OpenConfirm | Established | Terminate

  datatype Direction = Active | Passive

  datatype ConnConfig = ConnConfig(
    sendNotifWithoutOpen: bool,
    openDelay: nat,
    holdTime: nat,
    holdTimeLarge: nat)

  datatype Event =
    | HoldTimerExpires
    | KeepAliveTimerExpires
    | DelayOpenTimerExpires
    | TcpConnectionRequestAcked
    | TcpConnectionConfirmed
    | TcpConnectionFails
    | BGPOpen(open: OpenMessage)
    | BGPOpenWithDelayOpenTimer(open: OpenMessage)
    | BGPHeaderErr
    | BGPOpenMsgErr
    | NotifMsgVerErr
    | NotifMsg
    | NotifMsgErr
    | KeepAliveMsg
    | UpdateMsg
    | UpdateMsgErr
    | RouteRefresh
    | RouteRefreshErr

  datatype Kind = OpenKind | UpdateKind | NotificationKind | KeepAliveKind | RouteRefreshKind

  /** A send succeeds, or fails before or after the message has been handed to the codec and counted. */
  datatype SendOutcome = Sent | FailedBeforeStart | FailedAfterStart

  datatype Counters = Counters(total: nat, open: nat, update: nat, notification: nat, keepAlive: nat, routeRefresh: nat)

  /** What the socket and the timers can present to a poll. */
  datatype Input =
    | KeepAliveTick
    | DelayTick
    | HoldTick
    | EndOfStream
    | Undecodable(error: DecodeError)
    | Incoming(message: Message)

  datatype DecodeError = IoError | Incomplete | BadHeader | BadOpen | BadUpdate | BadNotification | BadRouteRefresh

  /** `acceptable` and `versionError` stand for the outcome of inspecting the message body. */
  datatype Message =
    | Open(open: OpenMessage)
    | Update(acceptable: bool)
    | Notification(versionError: bool)
    | KeepAlive
    | Refresh

  /** A connection as a value. Timers are armed with a period, or not armed. The last two fields are history that no
      decision depends on: whether our OPEN went out before the peer's was taken in, and whether an OPEN with a positive
      hold time was taken in whose answer could not be written. */
  datatype Conn = Conn(
    state: ConnState,
    direction: Direction,
    config: ConnConfig,
    jitter: real,
    peerAsn: Option<nat>,
    peerBgpId: Option<nat>,
    peerHoldTime: Option<nat>,
    holdTime: nat,
    holdTimer: Option<nat>,
    keepAliveTime: real,
    keepAliveTimer: Option<real>,
    openDelayTimer: bool,
    sent: Counters,
    received: Counters,
    created: nat,
    openedFirst: bool,
    unanswered: bool)

  const NO_MESSAGES := Counters(0, 0, 0, 0, 0, 0)

  // ----- Specification of the operations

  /** A fresh connection. The creation time in the statistics keeps its default value. */
  function NewConn(
    direction: Direction, config: ConnConfig, peerAsn: Option<nat>, keepAliveTime: real, jitter: real): Conn
  {
    Conn(Connected, direction, config, jitter, peerAsn, None, None, config.holdTime, None, keepAliveTime, None, false,
         NO_MESSAGES, NO_MESSAGES, 0, false, false)
  }

  function Count(c: Counters, k: Kind): Counters {
    var d := c.(total := c.total + 1);
    match k
    case OpenKind => d.(open := c.open + 1)
    case UpdateKind => d.(update := c.update + 1)
    case NotificationKind => d.(notification := c.notification + 1)
    case KeepAliveKind => d.(keepAlive := c.keepAlive + 1)
    case RouteRefreshKind => d.(routeRefresh := c.routeRefresh + 1)
  }

  function Transmitted(c: Conn, k: Kind, o: SendOutcome): Conn {
    if o.FailedBeforeStart? then c else c.(sent := Count(c.sent, k))
  }

  function Minimum(a: nat, b: nat): nat {
    if a < b then a else b
  }

  /** A timer period scaled by the jitter factor of the connection. */
  function Jittered(period: real, jitter: real): real {
    period * jitter
  }

  /** Reading an OPEN and arming the negotiated timers. A timer of zero is not armed, nor is an old one disarmed. */
  function Negotiated(c: Conn, open: OpenMessage): Conn {
    var hold := if c.config.holdTime == 0 then 0 else Minimum(c.config.holdTime, open.holdTime);
    var third := hold as real / 3.0;
    c.(openDelayTimer := false,
       peerAsn := Some(MyAsn4(open)),
       peerBgpId := Some(open.bgpId),
       peerHoldTime := Some(open.holdTime),
       holdTime := hold,
       keepAliveTime := third,
       keepAliveTimer := if hold == 0 then c.keepAliveTimer else Some(Jittered(third, c.jitter)),
       holdTimer := if hold == 0 then c.holdTimer else Some(hold))
  }

  function WithHoldTimer(c: Conn): Conn {
    if c.config.holdTimeLarge == 0 then c
    else c.(holdTime := c.config.holdTimeLarge, holdTimer := Some(c.config.holdTimeLarge))
  }

  /** Sending a message that must get through before the connection enters state `next`. */
  function SendThen(c: Conn, k: Kind, o: SendOutcome, next: ConnState): (Conn, bool) {
    var d := Transmitted(c, k, o);
    (if o.Sent? then d.(state := next) else d, o.Sent?)
  }

  /** Sending our OPEN before the peer's has arrived. */
  function OpenFirst(c: Conn, o: SendOutcome): (Conn, bool) {
    var (d, ok) := SendThen(WithHoldTimer(c), OpenKind, o, OpenSent);
    (d.(openedFirst := ok), ok)
  }

  function Unanswered(c: Conn): Conn {
    c.(unanswered := c.unanswered || c.holdTime > 0)
  }

  /** The KEEPALIVE that answers an OPEN. */
  function Answered(c: Conn, o: SendOutcome): (Conn, bool) {
    var (d, ok) := SendThen(c, KeepAliveKind, o, OpenConfirm);
    (if ok then d else Unanswered(d), ok)
  }

  /** An OPEN that arrives before ours was sent is answered with an OPEN and a KEEPALIVE. */
  function AnsweredWithOpen(c: Conn, o1: SendOutcome, o2: SendOutcome): (Conn, bool) {
    var d := Transmitted(c, OpenKind, o1);
    if o1.Sent? then Answered(d, o2) else (Unanswered(d), false)
  }

  function OnConnected(c: Conn, e: Event, o1: SendOutcome, o2: SendOutcome): (Conn, bool) {
    match e
    case DelayOpenTimerExpires => OpenFirst(c, o1)
    case TcpConnectionRequestAcked | TcpConnectionConfirmed =>
      if c.config.openDelay == 0 then OpenFirst(c, o1) else (c.(openDelayTimer := true), true)
    case BGPOpenWithDelayOpenTimer(open) => AnsweredWithOpen(Negotiated(c, open), o1, o2)
    case BGPHeaderErr | BGPOpenMsgErr =>
      ((if c.config.sendNotifWithoutOpen then Transmitted(c, NotificationKind, o1) else c).(state := Terminate), true)
    case NotifMsgErr => (c, true)
    case _ => (c.(state := Terminate), true)
  }

  function OnOpenSent(c: Conn, e: Event, o1: SendOutcome): (Conn, bool) {
    match e
    case HoldTimerExpires => SendThen(c, NotificationKind, o1, Terminate)
    case BGPOpen(open) => Answered(Negotiated(c, open), o1)
    case NotifMsgErr => (c, true)
    case TcpConnectionFails | NotifMsgVerErr | TcpConnectionRequestAcked | TcpConnectionConfirmed =>
      (c.(state := Terminate), true)
    case _ => (Transmitted(c, NotificationKind, o1).(state := Terminate), true)
  }

  function OnOpenConfirm(c: Conn, e: Event, o1: SendOutcome): (Conn, bool) {
    match e
    case HoldTimerExpires => (Transmitted(c, NotificationKind, o1).(state := Terminate), o1.Sent?)
    case KeepAliveTimerExpires => SendThen(c, KeepAliveKind, o1, OpenConfirm)
    case KeepAliveMsg => (c.(state := Established), true)
    case NotifMsgErr => (c, true)
    case NotifMsgVerErr | NotifMsg | TcpConnectionFails | TcpConnectionRequestAcked | TcpConnectionConfirmed =>
      (c.(state := Terminate), true)
    case _ => (Transmitted(c, NotificationKind, o1).(state := Terminate), true)
  }

  function OnEstablished(c: Conn, e: Event, o1: SendOutcome): (Conn, bool) {
    match e
    case HoldTimerExpires => (Transmitted(c, NotificationKind, o1).(state := Terminate), true)
    case KeepAliveTimerExpires => SendThen(c, KeepAliveKind, o1, Established)
    case KeepAliveMsg | UpdateMsg | RouteRefresh | NotifMsgErr => (c, true)
    case _ => (c.(state := Terminate), true)
  }

  /** Handling one event: the new connection, and whether the call returned without a write error. */
  function Handled(c: Conn, e: Event, o1: SendOutcome, o2: SendOutcome): (Conn, bool) {
    match c.state
    case Terminate => (c, true)
    case Connected => OnConnected(c, e, o1, o2)
    case OpenSent => OnOpenSent(c, e, o1)
    case OpenConfirm => OnOpenConfirm(c, e, o1)
    case Established => OnEstablished(c, e, o1)
  }

  /** A timer can only tick while it is armed. */
  predicate Enabled(c: Conn, input: Input) {
    match input
    case KeepAliveTick => c.keepAliveTimer.Some?
    case DelayTick => c.openDelayTimer
    case HoldTick => c.holdTimer.Some?
    case _ => true
  }

  function DecodeEvent(err: DecodeError): Event {
    match err
    case IoError => TcpConnectionFails
    case Incomplete | BadHeader => BGPHeaderErr
    case BadOpen => BGPOpenMsgErr
    case BadUpdate => UpdateMsgErr
    case BadNotification => NotifMsgErr
    case BadRouteRefresh => RouteRefreshErr
  }

  /** The event of an OPEN: an error if the AS number is not the expected one. */
  function OpenEvent(open: OpenMessage, peerAsn: Option<nat>, delayTimerRunning: bool): Event {
    if peerAsn.Some? && peerAsn.value != MyAsn4(open) then BGPOpenMsgErr
    else if delayTimerRunning then BGPOpenWithDelayOpenTimer(open)
    else BGPOpen(open)
  }

  function MessageEvent(c: Conn, m: Message): Event {
    match m
    case Open(open) => OpenEvent(open, c.peerAsn, c.openDelayTimer)
    case Update(acceptable) => if acceptable then UpdateMsg else UpdateMsgErr
    case Notification(versionError) => if versionError then NotifMsgVerErr else NotifMsg
    case KeepAlive => KeepAliveMsg
    case Refresh => RouteRefresh
  }

  function KindOf(m: Message): Kind {
    match m
    case Open(_) => OpenKind
    case Update(_) => UpdateKind
    case Notification(_) => NotificationKind
    case KeepAlive => KeepAliveKind
    case Refresh => RouteRefreshKind
  }

  /** Polling: the connection after the input has been taken in, and the event it stands for. The identifier of an
      OPEN is remembered before the event is handled, even if the OPEN is rejected. */
  function Polled(c: Conn, input: Input): (Conn, Event)
    requires Enabled(c, input)
  {
    match input
    case KeepAliveTick => (c, KeepAliveTimerExpires)
    case DelayTick => (c.(openDelayTimer := false), DelayOpenTimerExpires)
    case HoldTick => (c, HoldTimerExpires)
    case EndOfStream => (c, TcpConnectionFails)
    case Undecodable(err) => (c, DecodeEvent(err))
    case Incoming(m) =>
      var d := c.(received := Count(c.received, KindOf(m)));
      (if m.Open? then d.(peerBgpId := Some(m.open.bgpId)) else d, MessageEvent(c, m))
  }

  // ----- In place

  /** The connection object. */
  class Connection {
    const direction: Direction
    const config: ConnConfig
    const jitter: real
    const created: nat
    var state: ConnState
    var peerAsn: Option<nat>
    var peerBgpId: Option<nat>
    var peerHoldTime: Option<nat>
    var holdTime: nat
    var holdTimer: Option<nat>
    var keepAliveTime: real
    var keepAliveTimer: Option<real>
    var openDelayTimer: bool
    var sent: Counters
    var received: Counters
    ghost var openedFirst: bool
    ghost var unanswered: bool

    ghost function View(): Conn
      reads this
    {
      Conn(state, direction, config, jitter, peerAsn, peerBgpId, peerHoldTime, holdTime, holdTimer, keepAliveTime,
           keepAliveTimer, openDelayTimer, sent, received, created, openedFirst, unanswered)
    }

    /** Whether polling with `input` would yield something. */
    predicate IsReady(input: Input)
      reads this
      ensures IsReady(input) <==> Enabled(View(), input)
    {
      match input
      case KeepAliveTick => keepAliveTimer.Some?
      case DelayTick => openDelayTimer
      case HoldTick => holdTimer.Some?
      case _ => true
    }

    constructor (direction: Direction, config: ConnConfig, peerAsn: Option<nat>, keepAliveTime: real, jitter: real)
      ensures View() == NewConn(direction, config, peerAsn, keepAliveTime, jitter)
    {
      this.direction, this.config, this.jitter, this.created := direction, config, jitter, 0;
      this.state, this.peerAsn, this.peerBgpId, this.peerHoldTime := Connected, peerAsn, None, None;
      this.holdTime, this.holdTimer := config.holdTime, None;
      this.keepAliveTime, this.keepAliveTimer, this.openDelayTimer := keepAliveTime, None, false;
      this.sent, this.received := NO_MESSAGES, NO_MESSAGES;
      this.openedFirst, this.unanswered := false, false;
    }

    method Send(k: Kind, o: SendOutcome) returns (ok: bool)
      modifies this`sent
      ensures View() == Transmitted(old(View()), k, o)
      ensures ok == o.Sent?
    {
      ok := o.Sent?;
      if !o.FailedBeforeStart? {
        sent := Count(sent, k);
      }
    }

    method ReadOpen(open: OpenMessage)
      modifies this`peerAsn, this`peerBgpId, this`peerHoldTime
      ensures peerAsn == Some(MyAsn4(open)) && peerBgpId == Some(open.bgpId) && peerHoldTime == Some(open.holdTime)
    {
      peerAsn := Some(MyAsn4(open));
      peerBgpId := Some(open.bgpId);
      peerHoldTime := Some(open.holdTime);
    }

    /** The negotiated hold time is the smaller of the two, the keepalive time a third of it; zero disables both. */
    method SetNegotiatedTimers()
      modifies this`holdTime, this`keepAliveTime
      ensures holdTime ==
        if config.holdTime == 0 then 0
        else if peerHoldTime.Some? then Minimum(config.holdTime, peerHoldTime.value)
        else config.holdTimeLarge
      ensures keepAliveTime == holdTime as real / 3.0
    {
      if config.holdTime == 0 {
        holdTime := 0;
        keepAliveTime := 0.0;
        return;
      }
      match peerHoldTime {
        case Some(receivedHoldTime) => holdTime := Minimum(config.holdTime, receivedHoldTime);
        case None => holdTime := config.holdTimeLarge;
      }
      keepAliveTime := holdTime as real / 3.0;
    }

    method StartHoldTimer()
      modifies this`holdTime, this`holdTimer
      ensures View() == WithHoldTimer(old(View()))
    {
      if config.holdTimeLarge != 0 {
        holdTime := config.holdTimeLarge;
        holdTimer := Some(holdTime);
      }
    }

    /** The negotiation steps that both OPEN handlers perform. */
    method Negotiate(open: OpenMessage)
      modifies this
      ensures View() == Negotiated(old(View()), open)
    {
      openDelayTimer := false;
      ReadOpen(open);
      SetNegotiatedTimers();
      assert keepAliveTime == 0.0 <==> holdTime == 0 by {
        assert holdTime != 0 ==> holdTime as real >= 1.0;
      }
      if keepAliveTime != 0.0 {
        keepAliveTimer := Some(Jittered(keepAliveTime, jitter));
      }
      if holdTime != 0 {
        holdTimer := Some(holdTime);
      }
    }

    method HandleEvent(e: Event, o1: SendOutcome, o2: SendOutcome) returns (ok: bool)
      modifies this
      ensures View() == Handled(old(View()), e, o1, o2).0 && ok == Handled(old(View()), e, o1, o2).1
    {
      hide OnConnected, OnOpenSent, OnOpenConfirm, OnEstablished;
      ok := true;
      match state {
        case Terminate =>
        case Connected => ok := HandleConnected(e, o1, o2);
        case OpenSent => ok := HandleOpenSent(e, o1);
        case OpenConfirm => ok := HandleOpenConfirm(e, o1);
        case Established => ok := HandleEstablished(e, o1);
      }
    }

    /** Starts the hold timer with its large value and sends the OPEN. */
    method SendOpen(o: SendOutcome) returns (ok: bool)
      modifies this
      ensures View() == OpenFirst(old(View()), o).0 && ok == OpenFirst(old(View()), o).1
    {
      StartHoldTimer();
      ok := Send(OpenKind, o);
      openedFirst := ok;
      if ok {
        state := OpenSent;
      }
    }

    /** Answers an OPEN with a KEEPALIVE. */
    method Confirm(o: SendOutcome) returns (ok: bool)
      modifies this
      ensures View() == Answered(old(View()), o).0 && ok == Answered(old(View()), o).1
    {
      ok := Send(KeepAliveKind, o);
      if ok {
        state := OpenConfirm;
      } else {
        unanswered := unanswered || holdTime > 0;
      }
    }

    /** Answers an OPEN that arrived before ours was sent, with an OPEN and a KEEPALIVE. */
    method AnswerOpen(open: OpenMessage, o1: SendOutcome, o2: SendOutcome) returns (ok: bool)
      modifies this
      ensures var r := AnsweredWithOpen(Negotiated(old(View()), open), o1, o2); View() == r.0 && ok == r.1
    {
      Negotiate(open);
      ok := Send(OpenKind, o1);
      if ok {
        ok := Confirm(o2);
      } else {
        unanswered := unanswered || holdTime > 0;
      }
    }

    /** The first event of a connection: our OPEN goes out, or waits for the delay timer. */
    method OpenOrDelay(o1: SendOutcome) returns (ok: bool)
      modifies this
      ensures var c := old(View());
        (View(), ok) == if c.config.openDelay == 0 then OpenFirst(c, o1) else (c.(openDelayTimer := true), true)
    {
      ok := true;
      if config.openDelay == 0 {
        ok := SendOpen(o1);
      } else {
        openDelayTimer := true;
      }
    }

    /** A malformed message before any OPEN. */
    method RejectUnopened(o1: SendOutcome)
      modifies this
      ensures var c := old(View());
        var d := if c.config.sendNotifWithoutOpen then Transmitted(c, NotificationKind, o1) else c;
        View() == d.(state := Terminate)
    {
      if config.sendNotifWithoutOpen {
        var _ := Send(NotificationKind, o1);
      }
      state := Terminate;
    }

    method HandleConnected(e: Event, o1: SendOutcome, o2: SendOutcome) returns (ok: bool)
      requires state == Connected
      modifies this
      ensures View() == OnConnected(old(View()), e, o1, o2).0 && ok == OnConnected(old(View()), e, o1, o2).1
    {
      hide OpenFirst, AnsweredWithOpen, Negotiated, Transmitted;
      ok := true;
      match e {
        case DelayOpenTimerExpires =>
          ok := SendOpen(o1);
        case TcpConnectionRequestAcked | TcpConnectionConfirmed =>
          ok := OpenOrDelay(o1);
        case BGPOpenWithDelayOpenTimer(open) =>
          ok := AnswerOpen(open, o1, o2);
        case BGPHeaderErr | BGPOpenMsgErr =>
          RejectUnopened(o1);
        case NotifMsgErr =>
        case HoldTimerExpires | KeepAliveTimerExpires | TcpConnectionFails | BGPOpen(_) | NotifMsgVerErr | NotifMsg
          | KeepAliveMsg | UpdateMsg | UpdateMsgErr | RouteRefresh | RouteRefreshErr =>
          state := Terminate;
      }
    }

    method HandleOpenSent(e: Event, o1: SendOutcome) returns (ok: bool)
      requires state == OpenSent
      modifies this
      ensures View() == OnOpenSent(old(View()), e, o1).0 && ok == OnOpenSent(old(View()), e, o1).1
    {
      hide Answered, Negotiated, Transmitted;
      ok := true;
      match e {
        case HoldTimerExpires =>
          ok := Send(NotificationKind, o1);
          if ok {
            state := Terminate;
          }
        case BGPOpen(open) =>
          Negotiate(open);
          ok := Confirm(o1);
        case NotifMsgErr =>
        case TcpConnectionFails | NotifMsgVerErr | TcpConnectionRequestAcked | TcpConnectionConfirmed =>
          state := Terminate;
        case BGPHeaderErr | BGPOpenMsgErr | KeepAliveTimerExpires | DelayOpenTimerExpires | BGPOpenWithDelayOpenTimer(_)
          | NotifMsg | KeepAliveMsg | UpdateMsg | UpdateMsgErr | RouteRefresh | RouteRefreshErr =>
          var _ := Send(NotificationKind, o1);
          state := Terminate;
      }
    }

    method HandleOpenConfirm(e: Event, o1: SendOutcome) returns (ok: bool)
      requires state == OpenConfirm
      modifies this
      ensures View() == OnOpenConfirm(old(View()), e, o1).0 && ok == OnOpenConfirm(old(View()), e, o1).1
    {
      hide Count;
      ok := true;
      match e {
        case HoldTimerExpires =>
          state := Terminate;
          ok := Send(NotificationKind, o1);
        case KeepAliveTimerExpires =>
          ok := Send(KeepAliveKind, o1);
        case KeepAliveMsg =>
          state := Established;
        case NotifMsgErr =>
        case NotifMsgVerErr | NotifMsg | TcpConnectionFails | TcpConnectionRequestAcked | TcpConnectionConfirmed =>
          state := Terminate;
        case BGPHeaderErr | BGPOpenMsgErr | BGPOpen(_) | DelayOpenTimerExpires | BGPOpenWithDelayOpenTimer(_)
          | UpdateMsg
          | UpdateMsgErr | RouteRefresh | RouteRefreshErr =>
          var _ := Send(NotificationKind, o1);
          state := Terminate;
      }
    }

    method HandleEstablished(e: Event, o1: SendOutcome) returns (ok: bool)
      requires state == Established
      modifies this
      ensures View() == OnEstablished(old(View()), e, o1).0 && ok == OnEstablished(old(View()), e, o1).1
    {
      hide Transmitted;
      ok := true;
      match e {
        case HoldTimerExpires =>
          var _ := Send(NotificationKind, o1);
          state := Terminate;
        case KeepAliveTimerExpires =>
          ok := Send(KeepAliveKind, o1);
        case KeepAliveMsg | UpdateMsg | RouteRefresh | NotifMsgErr =>
        case DelayOpenTimerExpires | TcpConnectionRequestAcked | TcpConnectionConfirmed | TcpConnectionFails
          | BGPOpen(_)
          | BGPOpenWithDelayOpenTimer(_) | BGPHeaderErr | BGPOpenMsgErr | NotifMsgVerErr | NotifMsg | UpdateMsgErr
          | RouteRefreshErr =>
          state := Terminate;
      }
    }

    method PollNext(input: Input) returns (e: Event)
      requires Enabled(View(), input)
      modifies this
      ensures View() == Polled(old(View()), input).0 && e == Polled(old(View()), input).1
    {
      match input {
        case KeepAliveTick =>
          e := KeepAliveTimerExpires;
        case DelayTick =>
          openDelayTimer := false;
          e := DelayOpenTimerExpires;
        case HoldTick =>
          e := HoldTimerExpires;
        case EndOfStream =>
          e := TcpConnectionFails;
        case Undecodable(err) =>
          e := DecodeEvent(err);
        case Incoming(m) =>
          received := Count(received, KindOf(m));
          match m {
            case Open(open) =>
              e := OpenEvent(open, peerAsn, openDelayTimer);
              peerBgpId := Some(open.bgpId);
            case Update(acceptable) =>
              e := if acceptable then UpdateMsg else UpdateMsgErr;
            case Notification(versionError) =>
              e := if versionError then NotifMsgVerErr else NotifMsg;
            case KeepAlive =>
              e := KeepAliveMsg;
            case Refresh =>
              e := RouteRefresh;
          }
      }
    }
  }
}
