/** What one connection does with each input, in terms of the input: which state follows, what is sent, what is
    reported; and what that comes to over whole runs. */
module BgpConnectionLaws {
  import opened Sequences
  import opened BgpOpen
  import opened BgpConnection
  import opened BgpConnectionTheory

  // ----- Kinds of input

  /** The transport is gone. */
  ghost predicate IsLoss(input: Input) {
    input == EndOfStream || input == Undecodable(IoError)
  }

  /** An OPEN whose AS number is the one we expect, if we expect one. */
  ghost predicate IsAcceptedOpen(c: Conn, input: Input) {
    && input.Incoming? && input.message.Open?
    && (c.peerAsn.Some? ==> c.peerAsn.value == MyAsn4(input.message.open))
  }

  /** Something that could not be read as a header or as an OPEN, or an OPEN of another AS. */
  ghost predicate IsBadOpening(c: Conn, input: Input) {
    || (input.Undecodable? && input.error in {Incomplete, BadHeader, BadOpen})
    || (input.Incoming? && input.message.Open? && !IsAcceptedOpen(c, input))
  }

  /** The messages that belong to a session that is up. */
  ghost predicate IsRoutine(input: Input) {
    input.Incoming? && input.message in {KeepAlive, Update(true), Refresh}
  }

  /** Our OPEN has not been sent, and the peer's may arrive while the delay timer runs; or it has been sent, and the
      peer's is awaited. */
  ghost predicate AwaitsOpen(c: Conn) {
    if c.openDelayTimer then c.state == Connected else c.state == OpenSent
  }

  /** What can neither be read nor answered is passed over in every state. */
  ghost predicate IsPassedOver(input: Input) {
    input == Undecodable(BadNotification)
  }

  // ----- Tables

  /** The state after an input. Where a write has to get through, the state stays if it does not. */
  ghost function NextState(c: Conn, d: Drive): ConnState {
    if c.state == Terminate || IsPassedOver(d.input) then c.state
    else if IsAcceptedOpen(c, d.input) && AwaitsOpen(c) then
      if d.o1.Sent? && (c.state == Connected ==> d.o2.Sent?) then OpenConfirm else c.state
    else
      match c.state
      case Connected => if d.input != DelayTick then Terminate else if d.o1.Sent? then OpenSent else Connected
      case OpenSent => if d.input == HoldTick && !d.o1.Sent? then OpenSent else Terminate
      case OpenConfirm =>
        if d.input == KeepAliveTick then OpenConfirm
        else if d.input == Incoming(KeepAlive) then Established
        else Terminate
      case Established => if d.input == KeepAliveTick || IsRoutine(d.input) then Established else Terminate
      case Terminate => Terminate
  }

  /** What is written in answer to an input, in order; the second message only if the first got through. */
  ghost function Writes(c: Conn, input: Input): seq<Kind> {
    if c.state == Terminate || IsPassedOver(input) then []
    else if IsAcceptedOpen(c, input) && AwaitsOpen(c) then
      if c.state == Connected then [OpenKind, KeepAliveKind] else [KeepAliveKind]
    else
      match c.state
      case Connected =>
        if input == DelayTick then [OpenKind]
        else if IsBadOpening(c, input) && c.config.sendNotifWithoutOpen then [NotificationKind]
        else []
      case OpenSent =>
        if IsLoss(input) || input == Incoming(Notification(true)) then [] else [NotificationKind]
      case OpenConfirm =>
        if input == KeepAliveTick then [KeepAliveKind]
        else if IsLoss(input) || (input.Incoming? && (input.message.KeepAlive? || input.message.Notification?)) then []
        else [NotificationKind]
      case Established =>
        if input == KeepAliveTick then [KeepAliveKind] else if input == HoldTick then [NotificationKind] else []
      case Terminate => []
  }

  /** A message counts as sent once it has been handed to the codec. */
  ghost function Counted(o: SendOutcome): nat {
    if o.FailedBeforeStart? then 0 else 1
  }

  /** How many messages of a kind an input is answered with. */
  ghost function Owed(c: Conn, d: Drive, k: Kind): nat {
    var w := Writes(c, d.input);
    (if |w| > 0 && w[0] == k then Counted(d.o1) else 0) +
    (if |w| > 1 && w[1] == k && d.o1.Sent? then Counted(d.o2) else 0)
  }

  /** A failed write is reported, except that of a NOTIFICATION that only says why we leave. */
  ghost predicate IsReported(c: Conn, d: Drive) {
    var w := Writes(c, d.input);
    && w != [] && (w[0] != NotificationKind || (d.input == HoldTick && c.state != Established))
    && (!d.o1.Sent? || (|w| > 1 && !d.o2.Sent?))
  }

  // ----- Every input

  /** Which inputs each event stands for. */
  lemma {:induction false} PolledEvent(c: Conn, input: Input)
    requires Enabled(c, input)
    ensures var e := Polled(c, input).1;
      && (IsPassedOver(input) <==> e.NotifMsgErr?)
      && (IsLoss(input) <==> e.TcpConnectionFails?)
      && (IsAcceptedOpen(c, input) <==> e.BGPOpen? || e.BGPOpenWithDelayOpenTimer?)
      && (IsAcceptedOpen(c, input) ==>
            e == if c.openDelayTimer
              then BGPOpenWithDelayOpenTimer(input.message.open) else BGPOpen(input.message.open))
      && (IsBadOpening(c, input) <==> e.BGPHeaderErr? || e.BGPOpenMsgErr?)
      && (IsRoutine(input) <==> e.KeepAliveMsg? || e.UpdateMsg? || e.RouteRefresh?)
      && (input == Incoming(KeepAlive) <==> e.KeepAliveMsg?)
      && (input == Incoming(Update(true)) <==> e.UpdateMsg?)
      && (input == Incoming(Refresh) <==> e.RouteRefresh?)
      && (input == Incoming(Update(false)) || input == Undecodable(BadUpdate) <==> e.UpdateMsgErr?)
      && (input == Undecodable(BadRouteRefresh) <==> e.RouteRefreshErr?)
      && (input == Undecodable(Incomplete) || input == Undecodable(BadHeader) <==> e.BGPHeaderErr?)
      && (input == Incoming(Notification(true)) <==> e.NotifMsgVerErr?)
      && (input == Incoming(Notification(false)) <==> e.NotifMsg?)
      && (input == KeepAliveTick <==> e.KeepAliveTimerExpires?)
      && (input == DelayTick <==> e.DelayOpenTimerExpires?)
      && (input == HoldTick <==> e.HoldTimerExpires?)
      && ComesFromPolling(e)
  {
    hide MyAsn4, Count;
  }

  lemma {:induction false} PolledKeepsRest(c: Conn, input: Input)
    requires Enabled(c, input)
    ensures var d := Polled(c, input).0;
      && d.state == c.state && d.sent == c.sent && d.config == c.config
      && (input != DelayTick ==> d.openDelayTimer == c.openDelayTimer)
  {
    hide MyAsn4, Count;
  }

  lemma {:induction false} CountTallies(c: Counters, k: Kind, l: Kind)
    ensures Tally(Count(c, k), l) == Tally(c, l) + if k == l then 1 else 0
  {
  }

  lemma {:induction false} TransmittedTallies(c: Conn, k: Kind, o: SendOutcome, l: Kind)
    ensures Tally(Transmitted(c, k, o).sent, l) == Tally(c.sent, l) + if k == l then Counted(o) else 0
    ensures Transmitted(c, k, o) == c.(sent := Transmitted(c, k, o).sent)
  {
    hide Count;
    CountTallies(c.sent, k, l);
  }

  /** What the tables say of an input is what polling and handling it does. */
  ghost predicate Follows(c: Conn, d: Drive, k: Kind)
    requires Enabled(c, d.input)
  {
    var (r, ok) := Driven(c, d);
    && r.state == NextState(c, d) && ok == !IsReported(c, d)
    && Tally(r.sent, k) == Tally(c.sent, k) + Owed(c, d, k)
  }

  lemma {:induction false} ConnectedFollows(c: Conn, d: Drive, k: Kind)
    requires Enabled(c, d.input) && c.state == Connected
    ensures Follows(c, d, k)
  {
    hide Polled, Transmitted, Count, MyAsn4, Tally, Jittered, Minimum;
    hide IsAcceptedOpen, IsBadOpening, IsLoss, IsRoutine, IsPassedOver;
    PolledEvent(c, d.input);
    PolledKeepsRest(c, d.input);
    var (p, e) := Polled(c, d.input);
    TransmittedTallies(p, NotificationKind, d.o1, k);
    TransmittedTallies(WithHoldTimer(p), OpenKind, d.o1, k);
    if e.BGPOpenWithDelayOpenTimer? {
      var n := Negotiated(p, e.open);
      TransmittedTallies(n, OpenKind, d.o1, k);
      TransmittedTallies(Transmitted(n, OpenKind, d.o1), KeepAliveKind, d.o2, k);
    }
  }

  lemma {:induction false} OpenSentFollows(c: Conn, d: Drive, k: Kind)
    requires Enabled(c, d.input) && c.state == OpenSent
    ensures Follows(c, d, k)
  {
    hide Polled, Transmitted, Count, MyAsn4, Tally, Jittered, Minimum;
    hide IsAcceptedOpen, IsBadOpening, IsLoss, IsRoutine, IsPassedOver;
    PolledEvent(c, d.input);
    PolledKeepsRest(c, d.input);
    var (p, e) := Polled(c, d.input);
    TransmittedTallies(p, NotificationKind, d.o1, k);
    if e.BGPOpen? {
      TransmittedTallies(Negotiated(p, e.open), KeepAliveKind, d.o1, k);
    }
  }

  lemma {:induction false} OpenConfirmFollows(c: Conn, d: Drive, k: Kind)
    requires Enabled(c, d.input) && c.state == OpenConfirm
    ensures Follows(c, d, k)
  {
    hide Polled, Transmitted, Count, MyAsn4, Tally;
    hide IsAcceptedOpen, IsBadOpening, IsRoutine, IsPassedOver;
    PolledEvent(c, d.input);
    PolledKeepsRest(c, d.input);
    var p := Polled(c, d.input).0;
    TransmittedTallies(p, NotificationKind, d.o1, k);
    TransmittedTallies(p, KeepAliveKind, d.o1, k);
  }

  lemma {:induction false} EstablishedFollows(c: Conn, d: Drive, k: Kind)
    requires Enabled(c, d.input) && c.state == Established
    ensures Follows(c, d, k)
  {
    hide Polled, Transmitted, Count, MyAsn4, Tally;
    hide IsAcceptedOpen, IsBadOpening, IsLoss, IsRoutine, IsPassedOver;
    PolledEvent(c, d.input);
    PolledKeepsRest(c, d.input);
    var p := Polled(c, d.input).0;
    TransmittedTallies(p, NotificationKind, d.o1, k);
    TransmittedTallies(p, KeepAliveKind, d.o1, k);
  }

  /** Every input leads to the state, the messages and the report of the tables. */
  lemma {:induction false} InputsAreAnswered(c: Conn, d: Drive, k: Kind)
    requires Enabled(c, d.input)
    ensures var (r, ok) := Driven(c, d);
      && r.state == NextState(c, d) && ok == !IsReported(c, d)
      && Tally(r.sent, k) == Tally(c.sent, k) + Owed(c, d, k)
  {
    hide Driven, NextState, IsReported, Owed, Tally;
    match c.state {
      case Connected => ConnectedFollows(c, d, k);
      case OpenSent => OpenSentFollows(c, d, k);
      case OpenConfirm => OpenConfirmFollows(c, d, k);
      case Established => EstablishedFollows(c, d, k);
      case Terminate => TerminatedFollows(c, d, k);
    }
  }

  lemma {:induction false} TerminatedFollows(c: Conn, d: Drive, k: Kind)
    requires Enabled(c, d.input) && c.state == Terminate
    ensures Follows(c, d, k)
  {
    hide Polled, Count, MyAsn4, Tally;
    PolledKeepsRest(c, d.input);
  }

  /** What a connection has agreed on, as an OPEN settles it: AS number, identifier and hold time of the peer, and as
      our hold time the smaller of both. Unless that is zero, the hold timer runs for it and the keepalive timer for a
      third of it, scaled by the jitter; with zero, timers that ran go on. */
  ghost predicate IsSettled(c: Conn, r: Conn, open: OpenMessage) {
    && r.peerAsn == Some(MyAsn4(open)) && r.peerBgpId == Some(open.bgpId) && r.peerHoldTime == Some(open.holdTime)
    && r.holdTime == (if open.holdTime < c.config.holdTime then open.holdTime else c.config.holdTime)
    && r.holdTimer == (if r.holdTime > 0 then Some(r.holdTime) else c.holdTimer)
    && (if r.holdTime > 0 then r.keepAliveTimer.Some? && IsJittered(r.keepAliveTimer.value, r.holdTime, c.jitter)
        else r.keepAliveTimer == c.keepAliveTimer)
    && r.keepAliveTime == r.holdTime as real / 3.0 && !r.openDelayTimer
  }

  ghost predicate IsJittered(period: real, holdTime: nat, jitter: real) {
    period == (holdTime as real / 3.0) * jitter
  }

  lemma {:induction false} NegotiatedIsSettled(c: Conn, open: OpenMessage)
    ensures IsSettled(c, Negotiated(c, open), open)
  {
    hide MyAsn4, IsJittered, Jittered;
    JitteredIs(Negotiated(c, open).holdTime, c.jitter);
  }

  lemma {:induction false} JitteredIs(holdTime: nat, jitter: real)
    ensures IsJittered(Jittered(holdTime as real / 3.0, jitter), holdTime, jitter)
  {
  }

  ghost predicate SameAgreement(r: Conn, s: Conn) {
    && r.peerAsn == s.peerAsn && r.peerBgpId == s.peerBgpId && r.peerHoldTime == s.peerHoldTime
    && r.holdTime == s.holdTime && r.holdTimer == s.holdTimer && r.keepAliveTimer == s.keepAliveTimer
    && r.keepAliveTime == s.keepAliveTime && r.openDelayTimer == s.openDelayTimer
  }

  lemma {:induction false} SameIsSettled(c: Conn, p: Conn, r: Conn, s: Conn, open: OpenMessage)
    requires IsSettled(p, r, open) && SameAgreement(r, s)
    requires c.config == p.config && c.jitter == p.jitter && c.holdTimer == p.holdTimer
    requires c.keepAliveTimer == p.keepAliveTimer
    ensures IsSettled(c, s, open)
  {
    hide MyAsn4, IsJittered;
  }

  /** An OPEN that is taken in settles this, whether its answer gets through or not. */
  lemma {:induction false} OpenSettles(c: Conn, d: Drive)
    requires Enabled(c, d.input) && IsAcceptedOpen(c, d.input) && AwaitsOpen(c)
    ensures IsSettled(c, Driven(c, d).0, d.input.message.open)
  {
    hide MyAsn4, Count, Handled, IsSettled, Negotiated;
    var (p, e) := Polled(c, d.input);
    var n := Negotiated(p, e.open);
    NegotiatedIsSettled(p, e.open);
    HandledOpens(p, e, d.o1, d.o2);
    SameIsSettled(c, p, n, Driven(c, d).0, e.open);
  }

  /** Our OPEN starts the hold timer with the large value, unless that is zero. */
  lemma {:induction false} OpenStartsHoldTimer(c: Conn, d: Drive)
    requires c.state == Connected && d.input == DelayTick && Enabled(c, d.input)
    ensures var r := Driven(c, d).0;
      && r.holdTimer == (if c.config.holdTimeLarge > 0 then Some(c.config.holdTimeLarge) else c.holdTimer)
      && r.holdTime == (if c.config.holdTimeLarge > 0 then c.config.holdTimeLarge else c.holdTime)
      && r.keepAliveTimer == c.keepAliveTimer && !r.openDelayTimer
      && r.peerAsn == c.peerAsn && r.peerBgpId == c.peerBgpId
  {
    hide MyAsn4, Count;
  }

  /** Every other input leaves timers and agreements alone, but for the identifier, which is that of the last OPEN. */
  lemma {:induction false} OthersSettleNothing(c: Conn, d: Drive)
    requires Enabled(c, d.input) && d.input != DelayTick && !(IsAcceptedOpen(c, d.input) && AwaitsOpen(c))
    ensures var r := Driven(c, d).0;
      && r.peerAsn == c.peerAsn && r.peerHoldTime == c.peerHoldTime && r.holdTime == c.holdTime
      && r.holdTimer == c.holdTimer && r.keepAliveTimer == c.keepAliveTimer && r.openDelayTimer == c.openDelayTimer
      && r.peerBgpId ==
           if d.input.Incoming? && d.input.message.Open? then Some(d.input.message.open.bgpId) else c.peerBgpId
  {
    hide MyAsn4, Count, Handled, IsLoss, IsBadOpening, IsRoutine;
    PolledEvent(c, d.input);
    PolledKeepsRest(c, d.input);
    var (p, e) := Polled(c, d.input);
    assert OnlyMoves(p, e);
    HandledMoves(p, e, d.o1, d.o2);
  }

  // ----- Whole runs

  ghost function OwedIn(c: Conn, run: seq<Drive>, k: Kind): nat
    requires Possible(c, run)
    decreases |run|
  {
    if run == [] then 0 else Owed(c, run[0], k) + OwedIn(Driven(c, run[0]).0, run[1..], k)
  }

  /** Over every run, the messages of a kind that are counted as sent are exactly those its inputs are answered with. */
  lemma {:induction false} MessagesAreSent(c: Conn, run: seq<Drive>, k: Kind)
    requires Possible(c, run)
    ensures Tally(After(c, run).sent, k) == Tally(c.sent, k) + OwedIn(c, run, k)
    decreases |run|
  {
    hide Driven, Owed, Tally;
    if run != [] {
      InputsAreAnswered(c, run[0], k);
      MessagesAreSent(Driven(c, run[0]).0, run[1..], k);
    }
  }

  /** A connection that has just been opened has sent our OPEN, unless it waits for the delay timer, and no more. */
  lemma {:induction false} OpeningSends(
    direction: Direction, config: ConnConfig, asn: Option<nat>, keepAliveTime: real, jitter: real, e: Event,
    o1: SendOutcome, o2: SendOutcome, k: Kind)
    requires e == TcpConnectionRequestAcked || e == TcpConnectionConfirmed
    ensures var (r, ok) := Handled(NewConn(direction, config, asn, keepAliveTime, jitter), e, o1, o2);
      && ok == (config.openDelay > 0 || o1.Sent?)
      && r.state == (if config.openDelay == 0 && o1.Sent? then OpenSent else Connected)
      && r.openDelayTimer == (config.openDelay > 0)
      && r.direction == direction && r.config == config && r.jitter == jitter && r.peerAsn == asn && r.peerBgpId == None
      && r.peerHoldTime == None && r.keepAliveTime == keepAliveTime && r.keepAliveTimer == None
      && r.holdTime ==
           (if config.openDelay == 0 && config.holdTimeLarge > 0 then config.holdTimeLarge else config.holdTime)
      && Tally(r.received, k) == 0
      && Tally(r.sent, k) == (if config.openDelay == 0 && k == OpenKind then Counted(o1) else 0)
  {
  }

  /** What keeps a session up: as long as its timers tick and routine messages arrive, and every KEEPALIVE gets through,
      it stays up, and each tick of the keepalive timer sends one. */
  ghost predicate IsSteady(run: seq<Drive>) {
    forall i :: 0 <= i < |run| ==> run[i].o1.Sent? && (run[i].input == KeepAliveTick || IsRoutine(run[i].input))
  }

  ghost function Ticks(run: seq<Drive>): nat {
    if run == [] then 0 else (if run[0].input == KeepAliveTick then 1 else 0) + Ticks(run[1..])
  }

  lemma {:induction false} SessionsAreKeptUp(c: Conn, run: seq<Drive>)
    requires c.state == Established && Possible(c, run) && IsSteady(run)
    ensures After(c, run).state == Established
    ensures After(c, run).sent.keepAlive == c.sent.keepAlive + Ticks(run)
    decreases |run|
  {
    hide Driven, IsRoutine;
    if run != [] {
      InputsAreAnswered(c, run[0], KeepAliveKind);
      assert IsSteady(run[1..]);
      SessionsAreKeptUp(Driven(c, run[0]).0, run[1..]);
    }
  }
}
