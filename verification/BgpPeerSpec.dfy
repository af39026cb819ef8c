/**
 A BGP peer on values: administrative state, published FSM state, main and tracked connection, retry timer. One call of
 the peer's run loop is one step; sockets, timers and write errors are an oracle. Connections are owned by the peer, so
 holding them as values loses nothing.
 */
module BgpPeerSpec {
  import opened Sequences
  import opened BgpConnection

  datatype Fsm = Idle | Connect | Active | OpenSent | OpenConfirm | Established

  datatype Settings = Settings(
    myBgpId: nat,
    peerAsn: nat,
    dynamicAs: bool,
    conn: ConnConfig,
    keepAliveTime: nat,
    passiveTcp: bool,
    collisionDetectEstablished: bool)

  datatype AdminEvent = ManualStart | ManualStop | AutomaticStart | AutomaticStop | ConnectionConfirmed

  datatype PeerView = PeerView(
    settings: Settings,
    adminUp: bool,
    fsm: Fsm,
    connection: Option<Conn>,
    tracked: Option<Conn>,
    retryTimer: bool,
    retryCounter: nat,
    mayConnect: bool,
    waiting: seq<AdminEvent>)

  /** How a call ends: an event was handled, a write failed, the state tables disagree, or nothing is ready. */
  datatype Outcome = Progress | WriteError | InvalidTransition | Pending

  /** One turn of the loop that polls both connections. */
  datatype Turn = MainTurn(input: Input, o: SendOutcome) | TrackedTurn(input: Input, o1: SendOutcome, o2: SendOutcome)

  /** What completes first if the polling loop yields nothing; a quiet call is cancelled by the controller. */
  datatype Choice = ConnectDone(connected: bool) | RetryTick | Quiet

  type Jitter = j: real | 0.75 <= j <= 1.0 witness 1.0

  /** What the environment contributes to one call: the turns of the polling loop, then what completes. `connectPolled`
      says whether the connect future was polled at all, which is what clears the permission to connect. */
  datatype Oracle = Oracle(
    turns: seq<Turn>,
    choice: Choice,
    o1: SendOutcome,
    o2: SendOutcome,
    jitter: Jitter,
    connectPolled: bool)

  datatype Verdict = DropMain | DropTracked | InvalidTrackedId

  datatype NextEvent = Collision(dropMain: bool) | MainEvent(event: Event)

  function NewPeer(s: Settings): PeerView {
    PeerView(s, false, Idle, None, None, false, 0, false, [])
  }

  function FreshConn(s: Settings, d: Direction, jitter: real): Conn {
    NewConn(d, s.conn, if s.dynamicAs then None else Some(s.peerAsn), s.keepAliveTime as real, jitter)
  }

  /** The FSM state named like a connection state; a connection that is not past Connected names none. */
  function Named(c: ConnState): Option<Fsm> {
    match c
    case Connected | Terminate => None
    case OpenSent => Some(Fsm.OpenSent)
    case OpenConfirm => Some(Fsm.OpenConfirm)
    case Established => Some(Fsm.Established)
  }

  // ----- Connections come and go

  function Added(p: PeerView, c: Conn): PeerView {
    if p.connection.Some? then p.(tracked := Some(c))
    else p.(connection := Some(c), fsm := if Named(c.state).Some? then Named(c.state).value else p.fsm)
  }

  predicate Rejects(p: PeerView) {
    || !p.adminUp
    || (p.connection.Some? && p.tracked.Some?)
    || (p.fsm == Fsm.Established && !p.settings.collisionDetectEstablished)
  }

  /** A connection we opened or accepted: the retry timer stops and the first event is handled before it is added. */
  function Opened(p: PeerView, d: Direction, e: Event, o: Oracle): (PeerView, Outcome) {
    var q := p.(retryTimer := false);
    var (c, ok) := Handled(FreshConn(p.settings, d, o.jitter), e, o.o1, o.o2);
    if ok then (Added(q, c), Progress) else (q, WriteError)
  }

  function Started(p: PeerView): PeerView {
    p.(adminUp := true, retryCounter := 0, retryTimer := true,
       fsm := if p.settings.passiveTcp then Fsm.Active else Connect,
       mayConnect := p.mayConnect || !p.settings.passiveTcp)
  }

  function Stopped(p: PeerView): PeerView {
    p.(retryTimer := false, adminUp := false, fsm := Idle, connection := None, tracked := None)
  }

  /** An administrative event; None if it is ignored and the call goes on to wait. */
  function Administered(p: PeerView, e: AdminEvent, o: Oracle): (PeerView, Option<Outcome>) {
    match e
    case ManualStart | AutomaticStart => if p.fsm != Idle then (p, None) else (Started(p), Some(Progress))
    case ManualStop => (Stopped(p).(retryCounter := 0), Some(Progress))
    case AutomaticStop => (Stopped(p).(retryCounter := p.retryCounter + 1), Some(Progress))
    case ConnectionConfirmed =>
      if Rejects(p) then (p, None)
      else
        var (q, r) := Opened(p, Passive, TcpConnectionConfirmed, o);
        (q, Some(r))
  }

  // ----- Collisions

  /** The collision decision; only made once both connections have announced an identifier. */
  function Collide(myBgpId: nat, main: Option<Conn>, tracked: Option<Conn>): Option<Verdict> {
    if main.None? || tracked.None? || main.value.peerBgpId.None? || tracked.value.peerBgpId.None? then None
    else
      var peer := main.value.peerBgpId.value;
      if tracked.value.peerBgpId.value != peer then Some(InvalidTrackedId)
      else if myBgpId < peer || (myBgpId == peer && tracked.value.created < main.value.created) then Some(DropMain)
      else Some(DropTracked)
  }

  /** A tracked connection is polled until its OPEN has been answered, and not while we are still connecting. */
  predicate TrackedIsPolled(fsm: Fsm, tracked: Option<Conn>, hidden: bool) {
    !hidden && tracked.Some? && fsm != Connect && tracked.value.state != ConnState.OpenConfirm
  }

  datatype Polling = Polling(main: Option<Conn>, tracked: Option<Conn>, hidden: bool, next: Option<NextEvent>)

  /** Acting on the collision decision; `otherwise` is what the turn yields when there is no collision. */
  function Resolved(myBgpId: nat, q: Polling, o: SendOutcome, otherwise: Option<NextEvent>): Polling {
    match Collide(myBgpId, q.main, if q.hidden then None else q.tracked)
    case Some(DropMain) => q.(next := Some(Collision(true)))
    case Some(DropTracked) => q.(next := Some(Collision(false)))
    case Some(InvalidTrackedId) =>
      q.(hidden := true, tracked := if q.tracked.Some?
        then Some(Transmitted(q.tracked.value, NotificationKind, o)) else None)
    case None => q.(next := otherwise)
  }

  /** One turn of the polling loop. A turn whose future is not ready changes nothing. */
  function Turned(myBgpId: nat, fsm: Fsm, q: Polling, t: Turn): Polling {
    match t
    case MainTurn(input, o) =>
      if q.main.None? || !Enabled(q.main.value, input) then q
      else
        var (c, e) := Polled(q.main.value, input);
        Resolved(myBgpId, q.(main := Some(c)), o, Some(MainEvent(e)))
    case TrackedTurn(input, o1, o2) =>
      if !TrackedIsPolled(fsm, q.tracked, q.hidden) || !Enabled(q.tracked.value, input) then q
      else
        var (c, e) := Polled(q.tracked.value, input);
        Resolved(myBgpId, q.(tracked := Some(Handled(c, e, o1, o2).0)), o1, None)
  }

  function PollLoop(myBgpId: nat, fsm: Fsm, q: Polling, turns: seq<Turn>): Polling
    decreases |turns|
  {
    if turns == [] || q.next.Some? then q else PollLoop(myBgpId, fsm, Turned(myBgpId, fsm, q, turns[0]), turns[1..])
  }

  // ----- Events of the main connection

  function Dropped(p: PeerView, next: Fsm): PeerView {
    p.(connection := None, retryTimer := false, fsm := next)
  }

  function Failed(p: PeerView): PeerView {
    Dropped(p, Idle).(retryCounter := p.retryCounter + 1)
  }

  function Retrying(p: PeerView): PeerView {
    p.(connection := None, retryTimer := true, fsm := Fsm.Active)
  }

  predicate IsTcpOpened(e: Event) {
    e.TcpConnectionRequestAcked? || e.TcpConnectionConfirmed?
  }

  function ReactedConnected(p: PeerView, c: Conn, e: Event): (PeerView, Outcome) {
    match c.state
    case Connected =>
      if IsTcpOpened(e) then (p.(retryTimer := false), if c.openDelayTimer then Progress else InvalidTransition)
      else (p, if e.NotifMsgErr? then Progress else InvalidTransition)
    case OpenSent =>
      if IsTcpOpened(e) then (p.(retryTimer := false, fsm := Fsm.OpenSent), Progress)
      else if e.DelayOpenTimerExpires? then (p.(fsm := Fsm.OpenSent), Progress)
      else (p, InvalidTransition)
    case OpenConfirm =>
      if e.BGPOpen? || e.BGPOpenWithDelayOpenTimer? then (p.(retryTimer := false, fsm := Fsm.OpenConfirm), Progress)
      else (p, InvalidTransition)
    case Established => (p, InvalidTransition)
    case Terminate =>
      match e
      case TcpConnectionFails =>
        if p.fsm == Connect && c.openDelayTimer then (Retrying(p), Progress)
        else (if p.fsm == Fsm.Active then Failed(p) else Dropped(p, Idle), Progress)
      case NotifMsgVerErr => (if c.openDelayTimer then Dropped(p, Idle) else Failed(p), Progress)
      case DelayOpenTimerExpires | TcpConnectionRequestAcked | TcpConnectionConfirmed | BGPOpenWithDelayOpenTimer(_)
         | NotifMsgErr => (p, InvalidTransition)
      case _ => (Failed(p), Progress)
  }

  function ReactedOpenSent(p: PeerView, c: Conn, e: Event): (PeerView, Outcome) {
    match c.state
    case OpenSent => (p, if e.NotifMsgErr? then Progress else InvalidTransition)
    case OpenConfirm =>
      if e.BGPOpen? then (p.(retryTimer := false, fsm := Fsm.OpenConfirm), Progress) else (p, InvalidTransition)
    case Terminate =>
      (match e
       case TcpConnectionFails => (Retrying(p), Progress)
       case NotifMsgVerErr => (Dropped(p, Idle), Progress)
       case TcpConnectionRequestAcked | TcpConnectionConfirmed | BGPOpen(_) | NotifMsgErr =>
         (p.(connection := None), InvalidTransition)
       case _ => (Failed(p), Progress))
    case Connected | Established => (p, InvalidTransition)
  }

  function ReactedOpenConfirm(p: PeerView, c: Conn, e: Event): (PeerView, Outcome) {
    match c.state
    case OpenConfirm => (p, if e.KeepAliveTimerExpires? || e.NotifMsgErr? then Progress else InvalidTransition)
    case Established => if e.KeepAliveMsg? then (p.(fsm := Fsm.Established), Progress) else (p, InvalidTransition)
    case Terminate =>
      (match e
       case NotifMsgVerErr => (Dropped(p, Idle), Progress)
       case TcpConnectionRequestAcked | TcpConnectionConfirmed | KeepAliveTimerExpires | KeepAliveMsg | NotifMsgErr =>
         (p, InvalidTransition)
       case _ => (Failed(p), Progress))
    case Connected | OpenSent => (p, InvalidTransition)
  }

  function ReactedEstablished(p: PeerView, c: Conn, e: Event): (PeerView, Outcome) {
    match c.state
    case Established =>
      (match e
       case KeepAliveTimerExpires | KeepAliveMsg | UpdateMsg | RouteRefresh | NotifMsgErr => (p, Progress)
       case NotifMsg | NotifMsgVerErr => (Failed(p), Progress)
       case _ => (p, InvalidTransition))
    case Terminate =>
      (match e
       case TcpConnectionRequestAcked | TcpConnectionConfirmed | KeepAliveTimerExpires | KeepAliveMsg | UpdateMsg
          | RouteRefresh | NotifMsgErr => (p, InvalidTransition)
       case _ => (Failed(p), Progress))
    case Connected | OpenSent | OpenConfirm => (p, InvalidTransition)
  }

  /** The peer's own table over what its connection did: `c` is the connection after `e`, `before` its state before. */
  function Reacted(p: PeerView, before: ConnState, c: Conn, e: Event): (PeerView, Outcome) {
    match before
    case Connected => ReactedConnected(p, c, e)
    case OpenSent => ReactedOpenSent(p, c, e)
    case OpenConfirm => ReactedOpenConfirm(p, c, e)
    case Established => ReactedEstablished(p, c, e)
    case Terminate => (p, InvalidTransition)
  }

  function HandledMain(p: PeerView, e: Event, o1: SendOutcome, o2: SendOutcome): (PeerView, Outcome) {
    if p.connection.None? then
      (p.(fsm := if p.fsm == Fsm.OpenSent then Fsm.Active else Idle), Progress)
    else
      var c := p.connection.value;
      var (d, ok) := Handled(c, e, o1, o2);
      var q := p.(connection := Some(d));
      if ok then Reacted(q, c.state, d, e) else (q, WriteError)
  }

  /** Replacing the main connection by the tracked one; only a connection past Connected can take over. */
  function Promoted(p: PeerView): (PeerView, Outcome) {
    if p.tracked.None? then (p, Progress)
    else
      var q := p.(tracked := None, retryCounter := p.retryCounter + 1);
      var next := Named(p.tracked.value.state);
      if next.None? then (q, InvalidTransition) else (q.(connection := p.tracked, fsm := next.value), Progress)
  }

  function HandledNext(p: PeerView, n: NextEvent, o: Oracle): (PeerView, Outcome) {
    match n
    case Collision(dropMain) => if dropMain then Promoted(p) else (p.(tracked := None), Progress)
    case MainEvent(e) => HandledMain(p, e, o.o1, o.o2)
  }

  // ----- One call of the run loop

  /** The permission to connect once the connect future has been polled. */
  function Asked(p: PeerView, o: Oracle): PeerView {
    p.(mayConnect := p.mayConnect && !(o.connectPolled && p.fsm == Connect))
  }

  /** The retry timer is periodic: a tick leaves it armed. */
  function Ticked(p: PeerView): PeerView {
    var fsm := if p.fsm == Fsm.Active then Connect else p.fsm;
    p.(fsm := fsm, mayConnect := fsm == Connect, connection := None)
  }

  function Completed(p: PeerView, o: Oracle): (PeerView, Outcome) {
    match o.choice
    case ConnectDone(connected) =>
      if !(p.fsm == Connect && p.mayConnect) then (Asked(p, o), Pending)
      else if connected then Opened(p.(mayConnect := false), Direction.Active, TcpConnectionRequestAcked, o)
      else (p.(mayConnect := false, retryTimer := false), Progress)
    case RetryTick => if p.retryTimer then (Ticked(p), Progress) else (Asked(p, o), Pending)
    case Quiet => (Asked(p, o), Pending)
  }

  function Selected(p: PeerView, o: Oracle): (PeerView, Outcome) {
    var q := PollLoop(p.settings.myBgpId, p.fsm, Polling(p.connection, p.tracked, false, None), o.turns);
    var r := p.(connection := q.main, tracked := q.tracked);
    if q.next.Some? then HandledNext(Asked(r, o), q.next.value, o) else Completed(r, o)
  }

  function Ran(p: PeerView, o: Oracle): (PeerView, Outcome) {
    if p.waiting == [] then Selected(p, o)
    else
      var n := |p.waiting| - 1;
      var (q, r) := Administered(p.(waiting := p.waiting[..n]), p.waiting[n], o);
      if r.Some? then (q, r.value) else Selected(q, o)
  }

  /** A message of the user goes to both connections; a tracked connection that cannot be written is dropped. */
  function Relayed(p: PeerView, k: Kind, ot: SendOutcome, om: SendOutcome): (PeerView, Outcome) {
    var t := if p.tracked.Some? && ot.Sent? then Some(Transmitted(p.tracked.value, k, ot)) else None;
    var q := p.(tracked := t);
    if p.connection.None? then (q, Progress)
    else (q.(connection := Some(Transmitted(p.connection.value, k, om))), if om.Sent? then Progress else WriteError)
  }

  datatype PeerStep = Tell(event: AdminEvent) | Run(oracle: Oracle)
    | Relay(kind: Kind, ot: SendOutcome, om: SendOutcome)

  function Stepped(p: PeerView, s: PeerStep): (PeerView, Outcome) {
    match s
    case Tell(e) => (p.(waiting := p.waiting + [e]), Progress)
    case Run(o) => Ran(p, o)
    case Relay(k, ot, om) => Relayed(p, k, ot, om)
  }
}
