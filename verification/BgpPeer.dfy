/**
 The peer object with its two connection objects, updated in place; every method is proved against the value-level
 specification.
 */
module BgpPeer {
  import opened Sequences
  import opened BgpConnection
  import opened BgpPeerSpec

  ghost function ViewOf(c: Connection?): Option<Conn>
    reads c
  {
    if c == null then None else Some(c.View())
  }

  class Peer {
    const settings: Settings
    var adminUp: bool
    var fsm: Fsm
    var connection: Connection?
    var tracked: Connection?
    var retryTimer: bool
    var retryCounter: nat
    var mayConnect: bool
    var waiting: seq<AdminEvent>

    /** The two connections are different objects. */
    ghost predicate Valid()
      reads this
    {
      connection == null || connection != tracked
    }

    ghost function View(): PeerView
      reads this, connection, tracked
    {
      PeerView(settings, adminUp, fsm, ViewOf(connection), ViewOf(tracked), retryTimer, retryCounter, mayConnect,
        waiting)
    }

    /** The state of the polling loop. */
    ghost function Loop(hidden: bool, next: Option<NextEvent>): Polling
      reads this, connection, tracked
    {
      Polling(ViewOf(connection), ViewOf(tracked), hidden, next)
    }

    constructor (settings: Settings)
      ensures Valid() && View() == NewPeer(settings)
    {
      this.settings := settings;
      adminUp, fsm, connection, tracked := false, Idle, null, null;
      retryTimer, retryCounter, mayConnect, waiting := false, 0, false, [];
    }

    method AddAdminEvent(e: AdminEvent)
      modifies this`waiting
      ensures View() == old(View()).(waiting := old(waiting) + [e])
    {
      waiting := waiting + [e];
    }

    method AddConnection(c: Connection)
      requires Valid() && c != connection && c != tracked
      modifies this`connection, this`tracked, this`fsm
      ensures Valid() && View() == Added(old(View()), c.View())
      ensures connection == old(connection) || connection == c
      ensures tracked == old(tracked) || tracked == c
    {
      if connection != null {
        tracked := c;
      } else {
        match c.state {
          case Terminate | Connected =>
          case OpenSent => fsm := Fsm.OpenSent;
          case OpenConfirm => fsm := Fsm.OpenConfirm;
          case Established => fsm := Fsm.Established;
        }
        connection := c;
      }
    }

    /** The part common to an accepted and to an established outgoing connection. */
    method OpenConnection(d: Direction, e: Event, o: Oracle) returns (r: Outcome)
      requires Valid()
      modifies this
      ensures Valid() && View() == Opened(old(View()), d, e, o).0 && r == Opened(old(View()), d, e, o).1
      ensures connection == old(connection) || fresh(connection)
      ensures tracked == old(tracked) || fresh(tracked)
    {
      hide Handled, Added;
      retryTimer := false;
      var peerAsn := if settings.dynamicAs then None else Some(settings.peerAsn);
      var c := new Connection(d, settings.conn, peerAsn, settings.keepAliveTime as real, o.jitter);
      var ok := c.HandleEvent(e, o.o1, o.o2);
      if !ok {
        return WriteError;
      }
      AddConnection(c);
      r := Progress;
    }

    method AcceptConnection(o: Oracle) returns (r: Option<Outcome>)
      requires Valid()
      modifies this
      ensures Valid() && View() == Administered(old(View()), ConnectionConfirmed, o).0
      ensures r == Administered(old(View()), ConnectionConfirmed, o).1
      ensures connection == old(connection) || fresh(connection)
      ensures tracked == old(tracked) || fresh(tracked)
      ensures r.None? ==> unchanged(this)
    {
      hide Opened;
      if !adminUp
        || (connection != null && tracked != null)
        || (fsm == Fsm.Established && !settings.collisionDetectEstablished)
      {
        return None;
      }
      var done := OpenConnection(Passive, TcpConnectionConfirmed, o);
      r := Some(done);
    }

    method Shutdown()
      modifies this
      ensures Valid() && View() == Stopped(old(View())) && connection == null && tracked == null
    {
      retryTimer := false;
      adminUp := false;
      fsm := Idle;
      connection := null;
      tracked := null;
    }

    /** A start leaves the state of a peer alone that is not Idle. */
    method Start()
      modifies this`adminUp, this`retryCounter, this`fsm, this`retryTimer, this`mayConnect
      ensures View() ==
        if old(fsm) != Idle then old(View()).(adminUp := true, retryCounter := 0)
        else Started(old(View())).(retryTimer := old(retryTimer) || !settings.passiveTcp)
    {
      adminUp := true;
      retryCounter := 0;
      if fsm != Idle {
        return;
      }
      if settings.passiveTcp {
        fsm := Fsm.Active;
      } else {
        retryTimer := true;
        fsm := Connect;
        mayConnect := true;
      }
    }

    method HandleAdminEvent(e: AdminEvent, o: Oracle) returns (r: Option<Outcome>)
      requires Valid()
      modifies this
      ensures Valid() && View() == Administered(old(View()), e, o).0 && r == Administered(old(View()), e, o).1
      ensures r.None? ==> unchanged(this)
    {
      hide Opened;
      match e {
        case ManualStart | AutomaticStart =>
          if fsm != Idle {
            return None;
          }
          Start();
          if settings.passiveTcp {
            retryTimer := true;
          }
          r := Some(Progress);
        case ManualStop =>
          Shutdown();
          retryCounter := 0;
          r := Some(Progress);
        case AutomaticStop =>
          Shutdown();
          retryCounter := retryCounter + 1;
          r := Some(Progress);
        case ConnectionConfirmed =>
          r := AcceptConnection(o);
      }
    }

    method HandleActiveConnection(connected: bool, o: Oracle) returns (r: Outcome)
      requires Valid() && fsm == Connect && mayConnect && o.choice == ConnectDone(connected)
      modifies this
      ensures Valid() && View() == Completed(old(View()), o).0 && r == Completed(old(View()), o).1
    {
      hide Opened;
      mayConnect := false;
      if connected {
        r := OpenConnection(Direction.Active, TcpConnectionRequestAcked, o);
      } else {
        retryTimer := false;
        r := Progress;
      }
    }

    /** The collision decision; a tracked connection that has been set aside is not considered. */
    method CheckCollision(hidden: bool) returns (r: Option<Verdict>)
      ensures r == Collide(settings.myBgpId, ViewOf(connection), if hidden then None else ViewOf(tracked))
    {
      if connection == null || tracked == null || hidden {
        return None;
      }
      if connection.peerBgpId.None? || tracked.peerBgpId.None? {
        return None;
      }
      var peer := connection.peerBgpId.value;
      if tracked.peerBgpId.value != peer {
        r := Some(InvalidTrackedId);
      } else if settings.myBgpId < peer || (settings.myBgpId == peer && tracked.created < connection.created) {
        r := Some(DropMain);
      } else {
        r := Some(DropTracked);
      }
    }

    /** Acts on the collision decision after a turn. */
    method Resolve(hidden: bool, o: SendOutcome, otherwise: Option<NextEvent>)
      returns (setAside: bool, next: Option<NextEvent>)
      requires Valid()
      modifies tracked
      ensures Loop(setAside, next) == Resolved(settings.myBgpId, old(Loop(hidden, None)), o, otherwise)
    {
      hide Collide, Transmitted;
      setAside, next := hidden, None;
      var verdict := CheckCollision(hidden);
      match verdict {
        case Some(DropMain) => next := Some(Collision(true));
        case Some(DropTracked) => next := Some(Collision(false));
        case Some(InvalidTrackedId) =>
          if tracked != null {
            var _ := tracked.Send(NotificationKind, o);
          }
          setAside := true;
        case None => next := otherwise;
      }
    }

    /** One turn of the polling loop. */
    method TakeTurn(t: Turn, hidden: bool) returns (setAside: bool, next: Option<NextEvent>)
      requires Valid()
      modifies connection, tracked
      ensures Loop(setAside, next) == Turned(settings.myBgpId, fsm, old(Loop(hidden, None)), t)
    {
      hide Enabled, Polled, Handled, Resolved;
      setAside, next := hidden, None;
      match t {
        case MainTurn(input, o) =>
          if connection != null && connection.IsReady(input) {
            var e := connection.PollNext(input);
            setAside, next := Resolve(hidden, o, Some(MainEvent(e)));
          }
        case TrackedTurn(input, o1, o2) =>
          if !hidden && tracked != null && fsm != Connect && tracked.state != ConnState.OpenConfirm
            && tracked.IsReady(input) {
            var e := tracked.PollNext(input);
            var _ := tracked.HandleEvent(e, o1, o2);
            setAside, next := Resolve(hidden, o1, None);
          }
      }
    }

    /** Polls both connections until one event is produced or nothing more is ready. */
    method NextConnectionEvent(turns: seq<Turn>) returns (next: Option<NextEvent>)
      requires Valid()
      modifies connection, tracked
      ensures var q := PollLoop(settings.myBgpId, fsm, old(Loop(false, None)), turns);
        next == q.next && ViewOf(connection) == q.main && ViewOf(tracked) == q.tracked
    {
      hide Turned;
      var hidden, i := false, 0;
      next := None;
      assert turns[0..] == turns;
      while i < |turns| && next.None?
        invariant 0 <= i <= |turns|
        invariant PollLoop(settings.myBgpId, fsm, Loop(hidden, next), turns[i..]) ==
          PollLoop(settings.myBgpId, fsm, old(Loop(false, None)), turns)
      {
        assert turns[i..][1..] == turns[i + 1..];
        hidden, next := TakeTurn(turns[i], hidden);
        i := i + 1;
      }
    }

    method DropMainConnection(count: bool)
      requires Valid()
      modifies this
      ensures Valid() && tracked == old(tracked)
      ensures View() == if count then Failed(old(View())) else Dropped(old(View()), Idle)
    {
      connection := null;
      retryTimer := false;
      if count {
        retryCounter := retryCounter + 1;
      }
      fsm := Idle;
    }

    method RetryLater()
      requires Valid()
      modifies this
      ensures Valid() && View() == Retrying(old(View()))
    {
      retryTimer := true;
      fsm := Fsm.Active;
      connection := null;
    }

    method EnterState(next: Fsm, stopRetrying: bool)
      modifies this`fsm, this`retryTimer
      ensures View() == old(View()).(fsm := next, retryTimer := old(retryTimer) && !stopRetrying)
    {
      if stopRetrying {
        retryTimer := false;
      }
      fsm := next;
    }

    /** The main connection was in Connected and has handled `e`. */
    method ReactFromConnected(e: Event) returns (r: Outcome)
      requires Valid() && connection != null
      modifies this
      ensures Valid()
      ensures var q := ReactedConnected(old(View()), old(connection.View()), e); View() == q.0 && r == q.1
    {
      hide Failed, Dropped, Retrying;
      r := Progress;
      match connection.state {
        case Connected =>
          if IsTcpOpened(e) {
            retryTimer := false;
            if !connection.openDelayTimer {
              r := InvalidTransition;
            }
          } else if !e.NotifMsgErr? {
            r := InvalidTransition;
          }
        case OpenSent =>
          if IsTcpOpened(e) || e.DelayOpenTimerExpires? {
            EnterState(Fsm.OpenSent, IsTcpOpened(e));
          } else {
            r := InvalidTransition;
          }
        case OpenConfirm =>
          if e.BGPOpen? || e.BGPOpenWithDelayOpenTimer? {
            EnterState(Fsm.OpenConfirm, true);
          } else {
            r := InvalidTransition;
          }
        case Established =>
          r := InvalidTransition;
        case Terminate =>
          r := LoseConnected(e);
      }
    }

    /** The main connection was in Connected and has terminated. */
    method LoseConnected(e: Event) returns (r: Outcome)
      requires Valid() && connection != null && connection.state == Terminate
      modifies this
      ensures Valid()
      ensures var q := ReactedConnected(old(View()), old(connection.View()), e); View() == q.0 && r == q.1
    {
      hide Failed, Dropped, Retrying;
      r := Progress;
      match e {
        case TcpConnectionFails =>
          if fsm == Connect && connection.openDelayTimer {
            RetryLater();
          } else {
            DropMainConnection(fsm == Fsm.Active);
          }
        case NotifMsgVerErr =>
          DropMainConnection(!connection.openDelayTimer);
        case BGPHeaderErr | BGPOpenMsgErr | HoldTimerExpires | KeepAliveTimerExpires | BGPOpen(_) | NotifMsg
          | KeepAliveMsg | UpdateMsg | UpdateMsgErr | RouteRefresh | RouteRefreshErr =>
          DropMainConnection(true);
        case DelayOpenTimerExpires | TcpConnectionRequestAcked | TcpConnectionConfirmed | BGPOpenWithDelayOpenTimer(_)
          | NotifMsgErr =>
          r := InvalidTransition;
      }
    }

    method ReactFromOpenSent(e: Event) returns (r: Outcome)
      requires Valid() && connection != null
      modifies this
      ensures Valid()
      ensures var q := ReactedOpenSent(old(View()), old(connection.View()), e); View() == q.0 && r == q.1
    {
      hide Failed, Dropped, Retrying;
      r := Progress;
      match connection.state {
        case OpenSent =>
          if !e.NotifMsgErr? {
            r := InvalidTransition;
          }
        case OpenConfirm =>
          if e.BGPOpen? {
            EnterState(Fsm.OpenConfirm, true);
          } else {
            r := InvalidTransition;
          }
        case Terminate =>
          r := LoseOpenSent(e);
        case Connected | Established =>
          r := InvalidTransition;
      }
    }

    /** The main connection was in OpenSent and has terminated. It is dropped even if the event is not expected. */
    method LoseOpenSent(e: Event) returns (r: Outcome)
      requires Valid() && connection != null && connection.state == Terminate
      modifies this
      ensures Valid()
      ensures var q := ReactedOpenSent(old(View()), old(connection.View()), e); View() == q.0 && r == q.1
    {
      hide Failed, Dropped, Retrying;
      r := Progress;
      match e {
        case TcpConnectionFails =>
          RetryLater();
        case TcpConnectionRequestAcked | TcpConnectionConfirmed | BGPOpen(_) | NotifMsgErr =>
          connection := null;
          r := InvalidTransition;
        case HoldTimerExpires | NotifMsgVerErr | BGPHeaderErr | BGPOpenMsgErr | KeepAliveTimerExpires
          | DelayOpenTimerExpires | BGPOpenWithDelayOpenTimer(_) | KeepAliveMsg | NotifMsg | UpdateMsg | UpdateMsgErr
          | RouteRefresh | RouteRefreshErr =>
          DropMainConnection(!e.NotifMsgVerErr?);
      }
    }

    method ReactFromOpenConfirm(e: Event) returns (r: Outcome)
      requires Valid() && connection != null
      modifies this
      ensures Valid()
      ensures var q := ReactedOpenConfirm(old(View()), old(connection.View()), e); View() == q.0 && r == q.1
    {
      hide Failed, Dropped, Retrying;
      r := Progress;
      match connection.state {
        case OpenConfirm =>
          if !e.KeepAliveTimerExpires? && !e.NotifMsgErr? {
            r := InvalidTransition;
          }
        case Established =>
          if e.KeepAliveMsg? {
            fsm := Fsm.Established;
          } else {
            r := InvalidTransition;
          }
        case Terminate =>
          match e {
            case HoldTimerExpires | TcpConnectionFails | BGPOpen(_) | BGPOpenMsgErr | BGPHeaderErr
              | DelayOpenTimerExpires
              | BGPOpenWithDelayOpenTimer(_) | NotifMsg | UpdateMsg | UpdateMsgErr | RouteRefresh | RouteRefreshErr =>
              DropMainConnection(true);
            case NotifMsgVerErr =>
              DropMainConnection(false);
            case TcpConnectionRequestAcked | TcpConnectionConfirmed | KeepAliveTimerExpires | KeepAliveMsg
              | NotifMsgErr =>
              r := InvalidTransition;
          }
        case Connected | OpenSent =>
          r := InvalidTransition;
      }
    }

    method ReactFromEstablished(e: Event) returns (r: Outcome)
      requires Valid() && connection != null
      modifies this
      ensures Valid()
      ensures var q := ReactedEstablished(old(View()), old(connection.View()), e); View() == q.0 && r == q.1
    {
      hide Failed, Dropped, Retrying;
      r := Progress;
      match connection.state {
        case Established =>
          match e {
            case KeepAliveTimerExpires | KeepAliveMsg | UpdateMsg | RouteRefresh | NotifMsgErr =>
            case NotifMsg | NotifMsgVerErr =>
              DropMainConnection(true);
            case _ =>
              r := InvalidTransition;
          }
        case Terminate =>
          match e {
            case HoldTimerExpires | DelayOpenTimerExpires | TcpConnectionFails | BGPOpen(_)
              | BGPOpenWithDelayOpenTimer(_)
              | BGPHeaderErr | BGPOpenMsgErr | UpdateMsgErr | RouteRefreshErr | NotifMsg | NotifMsgVerErr =>
              DropMainConnection(true);
            case TcpConnectionRequestAcked | TcpConnectionConfirmed | KeepAliveTimerExpires | KeepAliveMsg | UpdateMsg
              | RouteRefresh | NotifMsgErr =>
              r := InvalidTransition;
          }
        case Connected | OpenSent | OpenConfirm =>
          r := InvalidTransition;
      }
    }

    /** The table over what the main connection did, by its state before. */
    method React(before: ConnState, e: Event) returns (r: Outcome)
      requires Valid() && connection != null
      modifies this
      ensures Valid()
      ensures var q := Reacted(old(View()), before, old(connection.View()), e); View() == q.0 && r == q.1
    {
      hide ReactedConnected, ReactedOpenSent, ReactedOpenConfirm, ReactedEstablished;
      match before {
        case Connected => r := ReactFromConnected(e);
        case OpenSent => r := ReactFromOpenSent(e);
        case OpenConfirm => r := ReactFromOpenConfirm(e);
        case Established => r := ReactFromEstablished(e);
        case Terminate => r := InvalidTransition;
      }
    }

    method HandleConnectionEvent(e: Event, o1: SendOutcome, o2: SendOutcome) returns (r: Outcome)
      requires Valid()
      modifies this, connection
      ensures Valid() && View() == HandledMain(old(View()), e, o1, o2).0 && r == HandledMain(old(View()), e, o1, o2).1
    {
      hide Handled, Reacted;
      if connection == null {
        fsm := if fsm == Fsm.OpenSent then Fsm.Active else Idle;
        return Progress;
      }
      var before := connection.state;
      var ok := connection.HandleEvent(e, o1, o2);
      if !ok {
        return WriteError;
      }
      r := React(before, e);
    }

    /** Replaces the main connection by the tracked one. */
    method PromoteTracked() returns (r: Outcome)
      requires Valid()
      modifies this
      ensures Valid() && View() == Promoted(old(View())).0 && r == Promoted(old(View())).1
    {
      if tracked == null {
        return Progress;
      }
      var taking := tracked;
      tracked := null;
      retryCounter := retryCounter + 1;
      match taking.state {
        case Connected | Terminate => return InvalidTransition;
        case OpenSent => fsm := Fsm.OpenSent;
        case OpenConfirm => fsm := Fsm.OpenConfirm;
        case Established => fsm := Fsm.Established;
      }
      connection := taking;
      r := Progress;
    }

    method HandleConnectEvent(n: NextEvent, o: Oracle) returns (r: Outcome)
      requires Valid()
      modifies this, connection
      ensures Valid() && View() == HandledNext(old(View()), n, o).0 && r == HandledNext(old(View()), n, o).1
    {
      hide HandledMain, Promoted;
      match n {
        case Collision(dropMain) =>
          if dropMain {
            r := PromoteTracked();
          } else {
            tracked := null;
            r := Progress;
          }
        case MainEvent(e) =>
          r := HandleConnectionEvent(e, o.o1, o.o2);
      }
    }

    method SendBgpMessage(k: Kind, ot: SendOutcome, om: SendOutcome) returns (r: Outcome)
      requires Valid()
      modifies this`tracked, connection, tracked
      ensures Valid() && View() == Relayed(old(View()), k, ot, om).0 && r == Relayed(old(View()), k, ot, om).1
    {
      hide Count;
      if tracked != null {
        var ok := tracked.Send(k, ot);
        if !ok {
          tracked := null;
        }
      }
      if connection != null {
        var ok := connection.Send(k, om);
        if !ok {
          return WriteError;
        }
      }
      r := Progress;
    }

    /** What completes if the polling loop yields nothing. */
    method Complete(o: Oracle) returns (r: Outcome)
      requires Valid()
      modifies this
      ensures Valid() && View() == Completed(old(View()), o).0 && r == Completed(old(View()), o).1
    {
      hide Opened;
      if fsm == Connect && mayConnect && o.choice.ConnectDone? {
        r := HandleActiveConnection(o.choice.connected, o);
      } else if retryTimer && o.choice.RetryTick? {
        if fsm == Fsm.Active {
          fsm := Connect;
        }
        mayConnect := fsm == Connect;
        connection := null;
        r := Progress;
      } else {
        NoteAttempt(o);
        r := Pending;
      }
    }

    /** The permission to connect is used up once the attempt has been polled. */
    method NoteAttempt(o: Oracle)
      modifies this`mayConnect
      ensures View() == Asked(old(View()), o)
    {
      if o.connectPolled && fsm == Connect {
        mayConnect := false;
      }
    }

    method Wait(o: Oracle) returns (r: Outcome)
      requires Valid()
      modifies this, connection, tracked
      ensures Valid() && View() == Selected(old(View()), o).0 && r == Selected(old(View()), o).1
    {
      hide PollLoop, HandledNext, Completed, Asked;
      var next := NextConnectionEvent(o.turns);
      if next.Some? {
        NoteAttempt(o);
        r := HandleConnectEvent(next.value, o);
      } else {
        r := Complete(o);
      }
    }

    method Run(o: Oracle) returns (r: Outcome)
      requires Valid()
      modifies this, connection, tracked
      ensures Valid() && View() == Ran(old(View()), o).0 && r == Ran(old(View()), o).1
    {
      hide Selected, Administered;
      if |waiting| > 0 {
        var n := |waiting| - 1;
        var e := waiting[n];
        waiting := waiting[..n];
        var done := HandleAdminEvent(e, o);
        if done.Some? {
          return done.value;
        }
      }
      r := Wait(o);
    }
  }
}
