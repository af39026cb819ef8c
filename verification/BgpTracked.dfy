/** A tracked connection that has ended: how long the peer goes on holding it. */
module BgpTracked {
  import opened Sequences
  import opened BgpOpen
  import opened BgpConnection
  import opened BgpConnectionTheory
  import opened BgpPeerSpec
  import opened BgpPeerTheory
  import opened BgpPeerTheorems
  import opened BgpPeerLaws
  import opened BgpCollision

  ghost predicate IsEnded(c: Option<Conn>) {
    c.Some? && c.value.state == Terminate
  }

  ghost predicate HoldsEnded(p: PeerView) {
    IsEnded(p.tracked)
  }

  ghost predicate IsStopped(p: PeerView) {
    p.waiting != [] && p.waiting[|p.waiting| - 1] in {ManualStop, AutomaticStop}
  }

  /** Turn `k` finds a collision, or yields something on the main connection that is not put off. */
  ghost predicate EndsAt(p: PeerView, turns: seq<Turn>, k: nat) {
    k < |turns| &&
    var q, t := PolledBy(p, turns[..k]), turns[k];
    q.next.None? && (Finds(p.fsm, q, t) || (t.MainTurn? && Ready(p.fsm, q, t) && !SetsAside(q, t)))
  }

  lemma {:induction false} LoopEndsIff(p: PeerView, turns: seq<Turn>)
    ensures PolledBy(p, turns).next.Some? <==> exists k :: EndsAt(p, turns, k)
  {
    hide PollLoop, Turned, Finds, Ready, SetsAside;
    if PolledBy(p, turns).next.Some? {
      var k := LoopHasLastTurn(p.settings.myBgpId, p.fsm, Unpolled(p), turns);
      NoticedIff(p.settings.myBgpId, p.fsm, PolledBy(p, turns[..k]), turns[k]);
      assert EndsAt(p, turns, k);
    }
    if k: nat :| EndsAt(p, turns, k) {
      NoticedIff(p.settings.myBgpId, p.fsm, PolledBy(p, turns[..k]), turns[k]);
      LoopEndsAt(p, turns, k);
    }
  }

  /** A connection of our own is opened while the main one still waits, and takes the place of the tracked one. */
  ghost predicate Supersedes(p: PeerView, o: Oracle) {
    && p.fsm == Connect && p.mayConnect && p.connection.Some? && o.choice == ConnectDone(true)
    && (p.settings.conn.openDelay > 0 || o.o1.Sent?) && !exists k :: EndsAt(p, o.turns, k)
  }

  /** The steps that make room again. None of them is taken because the connection has ended. */
  ghost predicate Clears(p: PeerView, s: PeerStep) {
    match s
    case Tell(_) => false
    case Relay(_, ot, _) => !ot.Sent?
    case Run(o) => IsStopped(p) || (Ignores(p) && (Supersedes(p, o) || exists k :: FindsAt(p, o.turns, k)))
  }

  lemma {:induction false} EndedStaysEnded(c: Conn, e: Event, o1: SendOutcome, o2: SendOutcome)
    requires c.state == Terminate
    ensures Handled(c, e, o1, o2).0.state == Terminate
  {
    hide Handled;
    HandledMoves(c, e, o1, o2);
  }

  lemma {:induction false} TurnedKeepsEnded(id: nat, fsm: Fsm, q: Polling, t: Turn)
    requires IsEnded(q.tracked)
    ensures IsEnded(Turned(id, fsm, q, t).tracked)
  {
    hide Handled, Count, Collide, MessageEvent;
    if t.TrackedTurn? && Enabled(q.tracked.value, t.input) {
      var (c, e) := Polled(q.tracked.value, t.input);
      EndedStaysEnded(c, e, t.o1, t.o2);
    }
  }

  lemma {:induction false} PollLoopKeepsEnded(id: nat, fsm: Fsm, q: Polling, turns: seq<Turn>)
    requires IsEnded(q.tracked)
    ensures IsEnded(PollLoop(id, fsm, q, turns).tracked)
    decreases |turns|
  {
    hide Turned, IsEnded;
    if turns != [] && q.next.None? {
      TurnedKeepsEnded(id, fsm, q, turns[0]);
      PollLoopKeepsEnded(id, fsm, Turned(id, fsm, q, turns[0]), turns[1..]);
    }
  }

  lemma {:induction false} HandledMainKeepsTracked(p: PeerView, e: Event, o1: SendOutcome, o2: SendOutcome)
    ensures HandledMain(p, e, o1, o2).0.tracked == p.tracked
  {
    hide Handled, Reacted;
    if p.connection.Some? {
      var c := p.connection.value;
      var (d, ok) := Handled(c, e, o1, o2);
      ReactedKeepsConnections(p.(connection := Some(d)), c.state, d, e);
    }
  }

  /** Whether a connection is added, and that a new connection has not ended. */
  lemma {:induction false} OpenedAddsIff(p: PeerView, d: Direction, e: Event, o: Oracle)
    requires !ComesFromPolling(e)
    ensures var q := Opened(p, d, e, o).0;
      if p.settings.conn.openDelay > 0 || o.o1.Sent?
      then if p.connection.Some? then q.tracked.Some? && !IsEnded(q.tracked) else q.tracked == p.tracked
      else q.tracked == p.tracked
  {
    hide Handled, NewConn, Count;
    var f := FreshConn(p.settings, d, o.jitter);
    FreshIsNew(p.settings, d, o.jitter);
    HandledOpens(f, e, o.o1, o.o2);
  }

  lemma {:induction false} SelectedClearsIff(p: PeerView, o: Oracle)
    requires HoldsEnded(p)
    ensures !HoldsEnded(Selected(p, o).0) <==> Supersedes(p, o) || FindsCollision(PolledBy(p, o.turns))
  {
    hide PollLoop, HandledMain, Opened, Named, EndsAt;
    SlotsStay(p.settings.myBgpId, p.fsm, Unpolled(p), o.turns);
    LoopEndsIff(p, o.turns);
    PollLoopKeepsEnded(p.settings.myBgpId, p.fsm, Unpolled(p), o.turns);
    var q := PolledBy(p, o.turns);
    var r := WithPolled(p, q);
    if q.next.Some? && q.next.value.MainEvent? {
      HandledMainKeepsTracked(Asked(r, o), q.next.value.event, o.o1, o.o2);
    } else if q.next.None? {
      OpenedAddsIff(r.(mayConnect := false), Direction.Active, TcpConnectionRequestAcked, o);
    }
  }

  lemma {:induction false} SteppedClearsIff(p: PeerView, s: PeerStep)
    requires HoldsEnded(p)
    ensures !HoldsEnded(Stepped(p, s).0) <==> Clears(p, s)
  {
    hide Selected, Opened, PollLoop, Count, FindsAt, EndsAt;
    if s.Run? {
      var o := s.oracle;
      PoppedIsSame(p, o.turns);
      LoopEndsIff(p, o.turns);
      LoopEndsIff(Popped(p), o.turns);
      OpenedAddsIff(Popped(p), Passive, TcpConnectionConfirmed, o);
      if p.waiting != [] {
        IgnoredIff(p, o);
      }
      if Ignores(p) {
        SelectedClearsIff(Popped(p), o);
        FoundIff(p, o.turns);
      }
    }
  }

  /** A peer goes on holding a tracked connection that has ended, over a whole run, exactly as long as none of these
      steps is taken; and beside a main connection it refuses every incoming one that long. */
  lemma {:induction false} EndedIsHeldIff(p: PeerView, steps: seq<PeerStep>)
    requires HoldsEnded(p)
    ensures (forall k :: 0 <= k <= |steps| ==> HoldsEnded(Played(p, steps[..k]))) <==>
            (forall k :: 0 <= k < |steps| ==> !Clears(Played(p, steps[..k]), steps[k]))
    ensures forall k, o ::
      0 <= k <= |steps| && HoldsEnded(Played(p, steps[..k])) && Played(p, steps[..k]).connection.Some? ==>
        Administered(Played(p, steps[..k]), ConnectionConfirmed, o) == (Played(p, steps[..k]), None)
  {
    hide Stepped, Clears, HoldsEnded, Played;
    var good := (k: nat) => k <= |steps| && HoldsEnded(Played(p, steps[..k]));
    var bad := (k: nat) => k < |steps| && Clears(Played(p, steps[..k]), steps[k]);
    assert steps[..0] == [] && Played(p, []) == p by { PlayedNothing(p); }
    forall k: nat | k < |steps| && good(k) ensures good(k + 1) <==> !bad(k) {
      PlayedNext(p, steps, k);
      SteppedClearsIff(Played(p, steps[..k]), steps[k]);
    }
    ThroughoutIff(|steps|, good, bad);
    assert forall k: nat :: k <= |steps| ==> (good(k) <==> HoldsEnded(Played(p, steps[..k])));
    assert forall k: nat :: k < |steps| ==> (bad(k) <==> Clears(Played(p, steps[..k]), steps[k]));
    forall k, o | 0 <= k <= |steps| && HoldsEnded(Played(p, steps[..k])) && Played(p, steps[..k]).connection.Some?
      ensures Administered(Played(p, steps[..k]), ConnectionConfirmed, o) == (Played(p, steps[..k]), None)
    {
      EndedRefuses(Played(p, steps[..k]), o);
    }
  }

  lemma {:induction false} EndedRefuses(p: PeerView, o: Oracle)
    requires HoldsEnded(p) && p.connection.Some?
    ensures Administered(p, ConnectionConfirmed, o) == (p, None)
  {
    hide Opened;
  }
}
