/** Connection collisions: when they are noticed, what is left, and whether two speakers are left with the same. */
module BgpCollision {
  import opened Sequences
  import opened BgpOpen
  import opened BgpConnection
  import opened BgpConnectionTheory
  import opened BgpPeerSpec
  import opened BgpPeerTheory
  import opened BgpPeerTheorems
  import opened BgpPeerLaws

  // ----- When a collision is noticed

  /** Both connections have announced the same identifier, and nothing has been done about it. */
  ghost predicate Unresolved(main: Option<Conn>, tracked: Option<Conn>) {
    main.Some? && tracked.Some? && main.value.peerBgpId.Some? && main.value.peerBgpId == tracked.value.peerBgpId
  }

  ghost predicate IsOpen(input: Input) {
    input.Incoming? && input.message.Open?
  }

  /** The turn has something to poll. A tracked connection is not polled while the peer is still connecting, nor once it
      is confirmed. */
  ghost predicate Ready(fsm: Fsm, q: Polling, t: Turn) {
    if t.MainTurn? then q.main.Some? && Enabled(q.main.value, t.input)
    else TrackedIsPolled(fsm, q.tracked, q.hidden) && Enabled(q.tracked.value, t.input)
  }

  /** The identifier a connection has announced once `input` has been polled from it. */
  ghost function IdAfter(c: Conn, input: Input): Option<nat> {
    if IsOpen(input) then Some(input.message.open.bgpId) else c.peerBgpId
  }

  /** The identifier of the main connection after a turn. */
  ghost function MainIdAfter(q: Polling, t: Turn): Option<nat>
    requires q.main.Some?
  {
    if t.MainTurn? then IdAfter(q.main.value, t.input) else q.main.value.peerBgpId
  }

  /** The identifier of the tracked connection after a turn. */
  ghost function TrackedIdAfter(q: Polling, t: Turn): Option<nat>
    requires q.tracked.Some?
  {
    if t.TrackedTurn? then IdAfter(q.tracked.value, t.input) else q.tracked.value.peerBgpId
  }

  /** After the turn the two connections have announced different identifiers. */
  ghost predicate SetsAside(q: Polling, t: Turn) {
    && !q.hidden && q.main.Some? && q.tracked.Some?
    && MainIdAfter(q, t).Some? && TrackedIdAfter(q, t).Some? && MainIdAfter(q, t) != TrackedIdAfter(q, t)
  }

  /** A turn after which both connections have announced the same identifier. */
  ghost predicate Finds(fsm: Fsm, q: Polling, t: Turn) {
    && !q.hidden && q.main.Some? && q.tracked.Some? && Ready(fsm, q, t) && MainIdAfter(q, t).Some?
    && MainIdAfter(q, t) == TrackedIdAfter(q, t)
  }

  lemma {:induction false} PolledId(c: Conn, input: Input)
    requires Enabled(c, input)
    ensures var (d, e) := Polled(c, input);
      && d.peerBgpId == IdAfter(c, input)
      && (e.BGPOpen? || e.BGPOpenWithDelayOpenTimer? ==> IsOpen(input) && e.open == input.message.open)
  {
  }

  lemma {:induction false} DrivenId(c: Conn, input: Input, o1: SendOutcome, o2: SendOutcome)
    requires Enabled(c, input)
    ensures var (d, e) := Polled(c, input); Handled(d, e, o1, o2).0.peerBgpId == IdAfter(c, input)
  {
    hide Handled, Polled, Enabled;
    PolledId(c, input);
    var (d, e) := Polled(c, input);
    HandledKeepsId(d, e, o1, o2);
  }

  ghost predicate FindsCollision(q: Polling) {
    q.next.Some? && q.next.value.Collision?
  }

  /** A turn of the loop notices a collision exactly if both connections have announced the same after it, and sets the
      tracked one aside exactly if they have announced different identifiers. Otherwise what the main connection yields
      ends the loop. */
  lemma {:induction false} NoticedIff(id: nat, fsm: Fsm, q: Polling, t: Turn)
    requires q.next.None?
    ensures FindsCollision(Turned(id, fsm, q, t)) <==> Finds(fsm, q, t)
    ensures Turned(id, fsm, q, t).hidden <==> q.hidden || (Ready(fsm, q, t) && SetsAside(q, t))
    ensures Turned(id, fsm, q, t).next.Some? <==>
      Finds(fsm, q, t) || (t.MainTurn? && Ready(fsm, q, t) && !SetsAside(q, t))
  {
    hide Polled, Handled, Transmitted, Enabled;
    match t {
      case MainTurn(input, o) =>
        if q.main.Some? && Enabled(q.main.value, input) {
          PolledId(q.main.value, input);
        }
      case TrackedTurn(input, o1, o2) =>
        if q.tracked.Some? && Enabled(q.tracked.value, input) {
          DrivenId(q.tracked.value, input, o1, o2);
        }
    }
  }

  // ----- What is left

  /** The next call polls, and finds a collision in its first turn. */
  ghost predicate Resolves(p: PeerView, o: Oracle) {
    Ignores(p) && o.turns != [] && Finds(p.fsm, Unpolled(p), o.turns[0])
  }

  /** The polling loop before its first turn. */
  ghost function Unpolled(p: PeerView): Polling {
    Polling(p.connection, p.tracked, false, None)
  }

  /** The identifier both connections have announced then. */
  ghost function Announced(p: PeerView, o: Oracle): nat
    requires Resolves(p, o)
  {
    MainIdAfter(Unpolled(p), o.turns[0]).value
  }

  /** The two connections after a turn that finds a collision. What is polled from the main one is not acted upon. */
  ghost function MainAfter(q: Polling, t: Turn): Conn
    requires q.main.Some? && (t.MainTurn? ==> Enabled(q.main.value, t.input))
  {
    if t.MainTurn? then Polled(q.main.value, t.input).0 else q.main.value
  }

  ghost function TrackedAfter(q: Polling, t: Turn): Conn
    requires q.tracked.Some? && (t.TrackedTurn? ==> Enabled(q.tracked.value, t.input))
  {
    if t.MainTurn? then q.tracked.value
    else
      var (c, e) := Polled(q.tracked.value, t.input);
      Handled(c, e, t.o1, t.o2).0
  }

  ghost function MainThen(p: PeerView, o: Oracle): Conn
    requires Resolves(p, o)
  {
    MainAfter(Unpolled(p), o.turns[0])
  }

  ghost function TrackedThen(p: PeerView, o: Oracle): Conn
    requires Resolves(p, o)
  {
    TrackedAfter(Unpolled(p), o.turns[0])
  }

  lemma {:induction false} LoopTakesTurn(id: nat, fsm: Fsm, q: Polling, turns: seq<Turn>)
    requires turns != [] && q.next.None?
    ensures PollLoop(id, fsm, q, turns) == PollLoop(id, fsm, Turned(id, fsm, q, turns[0]), turns[1..])
  {
    hide Turned;
  }

  lemma {:induction false} LoopEndsWith(id: nat, fsm: Fsm, q: Polling, turns: seq<Turn>)
    requires turns != [] && q.next.None? && Turned(id, fsm, q, turns[0]).next.Some?
    ensures PollLoop(id, fsm, q, turns) == Turned(id, fsm, q, turns[0])
  {
    hide Turned;
    assert PollLoop(id, fsm, Turned(id, fsm, q, turns[0]), turns[1..]) == Turned(id, fsm, q, turns[0]);
  }

  /** A call that ignores what waits goes on to poll. */
  lemma {:induction false} RanPolls(p: PeerView, o: Oracle)
    requires Ignores(p)
    ensures Ran(p, o) == Selected(Popped(p), o)
  {
    hide Selected, Opened;
    if p.waiting != [] {
      IgnoredIff(p, o);
    }
  }

  lemma {:induction false} FindingTurn(id: nat, fsm: Fsm, q: Polling, t: Turn)
    requires q.next.None? && Finds(fsm, q, t) && q.main.value.created == q.tracked.value.created
    ensures Turned(id, fsm, q, t) == Polling(Some(MainAfter(q, t)), Some(TrackedAfter(q, t)), false,
                                             Some(Collision(id < MainIdAfter(q, t).value)))
  {
    hide Handled, Count, MessageEvent;
    if t.MainTurn? {
      PolledId(q.main.value, t.input);
    } else {
      DrivenId(q.tracked.value, t.input, t.o1, t.o2);
      var (c, e) := Polled(q.tracked.value, t.input);
      HandledKeepsIdentity(c, e, t.o1, t.o2);
    }
  }

  lemma {:induction false} ResolvingTurn(p: PeerView, o: Oracle)
    requires ConnectionsBelong(p) && Resolves(p, o)
    ensures PolledBy(p, o.turns) == Polling(Some(MainThen(p, o)), Some(TrackedThen(p, o)), false,
                                            Some(Collision(p.settings.myBgpId < Announced(p, o))))
  {
    hide Turned, PollLoop, MainAfter, TrackedAfter, ConnectionsBelong, Ignores;
    CreatedAlike(p);
    FindingTurn(p.settings.myBgpId, p.fsm, Unpolled(p), o.turns[0]);
    LoopEndsWith(p.settings.myBgpId, p.fsm, Unpolled(p), o.turns);
  }

  /** Which connection is left: the main one for the speaker with the higher identifier; for the lower one the tracked
      one, whose state is then published, unless that one is Connected or terminated: then the call fails. */
  lemma {:induction false} CollisionIsResolved(p: PeerView, o: Oracle)
    requires ConnectionsBelong(p) && Resolves(p, o)
    ensures var (q, r) := Ran(p, o);
      var lower, fit := p.settings.myBgpId < Announced(p, o), Named(TrackedThen(p, o).state);
      && q.tracked.None? && q.settings == p.settings && q.waiting == Popped(p).waiting
      && q.adminUp == p.adminUp && q.retryTimer == p.retryTimer
      && q.retryCounter == p.retryCounter + (if lower then 1 else 0)
      && q.connection == Some(if lower && fit.Some? then TrackedThen(p, o) else MainThen(p, o))
      && q.fsm == (if lower && fit.Some? then fit.value else p.fsm)
      && r == (if lower && fit.None? then InvalidTransition else Progress)
  {
    hide PollLoop, Ran, Handled, Polled, ConnectionsBelong, Ignores, Enabled;
    RanPolls(p, o);
    PoppedIsSame(p, o.turns);
    ResolvingTurn(p, o);
  }

  lemma {:induction false} CreatedAlike(p: PeerView)
    requires ConnectionsBelong(p) && p.connection.Some? && p.tracked.Some?
    ensures p.connection.value.created == p.tracked.value.created
  {
    hide Sound, Armed;
  }

  ghost predicate AcceptsAs(c: Conn, open: OpenMessage) {
    c.peerAsn.None? || c.peerAsn.value == MyAsn4(open)
  }

  /** A tracked connection that has just taken in an OPEN can take over if its AS is accepted and our OPEN was on its
      way, or could still be sent; whether the answer could be written does not matter in the first case. */
  lemma {:induction false} TrackedIsFitIff(p: PeerView, o: Oracle)
    requires Resolves(p, o) && o.turns[0].TrackedTurn? && IsOpen(o.turns[0].input) && ConnectionsBelong(p)
    ensures var c, t := p.tracked.value, o.turns[0];
      Named(TrackedThen(p, o).state).Some? <==>
        AcceptsAs(c, t.input.message.open) &&
        (c.state == ConnState.OpenSent || (c.state == Connected && c.openDelayTimer && t.o1.Sent? && t.o2.Sent?))
  {
    hide Count, MyAsn4, Jittered, Minimum, Sound, Ignores, Handled;
    var c, t := p.tracked.value, o.turns[0];
    var (d, e) := Polled(c, t.input);
    assert d.state == c.state && c.state in {Connected, ConnState.OpenSent, Terminate};
    if OnlyMoves(d, e) {
      HandledMoves(d, e, t.o1, t.o2);
      if c.state != Terminate {
        MovingDoesNotOpen(d, e, t.o1, t.o2);
      }
    } else {
      HandledOpens(d, e, t.o1, t.o2);
    }
  }

  lemma {:induction false} MovingDoesNotOpen(c: Conn, e: Event, o1: SendOutcome, o2: SendOutcome)
    requires OnlyMoves(c, e) && c.state in {Connected, ConnState.OpenSent}
    requires e.BGPOpen? || e.BGPOpenWithDelayOpenTimer? || e.BGPOpenMsgErr?
    ensures Handled(c, e, o1, o2).0.state == Terminate
  {
    hide Count;
  }

  /** If the OPEN of a tracked connection is refused for its AS number, and its identifier is the one the main
      connection announced and higher than ours, the terminated connection is chosen to replace the main one and the
      call fails. */
  lemma {:induction false} RefusedTrackedOpenStopsPeer(p: PeerView, o: Oracle)
    requires ConnectionsBelong(p) && Resolves(p, o) && p.settings.myBgpId < Announced(p, o)
    requires o.turns[0].TrackedTurn? && IsOpen(o.turns[0].input)
    requires !AcceptsAs(p.tracked.value, o.turns[0].input.message.open)
    ensures Ran(p, o).1 == InvalidTransition
  {
    hide Ran, ConnectionsBelong, TrackedThen, MainThen, AcceptsAs;
    CollisionIsResolved(p, o);
    TrackedIsFitIff(p, o);
  }

  // ----- Two speakers

  /** Of two TCP connections, one opened by each side, the one a side calls Active is the one the other calls
      Passive. */
  ghost predicate KeepSameConnection(a: PeerView, b: PeerView) {
    a.connection.Some? && b.connection.Some? && a.connection.value.direction != b.connection.value.direction
  }

  /** A speaker resolves a collision between a connection of its own and one of the peer's. */
  ghost predicate Meets(p: PeerView, o: Oracle, peerId: nat) {
    && ConnectionsBelong(p) && Resolves(p, o) && Announced(p, o) == peerId
    && p.connection.value.direction != p.tracked.value.direction
  }

  lemma {:induction false} DirectionsStay(p: PeerView, o: Oracle)
    requires Resolves(p, o)
    ensures MainThen(p, o).direction == p.connection.value.direction
    ensures TrackedThen(p, o).direction == p.tracked.value.direction
  {
    hide Handled, Count, MessageEvent;
    var t := o.turns[0];
    if t.TrackedTurn? {
      var (c, e) := Polled(p.tracked.value, t.input);
      HandledKeepsIdentity(c, e, t.o1, t.o2);
    }
  }

  /** Two speakers that take in each other's second OPEN go on with the same TCP connection exactly if each has a
      different one as its main connection, and the tracked one of the lower speaker can take over. It is the one opened
      by the higher identifier, as section 6.8 of RFC 4271 demands, exactly if each has its own as main. */
  lemma {:induction false} SpeakersAgreeIff(a: PeerView, b: PeerView, oa: Oracle, ob: Oracle)
    requires a.settings.myBgpId < b.settings.myBgpId
    requires Meets(a, oa, b.settings.myBgpId) && Meets(b, ob, a.settings.myBgpId)
    ensures var (ra, rb) := (Ran(a, oa), Ran(b, ob));
      var fit := Named(TrackedThen(a, oa).state).Some?;
      var da, db := a.connection.value.direction, b.connection.value.direction;
      && rb.1 == Progress && rb.0.connection == Some(MainThen(b, ob)) && (ra.1 == Progress <==> fit)
      && (ra.1 == Progress && KeepSameConnection(ra.0, rb.0) <==> fit && da == db)
      && (ra.1 == Progress && KeepSameConnection(ra.0, rb.0) && rb.0.connection.value.direction == Direction.Active <==>
            fit && da == Direction.Active && db == Direction.Active)
  {
    hide Ran, MainThen, TrackedThen, ConnectionsBelong;
    CollisionIsResolved(a, oa);
    CollisionIsResolved(b, ob);
    DirectionsStay(a, oa);
    DirectionsStay(b, ob);
  }

  /** With equal identifiers, since creation times are never set, both sides drop what they track, so they agree exactly
      if they have the same connection as main. */
  lemma {:induction false} EqualIdentifiersAgreeIff(a: PeerView, b: PeerView, oa: Oracle, ob: Oracle)
    requires a.settings.myBgpId == b.settings.myBgpId
    requires Meets(a, oa, b.settings.myBgpId) && Meets(b, ob, a.settings.myBgpId)
    ensures Ran(a, oa).1 == Progress && Ran(b, ob).1 == Progress
    ensures KeepSameConnection(Ran(a, oa).0, Ran(b, ob).0) <==>
      a.connection.value.direction != b.connection.value.direction
  {
    hide Ran, MainThen, TrackedThen, ConnectionsBelong;
    CollisionIsResolved(a, oa);
    CollisionIsResolved(b, ob);
    DirectionsStay(a, oa);
    DirectionsStay(b, ob);
  }

  // ----- The OPEN that completes a collision on the main connection is lost

  ghost predicate IsConfirmed(c: Conn) {
    c.state == ConnState.OpenConfirm || c.state == ConnState.Established
  }

  /** The connection a speaker with the higher identifier goes on with is confirmed exactly if it was before the second
      OPEN of the peer's one identifier, and that one came on the tracked connection. */
  lemma {:induction false} WinnerIsConfirmedIff(p: PeerView, o: Oracle, x: nat)
    requires Meets(p, o, x) && x <= p.settings.myBgpId && IsOpen(o.turns[0].input)
    requires PeerKnowsOnly(p, x) && !CollisionLeft(p)
    ensures Ran(p, o).0.connection.Some?
    ensures IsConfirmed(Ran(p, o).0.connection.value) <==> IsConfirmed(p.connection.value) && o.turns[0].TrackedTurn?
  {
    hide Ran, Ignores, Count, MyAsn4, Armed, TimersNegotiated;
    CollisionIsResolved(p, o);
  }

  lemma {:induction false} OpenSentEnds(p: PeerView, o: Oracle)
    requires p.connection.Some? && p.connection.value.state == ConnState.OpenSent
    ensures var q := HandledMain(p, KeepAliveMsg, o.o1, o.o2).0; q.connection == None && q.fsm == Idle
  {
    hide Count, Minimum, Jittered, Negotiated;
  }

  lemma {:induction false} UnexpectedKeepAlive(p: PeerView, o: Oracle)
    requires Ignores(p) && p.tracked.None? && p.connection.Some? && p.connection.value.state == ConnState.OpenSent
    requires o.turns == [MainTurn(Incoming(KeepAlive), Sent)]
    ensures Ran(p, o).0.connection == None && Ran(p, o).0.fsm == Idle
  {
    hide Count, PollLoop, Ran, Ignores, HandledMain;
    RanPolls(p, o);
    var q := Turned(p.settings.myBgpId, p.fsm, Unpolled(p), o.turns[0]);
    assert q.next == Some(MainEvent(KeepAliveMsg)) && q.main.value.state == ConnState.OpenSent;
    LoopEndsWith(p.settings.myBgpId, p.fsm, Unpolled(p), o.turns);
    OpenSentEnds(Asked(WithPolled(Popped(p), q), o), o);
  }

  /** If it is the OPEN of the main connection that completes a collision, and the main connection wins, that OPEN is
      not acted upon: the connection stays in OpenSent, and the KEEPALIVE the peer sends next ends it. */
  lemma {:induction false} WinningOpenIsLost(p: PeerView, o: Oracle, next: Oracle)
    requires ConnectionsBelong(p) && Resolves(p, o) && o.turns[0].MainTurn? && p.settings.myBgpId >= Announced(p, o)
    requires p.connection.value.state == ConnState.OpenSent && next.turns == [MainTurn(Incoming(KeepAlive), Sent)]
    ensures var q := Ran(p, o).0; q.connection.Some? && q.connection.value.state == ConnState.OpenSent
    ensures Ignores(Ran(p, o).0) ==>
      var q := Ran(Ran(p, o).0, next).0; q.connection == None && q.fsm == Idle
  {
    hide Ran, ConnectionsBelong, Count, MyAsn4, Ignores;
    CollisionIsResolved(p, o);
    if Ignores(Ran(p, o).0) {
      UnexpectedKeepAlive(Ran(p, o).0, next);
    }
  }

  // ----- No collision is left between calls

  ghost predicate CollisionLeft(p: PeerView) {
    Unresolved(p.connection, p.tracked)
  }

  /** Handling `e` leads to OpenConfirm. */
  ghost predicate Confirms(c: Conn, e: Event) {
    (c.state == ConnState.OpenSent && e.BGPOpen?) || (c.state == Connected && e.BGPOpenWithDelayOpenTimer?)
  }

  /** The loop ends with a collision it did not look for. */
  ghost predicate LoopOverlooks(q: Polling) {
    && q.hidden && q.next.Some? && q.next.value.MainEvent?
    && Unresolved(q.main, q.tracked) && Confirms(q.main.value, q.next.value.event)
  }

  /** In turn `j` the tracked connection is set aside, because the two identifiers are different. */
  ghost predicate SetsAsideAt(p: PeerView, turns: seq<Turn>, j: nat) {
    j < |turns| &&
    var q := PolledBy(p, turns[..j]);
    q.next.None? && Ready(p.fsm, q, turns[j]) && SetsAside(q, turns[j])
  }

  /** The tracked connection is set aside in turn `j`, and a later turn `k` is an acceptable OPEN of the main one, which
      waits for it, with just the identifier of the tracked one. */
  ghost predicate OverlooksAt(p: PeerView, turns: seq<Turn>, j: nat, k: nat) {
    j < k < |turns| && SetsAsideAt(p, turns, j) &&
    var q, t := PolledBy(p, turns[..k]), turns[k];
    && q.next.None? && t.MainTurn? && IsOpen(t.input) && q.main.Some? && q.tracked.Some?
    && q.tracked.value.peerBgpId == Some(t.input.message.open.bgpId) && AcceptsAs(q.main.value, t.input.message.open)
    && q.main.value.state == if q.main.value.openDelayTimer then Connected else ConnState.OpenSent
  }

  ghost predicate Overlooks(p: PeerView, s: PeerStep) {
    s.Run? && Ignores(p) && exists j, k :: OverlooksAt(p, s.oracle.turns, j, k)
  }

  lemma {:induction false} LoopSplits(id: nat, fsm: Fsm, q: Polling, turns: seq<Turn>, k: nat)
    requires k <= |turns|
    ensures PollLoop(id, fsm, q, turns) == PollLoop(id, fsm, PollLoop(id, fsm, q, turns[..k]), turns[k..])
    decreases k
  {
    hide Turned;
    if k == 0 || q.next.Some? {
      assert turns[..0] == [] && turns[0..] == turns;
    } else {
      LoopSplits(id, fsm, Turned(id, fsm, q, turns[0]), turns[1..], k - 1);
      assert turns[1..][..k - 1] == turns[..k][1..] && turns[1..][k - 1..] == turns[k..];
    }
  }

  /** A loop that ends does so with one of its turns. */
  lemma {:induction false} LoopHasLastTurn(id: nat, fsm: Fsm, q: Polling, turns: seq<Turn>) returns (k: nat)
    requires q.next.None? && PollLoop(id, fsm, q, turns).next.Some?
    ensures k < |turns|
    ensures var r := PollLoop(id, fsm, q, turns[..k]);
      r.next.None? && PollLoop(id, fsm, q, turns) == Turned(id, fsm, r, turns[k])
    decreases |turns|
  {
    hide Turned;
    LoopTakesTurn(id, fsm, q, turns);
    var r := Turned(id, fsm, q, turns[0]);
    if r.next.Some? {
      LoopEndsWith(id, fsm, q, turns);
      k := 0;
      assert turns[..0] == [];
    } else {
      var j := LoopHasLastTurn(id, fsm, r, turns[1..]);
      k := j + 1;
      assert turns[..k][1..] == turns[1..][..j];
      LoopTakesTurn(id, fsm, q, turns[..k]);
    }
  }

  /** Turn `k` ends the loop. */
  lemma {:induction false} LoopEndsAt(p: PeerView, turns: seq<Turn>, k: nat)
    requires k < |turns| && PolledBy(p, turns[..k]).next.None?
    requires Turned(p.settings.myBgpId, p.fsm, PolledBy(p, turns[..k]), turns[k]).next.Some?
    ensures PolledBy(p, turns) == Turned(p.settings.myBgpId, p.fsm, PolledBy(p, turns[..k]), turns[k])
  {
    hide Turned, PollLoop;
    LoopSplits(p.settings.myBgpId, p.fsm, Unpolled(p), turns, k);
    LoopEndsWith(p.settings.myBgpId, p.fsm, PolledBy(p, turns[..k]), turns[k..]);
  }

  lemma {:induction false} OverlookingTurn(id: nat, fsm: Fsm, q: Polling, t: Turn)
    requires q.next.None?
    ensures LoopOverlooks(Turned(id, fsm, q, t)) <==>
      && q.hidden && t.MainTurn? && IsOpen(t.input) && q.main.Some? && q.tracked.Some?
      && q.tracked.value.peerBgpId == Some(t.input.message.open.bgpId) && AcceptsAs(q.main.value, t.input.message.open)
      && q.main.value.state == if q.main.value.openDelayTimer then Connected else ConnState.OpenSent
  {
    hide Handled, Count, MyAsn4;
  }

  lemma {:induction false} SetAsideIff(p: PeerView, turns: seq<Turn>)
    ensures PolledBy(p, turns).hidden <==> exists j :: SetsAsideAt(p, turns, j)
    decreases |turns|
  {
    hide Turned, Ready, SetsAside;
    if turns != [] {
      var n := |turns| - 1;
      var q := PolledBy(p, turns[..n]);
      SetAsideIff(p, turns[..n]);
      LoopSplits(p.settings.myBgpId, p.fsm, Unpolled(p), turns, n);
      assert forall j: nat :: j < n ==> turns[..n][..j] == turns[..j];
      assert forall j: nat :: j < n ==> (SetsAsideAt(p, turns[..n], j) <==> SetsAsideAt(p, turns, j));
      if q.next.None? {
        NoticedIff(p.settings.myBgpId, p.fsm, q, turns[n]);
        LoopTakesTurn(p.settings.myBgpId, p.fsm, q, turns[n..]);
        assert SetsAsideAt(p, turns, n) <==> Ready(p.fsm, q, turns[n]) && SetsAside(q, turns[n]);
      }
    }
  }

  /** The turns that make the loop overlook a collision. */
  lemma {:induction false} LoopOverlooksIff(p: PeerView, turns: seq<Turn>)
    ensures LoopOverlooks(PolledBy(p, turns)) <==> exists j, k :: OverlooksAt(p, turns, j, k)
  {
    hide PollLoop, Turned, AcceptsAs, Unresolved, Confirms, Ready, SetsAside;
    if LoopOverlooks(PolledBy(p, turns)) {
      var k := LoopHasLastTurn(p.settings.myBgpId, p.fsm, Unpolled(p), turns);
      OverlookingTurn(p.settings.myBgpId, p.fsm, PolledBy(p, turns[..k]), turns[k]);
      SetAsideIff(p, turns[..k]);
      var j: nat :| SetsAsideAt(p, turns[..k], j);
      assert turns[..k][..j] == turns[..j];
      assert OverlooksAt(p, turns, j, k);
    }
    if j: nat, k: nat :| OverlooksAt(p, turns, j, k) {
      assert turns[..k][..j] == turns[..j];
      assert SetsAsideAt(p, turns[..k], j);
      SetAsideIff(p, turns[..k]);
      OverlookingTurn(p.settings.myBgpId, p.fsm, PolledBy(p, turns[..k]), turns[k]);
      LoopEndsAt(p, turns, k);
    }
  }

  ghost predicate IsOpenEvent(e: Event) {
    e.BGPOpen? || e.BGPOpenWithDelayOpenTimer? || e.BGPOpenMsgErr?
  }

  /** What holds between turns. A collision is only open once it has been noticed, or overlooked. */
  ghost predicate Watched(q: Polling) {
    Unresolved(q.main, q.tracked) ==>
      q.next.Some? && (q.next.value.MainEvent? ==> q.hidden && IsOpenEvent(q.next.value.event))
  }

  lemma {:induction false} PolledOpenEvent(c: Conn, input: Input)
    requires Enabled(c, input)
    ensures IsOpen(input) ==> IsOpenEvent(Polled(c, input).1)
  {
  }

  lemma {:induction false} TurnedIsWatched(id: nat, fsm: Fsm, q: Polling, t: Turn)
    requires q.next.None? && Watched(q)
    ensures Watched(Turned(id, fsm, q, t))
  {
    hide Polled, Handled, Enabled, Count;
    match t {
      case MainTurn(input, o) =>
        if q.main.Some? && Enabled(q.main.value, input) {
          PolledId(q.main.value, input);
          PolledOpenEvent(q.main.value, input);
        }
      case TrackedTurn(input, o1, o2) =>
        if q.tracked.Some? && Enabled(q.tracked.value, input) {
          DrivenId(q.tracked.value, input, o1, o2);
        }
    }
  }

  lemma {:induction false} PollLoopIsWatched(id: nat, fsm: Fsm, q: Polling, turns: seq<Turn>)
    requires Watched(q)
    ensures Watched(PollLoop(id, fsm, q, turns))
    decreases |turns|
  {
    hide Turned, Watched;
    if turns != [] && q.next.None? {
      TurnedIsWatched(id, fsm, q, turns[0]);
      PollLoopIsWatched(id, fsm, Turned(id, fsm, q, turns[0]), turns[1..]);
    }
  }

  /** An OPEN that is not accepted ends the connection. */
  lemma {:induction false} OpenEventMoves(c: Conn, e: Event, o1: SendOutcome, o2: SendOutcome)
    requires IsOpenEvent(e) && Handled(c, e, o1, o2).1 && c.state != Terminate
    ensures Handled(c, e, o1, o2).0.state == if Confirms(c, e) then ConnState.OpenConfirm else Terminate
  {
    hide Count, Minimum, Jittered, MyAsn4;
  }

  lemma {:induction false} ReactedKeepsConfirmed(p: PeerView, before: ConnState, c: Conn, e: Event)
    requires c.state == ConnState.OpenConfirm && p.connection == Some(c)
    ensures Reacted(p, before, c, e).0.connection == Some(c)
  {
  }

  lemma {:induction false} HandledMainLeaves(p: PeerView, e: Event, o1: SendOutcome, o2: SendOutcome)
    requires Orderly(p) && p.connection.Some? && Due(p.connection.value, e) && HandledMain(p, e, o1, o2).1 == Progress
    requires CollisionLeft(p) ==> IsOpenEvent(e)
    ensures CollisionLeft(HandledMain(p, e, o1, o2).0) <==> CollisionLeft(p) && Confirms(p.connection.value, e)
  {
    hide Handled, Reacted, ArmedFor, MyAsn4;
    var c := p.connection.value;
    var d := Handled(c, e, o1, o2).0;
    var q := p.(connection := Some(d));
    HandledKeepsId(c, e, o1, o2);
    ReactedKeepsConnections(q, c.state, d, e);
    if CollisionLeft(p) {
      OpenEventMoves(c, e, o1, o2);
      if Confirms(c, e) {
        ReactedKeepsConfirmed(q, c.state, d, e);
      } else {
        ReactedDrops(q, c.state, d, e);
      }
    }
  }

  lemma {:induction false} OpenedLeavesNone(p: PeerView, d: Direction, e: Event, o: Oracle)
    requires !CollisionLeft(p) && !ComesFromPolling(e)
    ensures !CollisionLeft(Opened(p, d, e, o).0)
  {
    hide Handled, NewConn;
    assert FreshConn(p.settings, d, o.jitter).peerBgpId == None by { FreshHasNoId(p.settings, d, o.jitter); }
    HandledKeepsId(FreshConn(p.settings, d, o.jitter), e, o.o1, o.o2);
  }

  lemma {:induction false} FreshHasNoId(s: Settings, d: Direction, jitter: Jitter)
    ensures FreshConn(s, d, jitter).peerBgpId == None
  {
  }

  lemma {:induction false} SelectedLeavesIff(p: PeerView, o: Oracle)
    requires ConnectionsBelong(p) && Orderly(p) && !CollisionLeft(p) && Lives(Selected(p, o).1)
    ensures CollisionLeft(Selected(p, o).0) <==> LoopOverlooks(PolledBy(p, o.turns))
  {
    hide PollLoop, HandledMain, Opened, Belongs, Due, Extends, Confirms, IsOpenEvent;
    PollingIsGood(p, o.turns);
    PollingKeepsCoherent(p, o.turns);
    PollLoopIsWatched(p.settings.myBgpId, p.fsm, Polling(p.connection, p.tracked, false, None), o.turns);
    var q := PolledBy(p, o.turns);
    var r := WithPolled(p, q);
    if q.next.Some? && q.next.value.MainEvent? {
      AskedChangesNothing(r, o);
      HandledMainEnds(Asked(r, o), q.next.value.event, o.o1, o.o2);
      HandledMainLeaves(Asked(r, o), q.next.value.event, o.o1, o.o2);
    } else if q.next.None? {
      OpenedLeavesNone(r.(mayConnect := false), Direction.Active, TcpConnectionRequestAcked, o);
    }
  }

  /** A live step leaves a collision behind exactly if it overlooks it. */
  lemma {:induction false} SteppedLeavesIff(p: PeerView, s: PeerStep)
    requires ConnectionsBelong(p) && Orderly(p) && !CollisionLeft(p) && Lives(Stepped(p, s).1)
    ensures CollisionLeft(Stepped(p, s).0) <==> Overlooks(p, s)
  {
    hide Selected, Opened, Orderly, Belongs, PollLoop, LoopOverlooks, OverlooksAt, Count;
    match s {
      case Tell(e) =>
      case Relay(k, ot, om) =>
      case Run(o) =>
        PoppedIsSame(p, o.turns);
        OpenedLeavesNone(Popped(p), Passive, TcpConnectionConfirmed, o);
        if p.waiting != [] {
          IgnoredIff(p, o);
        }
        if Ignores(p) {
          SelectedLeavesIff(Popped(p), o);
          LoopOverlooksIff(p, o.turns);
        }
    }
  }

  /** Along every live run no collision is left between calls, up to the end, if and only if no call overlooks one. */
  lemma {:induction false} NoCollisionLeftIff(s: Settings, steps: seq<PeerStep>)
    requires LiveRun(NewPeer(s), steps)
    ensures (forall k :: 0 <= k <= |steps| ==> !CollisionLeft(Played(NewPeer(s), steps[..k]))) <==>
            (forall k :: 0 <= k < |steps| ==> !Overlooks(Played(NewPeer(s), steps[..k]), steps[k]))
  {
    hide CollisionLeft, Overlooks, Played, LiveRun;
    var p := NewPeer(s);
    var good := (k: nat) => k <= |steps| && !CollisionLeft(Played(p, steps[..k]));
    var bad := (k: nat) => k < |steps| && Overlooks(Played(p, steps[..k]), steps[k]);
    assert steps[..0] == [] && Played(p, []) == p by { PlayedNothing(p); }
    assert !CollisionLeft(p) by { NewPeerHasNoCollision(s); }
    forall k: nat | k < |steps| && good(k) ensures good(k + 1) <==> !bad(k) {
      LeavesNext(s, steps, k);
    }
    ThroughoutIff(|steps|, good, bad);
    assert forall k: nat :: k <= |steps| ==> (good(k) <==> !CollisionLeft(Played(p, steps[..k])));
    assert forall k: nat :: k < |steps| ==> (bad(k) <==> Overlooks(Played(p, steps[..k]), steps[k]));
  }

  lemma {:induction false} NewPeerHasNoCollision(s: Settings)
    ensures !CollisionLeft(NewPeer(s))
  {
  }

  lemma {:induction false} LeavesNext(s: Settings, steps: seq<PeerStep>, k: nat)
    requires LiveRun(NewPeer(s), steps) && k < |steps| && !CollisionLeft(Played(NewPeer(s), steps[..k]))
    ensures CollisionLeft(Played(NewPeer(s), steps[..k + 1])) <==> Overlooks(Played(NewPeer(s), steps[..k]), steps[k])
  {
    hide Stepped, Orderly, ConnectionsBelong, CollisionLeft, Overlooks, Played, LiveRun;
    LivePrefix(NewPeer(s), steps, k + 1);
    PlayedNext(NewPeer(s), steps, k);
    PlayedBelong(s, steps[..k]);
    LiveRunsAreOrderly(s, steps[..k]);
    SteppedLeavesIff(Played(NewPeer(s), steps[..k]), steps[k]);
  }

  // ----- Every collision is resolved so

  /** Turn `k` finds a collision. */
  ghost predicate FindsAt(p: PeerView, turns: seq<Turn>, k: nat) {
    k < |turns| && PolledBy(p, turns[..k]).next.None? && Finds(p.fsm, PolledBy(p, turns[..k]), turns[k])
  }

  lemma {:induction false} FoundAt(p: PeerView, turns: seq<Turn>, k: nat)
    requires ConnectionsBelong(p) && FindsAt(p, turns, k)
    ensures var q := PolledBy(p, turns[..k]);
      PolledBy(p, turns) == Polling(Some(MainAfter(q, turns[k])), Some(TrackedAfter(q, turns[k])), false,
                                    Some(Collision(p.settings.myBgpId < MainIdAfter(q, turns[k]).value)))
  {
    hide Turned, PollLoop, MainAfter, TrackedAfter, ConnectionsBelong;
    var q := PolledBy(p, turns[..k]);
    PollingKeepsCoherent(p, turns[..k]);
    CreatedAlike(WithPolled(p, q));
    FindingTurn(p.settings.myBgpId, p.fsm, q, turns[k]);
    LoopEndsAt(p, turns, k);
  }

  /** The turns that make the loop find a collision. */
  lemma {:induction false} FoundIff(p: PeerView, turns: seq<Turn>)
    ensures FindsCollision(PolledBy(p, turns)) <==> exists k :: FindsAt(p, turns, k)
  {
    hide PollLoop, Turned, Finds;
    if FindsCollision(PolledBy(p, turns)) {
      var k := LoopHasLastTurn(p.settings.myBgpId, p.fsm, Unpolled(p), turns);
      NoticedIff(p.settings.myBgpId, p.fsm, PolledBy(p, turns[..k]), turns[k]);
      assert FindsAt(p, turns, k);
    }
    if k: nat :| FindsAt(p, turns, k) {
      NoticedIff(p.settings.myBgpId, p.fsm, PolledBy(p, turns[..k]), turns[k]);
      LoopEndsAt(p, turns, k);
    }
  }

  lemma {:induction false} SlotsStay(id: nat, fsm: Fsm, q: Polling, turns: seq<Turn>)
    ensures var r := PollLoop(id, fsm, q, turns); r.main.Some? == q.main.Some? && r.tracked.Some? == q.tracked.Some?
    decreases |turns|
  {
    hide Polled, Enabled, Collide, Handled;
    if turns != [] && q.next.None? {
      SlotsStay(id, fsm, Turned(id, fsm, q, turns[0]), turns[1..]);
    }
  }

  /** Every call that finds a collision, left over or not, does from some turn on what a call does that finds one in its
      first turn. */
  lemma {:induction false} EveryCollisionIsResolved(p: PeerView, o: Oracle) returns (k: nat)
    requires ConnectionsBelong(p) && Ignores(p) && FindsCollision(PolledBy(p, o.turns))
    ensures k < |o.turns|
    ensures var q, rest := WithPolled(p, PolledBy(p, o.turns[..k])), o.(turns := o.turns[k..]);
      ConnectionsBelong(q) && Resolves(q, rest) && Ran(p, o) == Ran(q, rest)
  {
    hide PollLoop, Ran, ConnectionsBelong, Finds, HandledMain, Promoted, Opened;
    FoundIff(p, o.turns);
    k :| FindsAt(p, o.turns, k);
    var q, rest := WithPolled(p, PolledBy(p, o.turns[..k])), o.(turns := o.turns[k..]);
    PollingKeepsCoherent(p, o.turns[..k]);
    SlotsStay(p.settings.myBgpId, p.fsm, Unpolled(p), o.turns[..k]);
    LoopSplits(p.settings.myBgpId, p.fsm, Unpolled(p), o.turns, k);
    assert PolledBy(p, o.turns[..k]) == Unpolled(q) by {
      FindingIsNotHidden(p.fsm, PolledBy(p, o.turns[..k]), o.turns[k]);
    }
    RanPolls(p, o);
    RanPolls(q, rest);
  }

  lemma {:induction false} FindingIsNotHidden(fsm: Fsm, q: Polling, t: Turn)
    requires Finds(fsm, q, t)
    ensures !q.hidden
  {
  }

  /** Turn `k` finds a collision, our identifier is the lower one, and the tracked connection is Connected or
      terminated. */
  ghost predicate Breaks(p: PeerView, turns: seq<Turn>, k: nat) {
    FindsAt(p, turns, k) &&
    var q := PolledBy(p, turns[..k]);
    p.settings.myBgpId < MainIdAfter(q, turns[k]).value && Named(TrackedAfter(q, turns[k]).state).None?
  }

  lemma {:induction false} PromotesUnfitIff(p: PeerView, turns: seq<Turn>)
    requires ConnectionsBelong(p)
    ensures PromotesUnfit(p, turns) <==> exists k :: Breaks(p, turns, k)
  {
    hide PollLoop, MainAfter, TrackedAfter, ConnectionsBelong, Finds;
    if PromotesUnfit(p, turns) {
      FoundIff(p, turns);
      var k :| FindsAt(p, turns, k);
      FoundAt(p, turns, k);
      assert Breaks(p, turns, k);
    }
    if k: nat :| Breaks(p, turns, k) {
      FoundAt(p, turns, k);
    }
  }

  /** A live run ends with an invalid transition exactly at a call that polls and has such a turn, whether the collision
      was left over or not. */
  lemma {:induction false} InvalidTransitionTurnIff(s: Settings, steps: seq<PeerStep>, step: PeerStep)
    requires LiveRun(NewPeer(s), steps)
    ensures var p := Played(NewPeer(s), steps);
      Stepped(p, step).1 == InvalidTransition <==>
        step.Run? && Ignores(p) && exists k :: Breaks(p, step.oracle.turns, k)
  {
    hide Stepped, Played, LiveRun, ConnectionsBelong, PromotesUnfit, Breaks, Ignores;
    InvalidTransitionIff(s, steps, step);
    PlayedBelong(s, steps);
    if step.Run? {
      PromotesUnfitIff(Played(NewPeer(s), steps), step.oracle.turns);
    }
  }

  // ----- A peer with one identifier

  ghost predicate KnowsOnly(c: Option<Conn>, x: nat) {
    c.Some? && c.value.peerBgpId.Some? ==> c.value.peerBgpId.value == x
  }

  /** Every OPEN among the turns carries the identifier `x`. */
  ghost predicate SayOnly(turns: seq<Turn>, x: nat) {
    forall i :: 0 <= i < |turns| && IsOpen(turns[i].input) ==> turns[i].input.message.open.bgpId == x
  }

  lemma {:induction false} TurnedKnowsOnly(id: nat, fsm: Fsm, q: Polling, t: Turn, x: nat)
    requires KnowsOnly(q.main, x) && KnowsOnly(q.tracked, x) && !q.hidden && SayOnly([t], x)
    ensures var r := Turned(id, fsm, q, t); KnowsOnly(r.main, x) && KnowsOnly(r.tracked, x) && !r.hidden
  {
    hide Polled, Handled, Enabled, Count;
    assert [t][0] == t;
    match t {
      case MainTurn(input, o) =>
        if q.main.Some? && Enabled(q.main.value, input) {
          PolledId(q.main.value, input);
        }
      case TrackedTurn(input, o1, o2) =>
        if q.tracked.Some? && Enabled(q.tracked.value, input) {
          DrivenId(q.tracked.value, input, o1, o2);
        }
    }
  }

  lemma {:induction false} PollLoopKnowsOnly(id: nat, fsm: Fsm, q: Polling, turns: seq<Turn>, x: nat)
    requires KnowsOnly(q.main, x) && KnowsOnly(q.tracked, x) && !q.hidden && SayOnly(turns, x)
    ensures var r := PollLoop(id, fsm, q, turns); KnowsOnly(r.main, x) && KnowsOnly(r.tracked, x) && !r.hidden
    decreases |turns|
  {
    hide Turned, KnowsOnly;
    if turns != [] && q.next.None? {
      assert SayOnly([turns[0]], x) && SayOnly(turns[1..], x);
      TurnedKnowsOnly(id, fsm, q, turns[0], x);
      PollLoopKnowsOnly(id, fsm, Turned(id, fsm, q, turns[0]), turns[1..], x);
    }
  }

  ghost predicate PeerKnowsOnly(p: PeerView, x: nat) {
    KnowsOnly(p.connection, x) && KnowsOnly(p.tracked, x)
  }

  lemma {:induction false} HandledMainKnowsOnly(p: PeerView, e: Event, o1: SendOutcome, o2: SendOutcome, x: nat)
    requires PeerKnowsOnly(p, x) && (p.connection.Some? ==> Due(p.connection.value, e))
    ensures PeerKnowsOnly(HandledMain(p, e, o1, o2).0, x)
  {
    hide Handled, Reacted, ArmedFor;
    if p.connection.Some? {
      var c := p.connection.value;
      var d := Handled(c, e, o1, o2).0;
      HandledKeepsId(c, e, o1, o2);
      ReactedKeepsConnections(p.(connection := Some(d)), c.state, d, e);
    }
  }

  lemma {:induction false} OpenedKnowsOnly(p: PeerView, d: Direction, e: Event, o: Oracle, x: nat)
    requires PeerKnowsOnly(p, x) && !ComesFromPolling(e)
    ensures PeerKnowsOnly(Opened(p, d, e, o).0, x)
  {
    hide Handled, FreshConn;
    FreshHasNoId(p.settings, d, o.jitter);
    HandledKeepsId(FreshConn(p.settings, d, o.jitter), e, o.o1, o.o2);
  }

  lemma {:induction false} HandledNextKnowsOnly(p: PeerView, n: NextEvent, o: Oracle, x: nat)
    requires PeerKnowsOnly(p, x) && (n.MainEvent? ==> p.connection.Some? && Due(p.connection.value, n.event))
    ensures PeerKnowsOnly(HandledNext(p, n, o).0, x)
  {
    hide HandledMain, Due;
    if n.MainEvent? {
      HandledMainKnowsOnly(p, n.event, o.o1, o.o2, x);
    }
  }

  lemma {:induction false} CompletedKnowsOnly(p: PeerView, o: Oracle, x: nat)
    requires PeerKnowsOnly(p, x)
    ensures PeerKnowsOnly(Completed(p, o).0, x)
  {
    hide Opened;
    OpenedKnowsOnly(p.(mayConnect := false), Direction.Active, TcpConnectionRequestAcked, o, x);
  }

  lemma {:induction false} SelectedKnowsOnly(p: PeerView, o: Oracle, x: nat)
    requires ConnectionsBelong(p) && PeerKnowsOnly(p, x) && SayOnly(o.turns, x)
    ensures PeerKnowsOnly(Selected(p, o).0, x) && !PolledBy(p, o.turns).hidden
  {
    hide PollLoop, HandledNext, Completed, Held, Due, Extends, SayOnly;
    PollingIsGood(p, o.turns);
    PollLoopKnowsOnly(p.settings.myBgpId, p.fsm, Polling(p.connection, p.tracked, false, None), o.turns, x);
    var q := PolledBy(p, o.turns);
    var r := WithPolled(p, q);
    if q.next.Some? {
      HandledNextKnowsOnly(Asked(r, o), q.next.value, o, x);
    } else {
      CompletedKnowsOnly(r, o, x);
    }
  }

  lemma {:induction false} SteppedKnowsOnly(p: PeerView, s: PeerStep, x: nat)
    requires ConnectionsBelong(p) && PeerKnowsOnly(p, x) && (s.Run? ==> SayOnly(s.oracle.turns, x))
    ensures PeerKnowsOnly(Stepped(p, s).0, x) && !Overlooks(p, s)
  {
    hide Selected, Administered, ConnectionsBelong, PollLoop, Count, SayOnly, OverlooksAt;
    if s.Run? {
      PoppedIsSame(p, s.oracle.turns);
      LoopOverlooksIff(p, s.oracle.turns);
      SelectedKnowsOnly(Popped(p), s.oracle, x);
      if p.waiting != [] {
        var (q, r) := Administered(Popped(p), p.waiting[|p.waiting| - 1], s.oracle);
        AdministeredKnowsOnly(Popped(p), p.waiting[|p.waiting| - 1], s.oracle, x);
        assert Ran(p, s.oracle).0 == if r.Some? then q else Selected(q, s.oracle).0;
      }
    }
  }

  lemma {:induction false} AdministeredKnowsOnly(p: PeerView, e: AdminEvent, o: Oracle, x: nat)
    requires PeerKnowsOnly(p, x)
    ensures var (q, r) := Administered(p, e, o); PeerKnowsOnly(q, x) && (r.None? ==> q == p)
  {
    hide Opened;
    OpenedKnowsOnly(p, Passive, TcpConnectionConfirmed, o, x);
  }

  lemma {:induction false} PlayedKnowsOnly(s: Settings, steps: seq<PeerStep>, x: nat)
    requires forall i :: 0 <= i < |steps| && steps[i].Run? ==> SayOnly(steps[i].oracle.turns, x)
    ensures PeerKnowsOnly(Played(NewPeer(s), steps), x)
  {
    hide Stepped, SayOnly, Overlooks, ConnectionsBelong;
    if steps != [] {
      var n := |steps| - 1;
      PlayedKnowsOnly(s, steps[..n], x);
      PlayedBelong(s, steps[..n]);
      SteppedKnowsOnly(Played(NewPeer(s), steps[..n]), steps[n], x);
    }
  }

  /** With a peer that announces one identifier, as every real one does, no live run ever leaves a collision between
      calls: each is resolved by the call that takes in the second OPEN. */
  lemma {:induction false} OneIdentifierLeavesNoCollision(s: Settings, steps: seq<PeerStep>, x: nat)
    requires LiveRun(NewPeer(s), steps)
    requires forall i :: 0 <= i < |steps| && steps[i].Run? ==> SayOnly(steps[i].oracle.turns, x)
    ensures forall k :: 0 <= k <= |steps| ==> !CollisionLeft(Played(NewPeer(s), steps[..k]))
  {
    hide CollisionLeft, Overlooks, Played, LiveRun, SayOnly, PeerKnowsOnly, ConnectionsBelong;
    forall k | 0 <= k < |steps| ensures !Overlooks(Played(NewPeer(s), steps[..k]), steps[k]) {
      PlayedKnowsOnly(s, steps[..k], x);
      PlayedBelong(s, steps[..k]);
      SteppedKnowsOnly(Played(NewPeer(s), steps[..k]), steps[k], x);
    }
    NoCollisionLeftIff(s, steps);
  }

  /** A peer that announces two identifiers can have a collision overlooked: its main connection announces another
      identifier than its tracked one, and then, in the same call, the same. */
  lemma {:induction false} CollisionIsOverlooked(p: PeerView, first: OpenMessage, second: OpenMessage, o: Oracle)
    requires p.waiting == [] && p.connection.Some? && p.tracked.Some? && p.tracked.value.peerBgpId == Some(second.bgpId)
    requires p.connection.value.state == ConnState.OpenSent && !p.connection.value.openDelayTimer
    requires first.bgpId != second.bgpId && AcceptsAs(p.connection.value, second) && o.o1 == Sent
    requires o.turns == [MainTurn(Incoming(Open(first)), Sent), MainTurn(Incoming(Open(second)), Sent)]
    ensures Ran(p, o).1 == Progress && CollisionLeft(Ran(p, o).0)
  {
    hide MyAsn4, Count, Negotiated, HandledMain, PollLoop;
    var id, fsm, q := p.settings.myBgpId, p.fsm, Polling(p.connection, p.tracked, false, None);
    var q1 := Turned(id, fsm, q, o.turns[0]);
    assert q1.hidden && q1.next.None? && q1.tracked.value.peerBgpId == Some(second.bgpId);
    assert q1.main.value.peerAsn == p.connection.value.peerAsn && q1.main.value.state == ConnState.OpenSent;
    LoopTakesTurn(id, fsm, q, o.turns);
    LoopEndsWith(id, fsm, q1, o.turns[1..]);
    var q2 := Turned(id, fsm, q1, o.turns[1]);
    assert q2.next == Some(MainEvent(BGPOpen(second))) && Unresolved(q2.main, q2.tracked);
    var r := Asked(WithPolled(p, q2), o);
    ConfirmingKeepsMain(r, second, o);
  }

  lemma {:induction false} ConfirmingKeepsMain(p: PeerView, open: OpenMessage, o: Oracle)
    requires p.connection.Some? && p.connection.value.state == ConnState.OpenSent && o.o1 == Sent
    ensures var (q, r) := HandledMain(p, BGPOpen(open), o.o1, o.o2);
      && r == Progress && q.tracked == p.tracked && q.fsm == Fsm.OpenConfirm
      && q.connection.Some? && q.connection.value.state == ConnState.OpenConfirm
      && q.connection.value.peerBgpId == Some(open.bgpId)
      && q.connection.value.direction == p.connection.value.direction
      && q.settings == p.settings && q.waiting == p.waiting
  {
    hide Count, Minimum, Jittered, MyAsn4;
  }
}
