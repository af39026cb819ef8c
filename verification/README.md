# NetCalyx: verified models of its stateful cores

NetCalyx collects telemetry from routers. This project models, in Dafny, the four parts of it whose behaviour depends
most on history, and proves what holds over whole streams and whole runs.

* **Windowed aggregation** (`Window*.dfy`, `Reducers.dfy`). Flow records are grouped by key and minute in event time,
  late records are set aside, and windows are handed out as time moves on. The streaming machine is proved to compute
  the batch group-by that `WindowSpec` defines over the whole stream. `WindowAggregator` holds the aggregator and the
  iterator adaptor as objects; `Reducers` the reducers that accumulate record fields in place.
* **BGP peer** (`Bgp*.dfy`). One TCP connection (`BgpConnection`), the policy that builds OPENs (`BgpOpen`), and the peer
  that owns a main and a tracked connection and publishes a state (`BgpPeerSpec`, `BgpPeer`). `BgpConnectionTheory` and
  `BgpPeerTheory` prove what one step keeps, `BgpPeerTheorems`, `BgpPeerLaws`, `BgpCollision` and `BgpTracked` what holds
  over runs. `BgpConnectionLaws` and `BgpPeerCalls` say what each input and each call comes to, in terms of the input.
  `BgpReachable` shows that live runs come to the cases listed below.
* **BMP decoding** (`BmpFraming.dfy`, `BmpNegotiation.dfy`, `BmpContext.dfy`). Cutting a byte stream into messages,
  negotiating ADD-PATH and label limits from two OPENs, and remembering the result for each monitored peer.
* **BMP actor** (`BmpActor.dfy`, `BmpActorService.dfy`, `BmpActorLaws.dfy`). Subscriber snapshots broadcast to connection
  tasks over a bounded, lossy channel, and the actor's book of connections.

## How to read it

Code that updates fields is a class. Each of its methods is proved equal to a function on values, and the properties are
lemmas about those functions. Sockets, timers, write errors, the order of hash-map iteration and the interleaving of
tasks are parameters, so every theorem holds for all of them. A BGP write either succeeds, fails before the message is
counted, or fails after. A timer is armed with a period or not armed. One call of a peer's run loop is one step: a list
of turns of the polling loop, then whatever arm of the select completes. A run is a list of steps; it lives as long as no
step ends in an error, because the controller stops the peer at the first one. Two fields of a connection,
`openedFirst` and `unanswered`, are history that the program does not keep and that no decision depends on.

`dafny verify dfyconfig.toml` checks the project.

## Where the code departs from its documentation

The model follows the code. Each case names the lemmas that show it and say exactly when it happens.

* A window duration of zero lets a bucket be emitted twice (`WindowLaws.ZeroDurationEmitsTwice`,
  `WindowLaws.EmitsOnceIffPositiveDuration`).
* A start event can find a BGP peer idle but still holding a connection that waits for its delay timer. The retry timer
  then runs beside the connection and takes it away in OpenSent. All runs are free of this if and only if no open delay is
  configured (`BgpPeerLaws.AlwaysCoherentIffNoOpenDelay`).
* A failed outgoing connection attempt cancels the retry timer and is not repeated
  (`BgpPeerLaws.FailedConnectIsNotRetriedIff`).
* Collisions are resolved between main and tracked connection without regard to who opened them
  (`BgpCollision.SpeakersAgreeIff`). Creation times are never set, so with equal identifiers the tracked one is dropped
  (`BgpCollision.EqualIdentifiersAgreeIff`).
* A collision may choose a tracked connection that is already terminated; the call then fails
  (`BgpCollision.RefusedTrackedOpenStopsPeer`, `BgpReachable.RefusalIsReachable`,
  `BgpCollision.InvalidTransitionTurnIff`).
* A tracked connection is not dropped when it ends. Beside a main connection it keeps its place, and every incoming
  connection is refused (`BgpReachable.EndedIsReachable`, `BgpTracked.EndedIsHeldIff`).
* An OPEN of the main connection that completes a collision it wins is not acted upon, and the connection is lost
  (`BgpCollision.WinningOpenIsLost`, `BgpReachable.LossIsReachable`, `BgpCollision.WinnerIsConfirmedIff`).
* A peer that announces two identifiers can have a collision overlooked (`BgpReachable.OverlookingIsReachable`,
  `BgpCollision.NoCollisionLeftIff`).
* If our OPEN went out first, the large initial hold timer survives a negotiated hold time of zero
  (`BgpConnectionTheory.ZeroHoldTimeExpires`, `BgpConnectionTheory.HoldTimerRunsIff`).
* A write error on a tracked connection is ignored, so the keepalive timer of an OPEN that could not be answered
  survives a second OPEN without hold time (`BgpConnectionTheory.LostAnswerKeepsTimers`,
  `BgpReachable.LostAnswerIsReachable`, `BgpPeerTheorems.TimersRunIff`).
* A BMP Peer Down forgets a peer under its header only, not under the identifier it announced
  (`BmpContext.PeerDownForgetsIff`).
* A close notice of a replaced BMP connection removes the new one from the actor's book
  (`BmpActor.ListedIffNoStaleNotice`, `BmpActor.ReconnectionCanBeForgotten`).

## Model

| member | source | states |
|---|---|---|
| `WindowSpec.WindowStart` | crates/analytics/src/aggregation.rs:80-90 | the start of a minute is a multiple of a minute, at most the timestamp, and less than a minute before it |
| `WindowTheorems.StreamingRefinesBatch` | crates/analytics/src/aggregation.rs:125-289 | for every stream and positive duration, draining yields the batch late items, and each bucket of each key once with the fold of exactly its accepted items in arrival order, or not at all |
| `WindowTheorems.EveryInputOnce` | crates/analytics/src/aggregation.rs:125-289 | no window is emitted twice, and the inputs are, with multiplicity, the late items plus the items of the emitted windows |
| `WindowTheorems.LatenessIsPairwise` | crates/analytics/src/aggregation.rs:140-144 | the late items are exactly those that trail some earlier item of their key by more than the lateness; exactly the keys seen have a current time, the latest of all their timestamps |
| `WindowTheorems.KeysDoNotInterfere` | crates/analytics/src/aggregation.rs:136-187 | what one key gets out of an interleaved stream equals the run on its items alone |
| `WindowTheorems.EmittedWindowsAscend` | crates/analytics/src/aggregation.rs:155-187 | up to and including the closing flush the windows of a key come out in strictly ascending order of start |
| `WindowTheorems.EmittedBucketsStayClosed` | crates/analytics/src/aggregation.rs:140-163 | an accepted item never belongs to a bucket that has been emitted, including by its own step |
| `WindowLaws.StateIsBounded` | crates/analytics/src/aggregation.rs:144-163 | after every stream a key holds at most ceil(lateness) + ceil(duration) windows in minutes; each starts less than the duration before the minute of the current time less the lateness, and none after the minute of the current time |
| `WindowLaws.EmittedIffPast` | crates/analytics/src/aggregation.rs:155-163 | while any stream is processed, a bucket of a key has been emitted if and only if it has accepted items and some item of the key, less the lateness, lies in a minute that starts the duration or more after the bucket; and then with the fold of all its accepted items |
| `WindowLaws.StepEmitsIff` | crates/analytics/src/aggregation.rs:140-163 | with any duration, an accepted item emits exactly the windows of its key that are past by then, its own included, and leaves the others |
| `WindowLaws.ZeroDurationEmitsTwice` | crates/analytics/src/aggregation.rs:155-162 | with a duration of zero, a concrete stream for every lateness on which one bucket is emitted twice |
| `WindowLaws.EmitsOnceIffPositiveDuration` | crates/analytics/src/aggregation.rs:136-187 | each bucket is emitted at most once on every stream if and only if the duration is positive |
| `WindowLaws.FoldPermutes` | crates/analytics/src/aggregation.rs:71-76 | an aggregation whose pushes commute gives the same result on every permutation of its items |
| `WindowLaws.ArrivalOrderIsIrrelevant` | crates/analytics/src/aggregation.rs:144-187 | two arrival orders of the same items, neither with late items, give the same windows for a commuting aggregation |
| `WindowAggregator.Aggregator.constructor` | crates/analytics/src/aggregation.rs:116-124 | starts with no windows and no times |
| `WindowAggregator.Aggregator.SplitOff` | crates/analytics/src/aggregation.rs:157-162 | separates the windows that start at or before the cutoff from those above it, keeping their values |
| `WindowAggregator.Aggregator.ProcessItem` | crates/analytics/src/aggregation.rs:125-173 | the new state and the late items and windows handed out are those of one specification step |
| `WindowAggregator.Aggregator.Flush` | crates/analytics/src/aggregation.rs:177-187 | hands out the active windows of all keys, in some order of the keys, and forgets everything |
| `WindowAggregator.Adaptor.constructor` | crates/analytics/src/aggregation.rs:222-238 | starts with empty buffers and the whole source ahead |
| `WindowAggregator.Adaptor.GetNext` | crates/analytics/src/aggregation.rs:241-249 | pops late items before windows; delivered and buffered results together stay what was produced |
| `WindowAggregator.Adaptor.Next` | crates/analytics/src/aggregation.rs:262-288 | delivers one more result, or nothing once everything the whole stream produces has been delivered |
| `WindowAggregator.Adaptor.Collect` | crates/analytics/src/aggregation.rs:262-288 | draining the iterator yields the complete output of the stream for the order in which the keys were flushed |
| `Reducers.Cell.Accumulate` | crates/analytics/src/flow.rs:142-239 | in place, combines element by element, keeps the tail of the longer vector, and treats a missing vector as neutral |
| `Reducers.Cell.Set` | crates/analytics/src/flow.rs:100-120 | in place, overwrites with the vector or with the selected elements that exist; an empty selection clears the field, a missing vector leaves it only when indices are given |
| `Reducers.ReduceNum` | crates/analytics/src/flow.rs:40-53 | the numeric reducer: which operation is applied, and that only BoolMapOr is refused, leaving the field unchanged |
| `Reducers.ReduceBoolMap` | crates/analytics/src/flow.rs:55-68 | the bit-map reducer: which operation is applied, and that exactly Add, Min and Max are refused, leaving the field unchanged |
| `Reducers.NumOpsAreCommutative` | crates/analytics/src/flow.rs:142-216 | wrapping addition, minimum and maximum are commutative and associative at every width |
| `Reducers.BitOrIsCommutative` | crates/analytics/src/flow.rs:218-239 | bitwise or on 64-bit words is commutative and associative |
| `Reducers.MergesCommute` | crates/analytics/src/flow.rs:142-239 | accumulating two vectors gives the same in both orders |
| `Reducers.FoldIsColumnwise` | crates/analytics/src/flow.rs:142-239 | folding from nothing is present exactly if some vector is, has the maximum length, and each column reduces exactly the vectors that reach it |
| `Reducers.NumColumnIs` | crates/analytics/src/flow.rs:40-216 | each element of a reduced numeric field is the least, the greatest, or the sum modulo the width of its column |
| `Reducers.BoolMapColumnIs` | crates/analytics/src/flow.rs:55-239 | each element of a reduced bit map has exactly the bits that some element of its column has |
| `Reducers.KeysKeepLast` | crates/analytics/src/flow.rs:40-120 | a numeric key keeps the last vector, or what its indices select of the last vector that is present, unless that is nothing |
| `Reducers.BoolMapKeysKeepLast` | crates/analytics/src/flow.rs:55-120 | so does a key of bit maps |
| `Reducers.SelectIsExact` | crates/analytics/src/flow.rs:100-120 | indices that exist select their elements in order |
| `Reducers.SelectSkips` | crates/analytics/src/flow.rs:100-120 | an index that does not exist selects nothing and changes nothing else |
| `Reducers.MergeAllPermutes` | crates/analytics/src/flow.rs:142-239 | folding from nothing gives the same over every permutation of the vectors |
| `Reducers.FlowWindowsMergeFields` | crates/analytics/src/flow.rs:142-239 | for every stream, each window holds the fold of exactly the vectors of the accepted records of its bucket |
| `Reducers.FlowWindowsIgnoreOrder` | crates/analytics/src/flow.rs:142-239 | two arrival orders without late records give the same aggregated windows, for every commutative and associative operation |
| `Reducers.NumWindowsIgnoreOrder` | crates/analytics/src/flow.rs:40-53 | and so for Add, Min and Max at every width |
| `Reducers.BoolMapWindowsIgnoreOrder` | crates/analytics/src/flow.rs:55-68 | and so for BoolMapOr |
| `Reducers.NumReducerCommutesIff` | crates/analytics/src/flow.rs:40-53 | a numeric reducer is independent of order if and only if it is not a Key that keeps something |
| `Reducers.BoolMapReducerCommutesIff` | crates/analytics/src/flow.rs:55-68 | so is the bit-map reducer |
| `Reducers.SettingCommutesIff` | crates/analytics/src/flow.rs:100-120 | the Key operation is independent of order, on any element type with two values, if and only if its index list is empty |
| `BgpOpen.EchoPolicy.constructor` | crates/bgp-speaker/src/peer.rs:101-122 | starts without any learned capability or AS number |
| `BgpOpen.EchoPolicy.BuildOpen` | crates/bgp-speaker/src/peer.rs:142-182 | the OPEN of the policy: header AS, own capabilities, then the echoed ones |
| `BgpOpen.EchoPolicy.Learn` | crates/bgp-speaker/src/peer.rs:184-203 | remembers the AS number and the capabilities of a received OPEN except four-octet AS |
| `BgpOpen.CapabilitiesAreEchoedIff` | crates/bgp-speaker/src/peer.rs:142-203 | which capabilities the OPEN built after learning one carries, in both directions |
| `BgpOpen.OpenIsOurs` | crates/bgp-speaker/src/peer.rs:142-203 | whatever was learned, the OPEN that is built has the configured hold time and identifier, the local AS number or 23456, and at most one parameter, which begins with the AS number where it is needed and the configured capabilities; the AS number of the last OPEN is remembered |
| `BgpOpen.AsnRoundTripsIff` | crates/bgp-pkt/src/open.rs:92-115 | whatever OPENs were learned, the AS number read from a built OPEN is the local one if and only if the configured capabilities end with no other four-octet AS number |
| `BgpOpen.AnnouncedAsnIs` | crates/bgp-pkt/src/open.rs:92-115 | an OPEN announces the last four-octet AS number in the order of its parameters, or the two-octet one if there is none |
| `BgpConnection.Connection.constructor` | crates/bgp-speaker/src/connection.rs:327-365 | a new connection is Connected with no timer, no peer data and no messages |
| `BgpConnection.Connection.Send` | crates/bgp-speaker/src/connection.rs:1427-1465 | counts the message under its kind unless the send fails before it starts |
| `BgpConnection.Connection.ReadOpen` | crates/bgp-speaker/src/connection.rs:418-424 | stores AS number, identifier and hold time of an OPEN |
| `BgpConnection.Connection.SetNegotiatedTimers` | crates/bgp-speaker/src/connection.rs:426-446 | the smaller hold time, a third of it for keepalives, and zero if ours is zero |
| `BgpConnection.Connection.StartHoldTimer` | crates/bgp-speaker/src/connection.rs:448-459 | arms the hold timer with its large value unless that is zero |
| `BgpConnection.Connection.HandleEvent` | crates/bgp-speaker/src/connection.rs:461-494 | the new connection and the write error, for every state, event and write outcome; what that is in terms of the input, `BgpConnectionLaws.InputsAreAnswered` says |
| `BgpConnection.Connection.HandleConnected` | crates/bgp-speaker/src/connection.rs:496-601 | transitions from Connected |
| `BgpConnection.Connection.HandleOpenSent` | crates/bgp-speaker/src/connection.rs:603-697 | transitions from OpenSent |
| `BgpConnection.Connection.HandleOpenConfirm` | crates/bgp-speaker/src/connection.rs:699-795 | transitions from OpenConfirm |
| `BgpConnection.Connection.HandleEstablished` | crates/bgp-speaker/src/connection.rs:797-854 | transitions from Established |
| `BgpConnection.Connection.PollNext` | crates/bgp-speaker/src/connection.rs:1323-1411 | which event a tick, an error or a message becomes, what is counted, and that an OPEN leaves its identifier even if it is refused |
| `BgpConnectionTheory.PolledKeepsSound` | crates/bgp-speaker/src/connection.rs:1323-1411 | polling keeps the history invariant, and an OPEN or KEEPALIVE event is evidence of a counted message from the expected AS |
| `BgpConnectionTheory.HandledKeepsSound` | crates/bgp-speaker/src/connection.rs:461-854 | handling any event, even with write errors, keeps the history invariant (what has been sent, received and negotiated in each state), moves states only forward and never changes a known AS number |
| `BgpConnectionTheory.HandledKeepsArmed` | crates/bgp-speaker/src/connection.rs:496-697 | handling any event keeps the timers of every state as they should be, whatever writes fail |
| `BgpConnectionTheory.HistoryIsRemembered` | crates/bgp-speaker/src/connection.rs:496-697 | over every run, the two history fields of a connection say whether an answer to an OPEN with a positive hold time was lost, and whether our OPEN went out first |
| `BgpConnectionTheory.HoldTimerRunsIff` | crates/bgp-speaker/src/connection.rs:426-459 | over every run, write errors included: once confirmed the keepalive timer runs exactly if the hold time is positive or a positive one was announced in an OPEN whose answer was lost; the hold timer runs exactly in these cases or if our OPEN went out first and its large initial value is not zero |
| `BgpConnectionTheory.LostAnswerKeepsTimers` | crates/bgp-speaker/src/connection.rs:603-636 | an OPEN whose answer is lost and a second one without hold time give a confirmed session without hold time on which both timers run |
| `BgpReachable.LostAnswerIsReachable` | crates/bgp-speaker/src/peer.rs:1341-1374 | a live run of every active speaker with a hold time and no open delay comes to that on its tracked connection |
| `BgpConnectionTheory.ZeroHoldTimeExpires` | crates/bgp-speaker/src/connection.rs:603-636 | a session negotiated without hold time, by either side, is ended by the large initial hold timer |
| `BgpConnectionTheory.MessagesAreCounted` | crates/bgp-speaker/src/connection.rs:1323-1411 | over every run, write errors included, each message received is counted once, under its own kind |
| `BgpConnectionLaws.PolledEvent` | crates/bgp-speaker/src/connection.rs:1323-1411 | which inputs each event stands for, in both directions |
| `BgpConnectionLaws.InputsAreAnswered` | crates/bgp-speaker/src/connection.rs:461-854 | for every state, input and write outcome: the state that follows, how many messages of each kind are sent, and whether a failed write is reported, as tables over the input |
| `BgpConnectionLaws.MessagesAreSent` | crates/bgp-speaker/src/connection.rs:461-854 | over every run, write errors included, the messages counted as sent are exactly those its inputs are answered with: OPEN, answering KEEPALIVE, KEEPALIVE of a tick, NOTIFICATION |
| `BgpConnectionLaws.SessionsAreKeptUp` | crates/bgp-speaker/src/connection.rs:797-854 | a session stays up while its timer ticks and routine messages arrive, and every tick sends one KEEPALIVE |
| `BgpConnectionLaws.OpeningSends` | crates/bgp-speaker/src/connection.rs:496-560 | a connection that has just been opened has sent our OPEN, unless it waits for the delay timer, and nothing else |
| `BgpConnectionLaws.OpenSettles` | crates/bgp-speaker/src/connection.rs:418-446 | what an OPEN that is taken in settles: the data of the peer, the smaller hold time, and both timers |
| `BgpConnectionLaws.OpenStartsHoldTimer` | crates/bgp-speaker/src/connection.rs:448-459 | our OPEN starts the hold timer with the large value, unless that is zero |
| `BgpConnectionLaws.OthersSettleNothing` | crates/bgp-speaker/src/connection.rs:461-854 | no other input touches timers or what was agreed, but every OPEN leaves its identifier |
| `BgpPeer.Peer.constructor` | crates/bgp-speaker/src/peer.rs:577-600 | a new peer is administratively down, Idle and holds nothing |
| `BgpPeer.Peer.AddAdminEvent` | crates/bgp-speaker/src/peer.rs:1376-1378 | appends an administrative event; the last one is taken first |
| `BgpPeer.Peer.AddConnection` | crates/bgp-speaker/src/peer.rs:643-670 | becomes the main connection and publishes its state, or the tracked one |
| `BgpPeer.Peer.AcceptConnection` | crates/bgp-speaker/src/peer.rs:693-734 | when an incoming connection is refused, and how it is opened otherwise |
| `BgpPeer.Peer.Shutdown` | crates/bgp-speaker/src/peer.rs:796-822 | everything held is dropped |
| `BgpPeer.Peer.Start` | crates/bgp-speaker/src/peer.rs:824-840 | the state after a start, passive or active; a peer that is not Idle only becomes administratively up |
| `BgpPeer.Peer.HandleAdminEvent` | crates/bgp-speaker/src/peer.rs:1545-1597 | the effect of each administrative event, and when it is ignored |
| `BgpPeer.Peer.HandleActiveConnection` | crates/bgp-speaker/src/peer.rs:842-871 | the effect of an outgoing connection attempt that succeeds or fails |
| `BgpPeer.Peer.CheckCollision` | crates/bgp-speaker/src/peer.rs:1380-1425 | the collision decision over the two connection objects |
| `BgpPeer.Peer.TakeTurn` | crates/bgp-speaker/src/peer.rs:1341-1374 | one turn of the polling loop, in place on the two connection objects |
| `BgpPeer.Peer.NextConnectionEvent` | crates/bgp-speaker/src/peer.rs:1429-1492 | the loop over both connections: which event or collision it yields and how it leaves the connections |
| `BgpPeer.Peer.HandleConnectionEvent` | crates/bgp-speaker/src/peer.rs:908-1308 | the peer after an event of its main connection, including the error of an unexpected transition |
| `BgpPeer.Peer.HandleConnectEvent` | crates/bgp-speaker/src/peer.rs:1494-1541 | the peer after a collision or an event |
| `BgpPeer.Peer.SendBgpMessage` | crates/bgp-speaker/src/peer.rs:736-754 | a user message goes to both connections; a tracked one that cannot be written is dropped |
| `BgpPeer.Peer.Run` | crates/bgp-speaker/src/peer.rs:1543-1635 | one call of the run loop |
| `BgpPeerTheory.TablesAgree` | crates/bgp-speaker/src/peer.rs:908-1308 | a connection event leads to the invalid-transition error exactly for a terminated connection or a repeated TCP event past Connected |
| `BgpPeerTheory.TrackedIsNotEstablished` | crates/bgp-speaker/src/peer.rs:1338-1374 | a connection polled before it is confirmed cannot become established |
| `BgpPeerTheory.PollingIsGood` | crates/bgp-speaker/src/peer.rs:1429-1492 | over every sequence of turns the connections stay sound, the main one keeps its state, reported events have evidence, and collisions involve both |
| `BgpPeerTheory.SelectedKeeps` | crates/bgp-speaker/src/peer.rs:1597-1635 | a call keeps the invariants; it fails with an invalid transition if and only if its polling loop finds a collision that promotes a tracked connection that is Connected or terminated |
| `BgpPeerTheory.SteppedKeeps` | crates/bgp-speaker/src/peer.rs:1543-1635 | one step keeps all connections sound whatever happens; while it lives it leaves no terminated main connection and a stopped peer holds nothing; it keeps the published state in agreement if and only if it is not a start that finds an idle peer with a connection |
| `BgpPeerTheorems.LiveRunsAreOrderly` | crates/bgp-speaker/src/peer.rs:643-1635 | on every live run, stale starts included, no main connection is left terminated and a stopped peer holds nothing |
| `BgpPeerTheorems.InvalidTransitionIff` | crates/bgp-speaker/src/peer.rs:908-1308 | exactly which step ends a live run with an invalid transition: never an event of a main connection, only a collision that promotes an unfit tracked one |
| `BgpPeerTheorems.CoherentIffNoStaleStart` | crates/bgp-speaker/src/peer.rs:643-1635 | along every live run the main connection and the published state agree and no retry timer runs beside a connection, if and only if no stale start occurs |
| `BgpPeerTheorems.CoherentWithoutOpenDelay` | crates/bgp-speaker/src/peer.rs:643-1635 | without an open delay every run is coherent |
| `BgpPeerTheorems.EstablishedSessionsAreEarned` | crates/bgp-speaker/src/connection.rs:496-795 | in every run, whatever fails, a main connection in Established has both OPENs and both KEEPALIVEs in its history, the expected AS, the smaller hold time, and timers armed from it with a keepalive period between a quarter and a third of it; a tracked connection is never established |
| `BgpPeerTheorems.PublishedSessionsAreEarned` | crates/bgp-speaker/src/peer.rs:643-1635 | in every coherent run a published Established state stands for such a connection |
| `BgpPeerTheorems.TimersRunIff` | crates/bgp-speaker/src/connection.rs:426-459 | in every run, on every confirmed connection a peer holds, exactly which timers run |
| `BgpPeerTheorems.TimersRunIffAnswered` | crates/bgp-speaker/src/peer.rs:1341-1374 | in every live run in which no answer to an OPEN of a tracked connection is lost, the keepalive timer of a confirmed main connection runs exactly if the hold time is positive |
| `BgpPeerTheorems.OnlyKeepAliveEstablishes` | crates/bgp-speaker/src/peer.rs:1341-1374 | in every run Established is published only by a KEEPALIVE on a main connection in OpenConfirm |
| `BgpPeerTheorems.AsnIsEnforced` | crates/bgp-speaker/src/connection.rs:1208-1237 | in every run every connection of a strict peer is bound to the configured AS number |
| `BgpPeerTheorems.LossesAreHandled` | crates/bgp-speaker/src/peer.rs:999-1306 | when the main connection terminates it is dropped, and which losses are counted, which lead to Active with the retry timer and which to Idle |
| `BgpPeerCalls.TickRetries` | crates/bgp-speaker/src/peer.rs:1604-1624 | a tick of the retry timer takes the main connection away and stays armed; Active goes on to Connect, and exactly there a new attempt is allowed |
| `BgpPeerCalls.AttemptOpens` | crates/bgp-speaker/src/peer.rs:842-871 | an attempt that succeeds opens a connection of our own as main or tracked, one that fails stops the retry timer; the permission is used up |
| `BgpPeerCalls.PermissionIsUsed` | crates/bgp-speaker/src/peer.rs:1309-1336 | a call that begins an attempt uses the permission up, and without it no attempt completes |
| `BgpPeerCalls.LossWaitsForRetry` | crates/bgp-speaker/src/peer.rs:908-1060 | a transport lost before the OPENs are exchanged leaves the peer Active with its retry timer armed, and is not counted |
| `BgpPeerCalls.LossIsRetried` | crates/bgp-speaker/src/peer.rs:1543-1635 | after every such loss a tick and a successful attempt give a main connection that we opened, for passive peers too, whatever the tracked connection does |
| `BgpPeerCalls.MainInputIsHandled` | crates/bgp-speaker/src/peer.rs:908-1308 | what a call does with any input of the main connection: a reported write error ends it, a connection that ends is dropped, counted and retried, one that survives is kept and its state published |
| `BgpPeerCalls.TurnGoesOn` | crates/bgp-speaker/src/peer.rs:1429-1492 | what the other turns of the loop do; a connection that is set aside is sent a NOTIFICATION |
| `BgpPeerCalls.StartsWhenIdle` | crates/bgp-speaker/src/peer.rs:824-840 | what a start makes of an idle peer, passive or active |
| `BgpPeerCalls.StopsAlways` | crates/bgp-speaker/src/peer.rs:1543-1590 | a stop drops everything in every state and resets or increments the retry counter |
| `BgpPeerCalls.IncomingIsOpenedIff` | crates/bgp-speaker/src/peer.rs:691-734 | exactly when an incoming connection is opened, and as what |
| `BgpPeerCalls.StartedPeersConnect` | crates/bgp-speaker/src/peer.rs:824-871 | a started active peer gets a main connection by its first successful attempt |
| `BgpPeerCalls.MessagesAreRelayed` | crates/bgp-speaker/src/peer.rs:736-754 | a message of the user is counted on both connections; the tracked one is dropped, and the call fails, exactly if the respective write fails |
| `BgpCollision.NoticedIff` | crates/bgp-speaker/src/peer.rs:1380-1492 | a turn of the loop finds a collision exactly if something is polled and both connections have announced the same identifier after it; it sets the tracked connection aside exactly if they have announced different ones; else it ends the loop exactly if the main connection yields something. A tracked connection is polled only by a peer that is not connecting, and before it is confirmed |
| `BgpCollision.CollisionIsResolved` | crates/bgp-speaker/src/peer.rs:1494-1541 | which connection that call leaves: the main one for the higher or equal identifier, else the tracked one with its state published, unless it is Connected or terminated: then the call fails |
| `BgpCollision.TrackedIsFitIff` | crates/bgp-speaker/src/peer.rs:1341-1374 | exactly when a tracked connection that has taken in an OPEN can take over |
| `BgpCollision.EveryCollisionIsResolved` | crates/bgp-speaker/src/peer.rs:1429-1541 | every call that finds a collision, left over from an earlier call or not, does from some turn on what a call does that finds one in its first turn |
| `BgpCollision.PromotesUnfitIff` | crates/bgp-speaker/src/peer.rs:885-906 | the turns that make a call fail with an invalid transition: one that finds a collision with an identifier higher than ours while the tracked connection is Connected or terminated |
| `BgpCollision.InvalidTransitionTurnIff` | crates/bgp-speaker/src/peer.rs:885-906 | a live run ends with an invalid transition at a step if and only if it is a call that polls and has such a turn |
| `BgpCollision.SpeakersAgreeIff` | crates/bgp-speaker/src/peer.rs:1380-1425 | two speakers that take in each other's second OPEN go on with the same connection if and only if they have different ones as main and the tracked one of the lower speaker can take over; it is the one opened by the higher identifier if and only if each has its own as main |
| `BgpCollision.EqualIdentifiersAgreeIff` | crates/bgp-speaker/src/peer.rs:1411-1421 | with equal identifiers they agree if and only if they have the same connection as main |
| `BgpCollision.WinnerIsConfirmedIff` | crates/bgp-speaker/src/peer.rs:1429-1466 | with a peer of one identifier, the connection the higher speaker goes on with is confirmed if and only if it was confirmed before and the second OPEN came on the tracked connection |
| `BgpReachable.MeetingIsReachable` | crates/bgp-speaker/src/peer.rs:1380-1541 | every active speaker without open delay reaches such a collision in a live run, with its own connection as main and a fit tracked one |
| `BgpCollision.WinningOpenIsLost` | crates/bgp-speaker/src/peer.rs:1442-1466 | what is polled from the main connection when a collision is found that it wins is not acted upon: in OpenSent the connection stays there, and the next KEEPALIVE ends it |
| `BgpReachable.LossIsReachable` | crates/bgp-speaker/src/peer.rs:1442-1466 | every active speaker without open delay reaches, with every peer of a lower or equal identifier, a collision after which it loses the connection it keeps |
| `BgpCollision.SetAsideIff` | crates/bgp-speaker/src/peer.rs:1449-1492 | a tracked connection is set aside in a call exactly if some turn that polls leaves the two connections with different identifiers |
| `BgpCollision.LoopOverlooksIff` | crates/bgp-speaker/src/peer.rs:1429-1492 | the turns that make the loop overlook a collision: one sets the tracked connection aside, and a later one is an acceptable OPEN, of a main connection that waits for it, with the identifier of the tracked one |
| `BgpCollision.NoCollisionLeftIff` | crates/bgp-speaker/src/peer.rs:1429-1541 | along every live run no collision is left between calls if and only if no call that polls has two such turns |
| `BgpCollision.OneIdentifierLeavesNoCollision` | crates/bgp-speaker/src/peer.rs:1429-1541 | with a peer that announces one identifier no live run leaves a collision between calls |
| `BgpCollision.CollisionIsOverlooked` | crates/bgp-speaker/src/peer.rs:1449-1466 | a peer that announces two identifiers can have a collision overlooked |
| `BgpReachable.OverlookingIsReachable` | crates/bgp-speaker/src/peer.rs:1449-1466 | for every two identifiers a live run of an active speaker without open delay overlooks a collision |
| `BgpTracked.SteppedClearsIff` | crates/bgp-speaker/src/peer.rs:1338-1374 | a step takes a terminated tracked connection away if and only if it handles a stop, fails to relay a message to it, has a turn that finds a collision, or opens a connection of our own while the main one waits and no turn ends the loop |
| `BgpTracked.EndedIsHeldIff` | crates/bgp-speaker/src/peer.rs:1338-1374 | a peer holds a terminated tracked connection along a whole run if and only if it takes none of these steps, and beside a main connection it refuses every incoming one that long |
| `BgpReachable.EndedIsReachable` | crates/bgp-speaker/src/peer.rs:1338-1374 | every active speaker without open delay comes, in a live run, to hold a terminated tracked connection beside a main one |
| `BgpPeerLaws.StrandedUntilFreed` | crates/bgp-speaker/src/peer.rs:1543-1635 | after a failed attempt, a step leads away if and only if it handles a stop or opens an incoming connection |
| `BgpPeerLaws.FailedConnectIsNotRetriedIff` | crates/bgp-speaker/src/peer.rs:842-871 | after a failed attempt a peer stays in Connect without trying again, along every run, if and only if no step handles a stop or opens an incoming connection |
| `BgpCollision.RefusedTrackedOpenStopsPeer` | crates/bgp-speaker/src/peer.rs:885-906 | a tracked OPEN refused for its AS makes the call fail when it wins the collision |
| `BgpReachable.RefusalIsReachable` | crates/bgp-speaker/src/peer.rs:885-906 | a live run of every active speaker with a fixed peer AS and no open delay comes to that, with every peer of a higher identifier |
| `BgpPeerLaws.StaleStartLosesSession` | crates/bgp-speaker/src/peer.rs:1612-1624 | a stale start followed by the delay timer and a retry tick publishes OpenSent without a connection |
| `BgpPeerLaws.StaleStartIsReachable` | crates/bgp-speaker/src/peer.rs:824-840 | with every open delay some live run from a new peer reaches a stale start |
| `BgpPeerLaws.AlwaysCoherentIffNoOpenDelay` | crates/bgp-speaker/src/peer.rs:643-1635 | all runs of a peer are coherent if and only if it has no open delay |
| `BgpPeerLaws.PassivePeersWait` | crates/bgp-speaker/src/peer.rs:1543-1624 | until its retry timer first ticks a passive peer never connects: every connection it holds was opened by the other side |
| `BgpPeerLaws.StrictPeerAcceptsIff` | crates/bgp-speaker/src/connection.rs:1208-1237 | a strict peer accepts every OPEN a policy builds if and only if the configured capabilities end with no other four-octet AS number |
| `BmpFraming.Decoded` | crates/bmp-pkt/src/codec.rs:259-311 | a result consumes at least one byte, a call without one changes neither buffer nor context, and a begun message always has its header buffered |
| `BmpFraming.DecodedIff` | crates/bmp-pkt/src/codec.rs:259-311 | with all numbers written out: when nothing is decoded, when and at what cost version and length are errors, and which bytes are parsed |
| `BmpFraming.DecodedIgnoresWhatFollows` | crates/bmp-pkt/src/codec.rs:259-311 | a ready result and what it leaves are the same whatever bytes follow |
| `BmpFraming.InMessageIsRedundant` | crates/bmp-pkt/src/codec.rs:259-311 | noting that a message has begun never changes what is decoded |
| `BmpFraming.ChunksDoNotMatter` | crates/bmp-pkt/src/codec.rs:259-311 | any splitting of a byte stream gives the same items, leftover and context as one buffer |
| `BmpFraming.DrainedLeftover` | crates/bmp-pkt/src/codec.rs:259-311 | what is left after draining is less than a header or an incomplete message of a known version |
| `BmpFraming.FramesAreDecoded` | crates/bmp-pkt/src/codec.rs:259-311 | a stream of encoded frames of version 3 or 4 gives one result for each frame, in order, and leaves nothing; an unparsable body does not disturb the frames after it |
| `BmpFraming.Codec.Feed` | crates/bmp-pkt/src/codec.rs:259-261 | bytes arrive at the end of the buffer |
| `BmpFraming.Codec.Decode` | crates/bmp-pkt/src/codec.rs:259-311 | one call of the decoder, in place |
| `BmpFraming.Codec.Drain` | crates/bmp-pkt/src/codec.rs:259-311 | repeated decoding ends and yields all results |
| `BmpNegotiation.CollectSupport` | crates/bgp-pkt/src/wire/deserializer/mod.rs:159-172 | the families announced for each direction, over all entries |
| `BmpNegotiation.NegotiateMultipleLabels` | crates/bmp-pkt/src/codec.rs:117-139 | the label limits of two OPENs |
| `BmpNegotiation.AddPathNegotiatedIff` | crates/bmp-pkt/src/codec.rs:61-110 | over the parameters of the two OPENs: a family is sent with ADD-PATH exactly if some capability of ours offers to send it and some capability of the peer to receive it, and the other way round; on a Loc-RIB exactly if our OPEN mentions it |
| `BmpNegotiation.LabelsNegotiatedIff` | crates/bmp-pkt/src/codec.rs:61-139 | over the parameters of the two OPENs: a family has given limits exactly if the first entry of it in the first multiple-labels capability of each OPEN sets them |
| `BmpNegotiation.NegotiationIsMirrored` | crates/bmp-pkt/src/codec.rs:61-139 | exchanging the two OPENs exchanges the directions of everything negotiated |
| `BmpContext.ParsingContext.HandlePeerUp` | crates/bmp-pkt/src/codec.rs:152-213 | a Peer Up replaces what is known under both names of the peer, extends a Loc-RIB, and is ignored without two OPENs |
| `BmpContext.ParsingContext.Update` | crates/bmp-pkt/src/codec.rs:151-241 | the effect of every message on the context |
| `BmpContext.BroughtIff` | crates/bmp-pkt/src/codec.rs:61-213 | a Peer Up brings exactly what the parameters of its two OPENs announce |
| `BmpContext.SamePeerIff` | crates/bmp-pkt/src/codec.rs:151-241 | two headers name the same peer exactly if they agree in everything but the flags |
| `BmpContext.SameAliasIff` | crates/bmp-pkt/src/codec.rs:193-213 | the second name of a peer has the identifier of its OPEN |
| `BmpContext.KnownIffTold` | crates/bmp-pkt/src/codec.rs:151-241 | after any session a direction, family or limit is known of a peer exactly if the OPENs of some Peer Up announced it and nothing overrode it since |
| `BmpContext.ContextIsReplay` | crates/bmp-pkt/src/codec.rs:151-241 | after any session a peer that is no Loc-RIB is known by exactly what the last Peer Up naming it negotiated, or by nothing if it was removed since |
| `BmpContext.LocRibIsReplay` | crates/bmp-pkt/src/codec.rs:176-192 | a Loc-RIB is known by exactly what the Peer Ups since its last removal have said, later limits replacing earlier ones |
| `BmpContext.LocRibFamiliesGrow` | crates/bmp-pkt/src/codec.rs:176-192 | the families of a Loc-RIB only grow until it is removed |
| `BmpContext.PeerDownForgetsIff` | crates/bmp-pkt/src/codec.rs:196-222 | a Peer Down after a Peer Up leaves the peer behind under its announced identifier if and only if that is a different one |
| `BmpContext.StreamContextIsReplay` | crates/bmp-pkt/src/codec.rs:259-311 | for every cut of every byte stream into chunks, each peer that is no Loc-RIB is known at its end by the replay of the messages decoded from it |
| `BmpContext.StreamLocRibIsReplay` | crates/bmp-pkt/src/codec.rs:259-311 | and so is each Loc-RIB, for everything that can be known of it |
| `BmpContext.StreamKnowsIffTold` | crates/bmp-pkt/src/codec.rs:259-311 | the same at the end of every byte stream, however it is cut, for every peer |
| `BmpActorService.Actor.constructor` | crates/bmp-service/src/actor.rs:225-249 | an idle service |
| `BmpActorService.Actor.HandleSubscribe` | crates/bmp-service/src/actor.rs:400-443 | registers under the next identifier and broadcasts |
| `BmpActorService.Actor.HandleUnsubscribe` | crates/bmp-service/src/actor.rs:446-491 | removes, broadcasts, and reports whether the subscriber was there |
| `BmpActorService.Actor.HandleDisconnectPeer` | crates/bmp-service/src/actor.rs:495-548 | removes a listed connection, counts it and stops its task |
| `BmpActorService.Actor.HandleAccept` | crates/bmp-service/src/actor.rs:919-967 | replaces a listed connection of the same address and lists the new task |
| `BmpActorService.Actor.HandleConnectionClosed` | crates/bmp-service/src/actor.rs:878-915 | removes what is listed under the address of a notice |
| `BmpActorService.Actor.HandleShutdown` | crates/bmp-service/src/actor.rs:311-330 | stops every listed task |
| `BmpActorService.Actor.ReceiveUpdate` | crates/bmp-service/src/actor.rs:698-733 | takes the next snapshot or skips what was overwritten |
| `BmpActorService.Actor.EndTask` | crates/bmp-service/src/actor.rs:786-822 | a task that ends notifies the actor unless the channel is full or closed |
| `BmpActor.SnapshotsConverge` | crates/bmp-service/src/actor.rs:698-733 | in every reachable state a task holds the subscribers of the actor once it has received seventeen times, whatever it missed in between |
| `BmpActor.SubscribersAreNeverReused` | crates/bmp-service/src/actor.rs:400-443 | over every run no identifier is handed out twice, and only handed-out ones are subscribed |
| `BmpActorLaws.SubscribedIff` | crates/bmp-service/src/actor.rs:400-491 | over every run an identifier is subscribed, with its senders, exactly if it was handed out for them and not given up since |
| `BmpActorLaws.SnapshotsComeInOrder` | crates/bmp-service/src/actor.rs:698-733 | a task at most sixteen snapshots behind receives each in turn, one further behind the last sixteen |
| `BmpActorLaws.BroadcastIsLog` | crates/bmp-service/src/actor.rs:400-491 | what is broadcast is the subscribers after each change that some task can hear of |
| `BmpActor.ConnectionsAreAccounted` | crates/bmp-service/src/actor.rs:878-967 | before shutdown, accepted connections are the closed ones plus the listed ones |
| `BmpActorLaws.AcceptedAreCounted` | crates/bmp-service/src/actor.rs:919-967 | the actor stops with the first shutdown and counts every connection accepted until then |
| `BmpActorLaws.ListedIff` | crates/bmp-service/src/actor.rs:495-967 | over every run a task is listed under an address exactly if it was accepted from it and nothing has unlisted it since: a disconnect, another accept, a notice, the shutdown |
| `BmpActorLaws.StoppedIff` | crates/bmp-service/src/actor.rs:311-967 | a task has been told to stop exactly if it was listed when its address was disconnected or accepted again or the actor shut down |
| `BmpActorLaws.RunningIff` | crates/bmp-service/src/actor.rs:698-967 | a task is there exactly if it was accepted and has not ended, vanished, or found the actor gone |
| `BmpActorLaws.NoticesAreQueued` | crates/bmp-service/src/actor.rs:786-915 | the notices that wait are those left behind and not handled, oldest first; a thousand at most |
| `BmpActor.ListedIffNoStaleNotice` | crates/bmp-service/src/actor.rs:878-915 | a step keeps every running task listed under its address if and only if it handles no notice that strikes a running task |
| `BmpActor.ListedThroughoutIff` | crates/bmp-service/src/actor.rs:878-967 | along every run all running tasks are listed if and only if no such notice is handled |
| `BmpActor.ReconnectionCanBeForgotten` | crates/bmp-service/src/actor.rs:925-942 | a run after which a running task is not listed and cannot be disconnected |
| `BmpActor.TidyIffNoLostNotice` | crates/bmp-service/src/actor.rs:786-822 | a step keeps every listed task running or announced if and only if it loses no notice to a full channel |
| `BmpActor.TidyThroughoutIff` | crates/bmp-service/src/actor.rs:786-915 | along every run every listed task is running or announced if and only if no notice is lost |

## Left out

- Parsing and serialising of BGP, BMP, IPFIX and NetFlow messages: how a BMP body becomes a message is a parameter of the decoder.
- Sockets, clocks, `f32` rounding and random jitter: the jitter is any real number between 0.75 and 1.
- Overflow of timestamps: times are natural numbers of nanoseconds, and the panic of date arithmetic at the ends of its range is not modelled.
- Cancellation in the middle of a handler: a call of a handler is one step, and only the polling loop can be cut short.
- `handle_update_message` and the treatment of update errors: whether an UPDATE is acceptable is part of the input.
- The notification payloads, the recorded capabilities and the time stamps of connection statistics: nothing decided here depends on them.
- Policies other than the capability-echoing one, and the hooks they could use to rewrite events.
- The asynchronous stream adaptor of the window aggregator: it repeats the iterator adaptor over polled items.
- `reduce_misc` and `set_field_clone`: they are the Key operation of the modelled reducers.
- The AS width flag that BMP parsing sets in a context entry before each use, and the end-of-stream call of the decoder.
- Delivery of BMP messages to subscribers: sharding, timeouts and their counters.
- The supervisor, the listener, the flow and UDP-notif services, and all configuration and command-line code: each would only add easy members.
- BmpActor.SubscribersAreNeverReused: identifiers are natural numbers; wrap-around after 2^32 subscriptions is not modelled.
- BmpActor.SnapshotsConverge: stated for a task that keeps receiving; how soon a task is scheduled to receive is not modelled.
- BmpActorService.Actor.HandleAccept: an aborted task is still allowed to end or vanish later, but not to receive.
- BgpPeerLaws.StaleStartIsReachable: shows a run for every configuration with an open delay, not every such run.
