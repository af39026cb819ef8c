/**
 The BMP actor with its connection tasks: subscriber snapshots broadcast over a bounded, lossy channel, and the book it
 keeps of its connections. Every step of the actor and of a task is one step of the service, in any order.
 */
module BmpActor {
  import opened Sequences

  const BROADCAST_CAPACITY: nat := 16
  const NOTICE_CAPACITY: nat := 1000

  /** Subscribers by identifier, each with its senders. */
  type Snapshot = map<nat, nat>

  /** A connection task: its copy of the subscribers and its position in the broadcast. An aborted task has been told to
      stop, but may still finish what it was doing. */
  datatype Task = Task(address: nat, current: Snapshot, next: nat, aborted: bool)

  datatype Service = Service(
    subscribers: Snapshot,
    nextSubscriber: nat,
    broadcast: seq<Snapshot>,
    tasks: map<nat, Task>,
    nextTask: nat,
    connections: map<nat, nat>,
    notices: seq<nat>,
    accepted: nat,
    closed: nat,
    stopped: bool)

  datatype Step =
    | Subscribe(senders: nat)
    | Unsubscribe(subscriber: nat)
    | Disconnect(address: nat)
    | Accept(address: nat)
    | HandleNotice
    | Shutdown
    | Receive(task: nat)
    | End(task: nat)
    | Vanish(task: nat)

  const IDLE := Service(map[], 0, [], map[], 0, map[], [], 0, 0, false)

  // ----- Steps on values

  /** A broadcast without receivers is not kept. */
  function Sent(s: Service, subscribers: Snapshot): Service {
    s.(subscribers := subscribers, broadcast := if s.tasks == map[] then s.broadcast else s.broadcast + [subscribers])
  }

  function Aborted(tasks: map<nat, Task>, ids: set<nat>): map<nat, Task> {
    map i | i in tasks :: if i in ids then tasks[i].(aborted := true) else tasks[i]
  }

  /** Removing a listed connection. */
  function Closed(s: Service, address: nat): Service {
    if address in s.connections then s.(connections := s.connections - {address}, closed := s.closed + 1) else s
  }

  /** Removing a listed connection and stopping its task. */
  function Dropped(s: Service, address: nat): Service {
    if address in s.connections then Closed(s, address).(tasks := Aborted(s.tasks, {s.connections[address]})) else s
  }

  function Accepted(s: Service, address: nat): Service {
    var t := Dropped(s, address);
    t.(tasks := t.tasks[t.nextTask := Task(address, t.subscribers, |t.broadcast|, false)],
       nextTask := t.nextTask + 1,
       connections := t.connections[address := t.nextTask],
       accepted := t.accepted + 1)
  }

  /** A receive takes the next snapshot, or skips what has been overwritten. */
  function Received(broadcast: seq<Snapshot>, t: Task): Task {
    if t.next >= |broadcast| then t
    else if |broadcast| - t.next > BROADCAST_CAPACITY then t.(next := |broadcast| - BROADCAST_CAPACITY)
    else t.(current := broadcast[t.next], next := t.next + 1)
  }

  /** A task ends by itself; its notice is lost if too many are waiting. */
  function Ended(s: Service, task: nat): Service
    requires task in s.tasks
  {
    s.(tasks := s.tasks - {task},
       notices := if s.stopped || |s.notices| >= NOTICE_CAPACITY
         then s.notices else s.notices + [s.tasks[task].address])
  }

  predicate ForActor(step: Step) {
    !step.Receive? && !step.End? && !step.Vanish?
  }

  function Stepped(s: Service, step: Step): Service {
    if ForActor(step) && s.stopped then s
    else
      match step
      case Subscribe(senders) =>
        Sent(s.(nextSubscriber := s.nextSubscriber + 1), s.subscribers[s.nextSubscriber := senders])
      case Unsubscribe(id) => Sent(s, s.subscribers - {id})
      case Disconnect(address) => Dropped(s, address)
      case Accept(address) => Accepted(s, address)
      case HandleNotice => if s.notices == [] then s else Closed(s.(notices := s.notices[1..]), s.notices[0])
      case Shutdown => s.(connections := map[], tasks := Aborted(s.tasks, s.connections.Values), stopped := true)
      case Receive(i) =>
        if i !in s.tasks || s.tasks[i].aborted then s
        else if s.stopped && s.tasks[i].next >= |s.broadcast| then Ended(s, i)
        else s.(tasks := s.tasks[i := Received(s.broadcast, s.tasks[i])])
      case End(i) => if i in s.tasks then Ended(s, i) else s
      case Vanish(i) => if i in s.tasks && s.tasks[i].aborted then s.(tasks := s.tasks - {i}) else s
  }

  function Played(steps: seq<Step>): Service {
    if steps == [] then IDLE else Stepped(Played(steps[..|steps| - 1]), steps[|steps| - 1])
  }

  // ----- Snapshots converge

  /** A task is up to date, or the newest broadcast it has not seen is. */
  ghost predicate Informed(s: Service, t: Task) {
    && t.next <= |s.broadcast|
    && s.subscribers == if t.next == |s.broadcast| then t.current else s.broadcast[|s.broadcast| - 1]
  }

  ghost predicate AllInformed(s: Service) {
    forall i :: i in s.tasks ==> Informed(s, s.tasks[i])
  }

  lemma {:induction false} SentKeepsInformed(s: Service, subscribers: Snapshot)
    requires AllInformed(s)
    ensures AllInformed(Sent(s, subscribers))
  {
  }

  lemma {:induction false} ReceivedIsInformed(s: Service, t: Task)
    requires Informed(s, t)
    ensures Informed(s, Received(s.broadcast, t))
  {
  }

  lemma {:induction false} SteppedKeepsInformed(s: Service, step: Step)
    requires AllInformed(s)
    ensures AllInformed(Stepped(s, step))
  {
    hide Received, Sent;
    match step {
      case Subscribe(senders) =>
        SentKeepsInformed(s.(nextSubscriber := s.nextSubscriber + 1), s.subscribers[s.nextSubscriber := senders]);
      case Unsubscribe(id) => SentKeepsInformed(s, s.subscribers - {id});
      case Receive(i) =>
        if i in s.tasks {
          ReceivedIsInformed(s, s.tasks[i]);
        }
      case _ =>
    }
  }

  lemma {:induction false} PlayedIsInformed(steps: seq<Step>)
    ensures AllInformed(Played(steps))
  {
    hide Stepped;
    if steps != [] {
      PlayedIsInformed(steps[..|steps| - 1]);
      SteppedKeepsInformed(Played(steps[..|steps| - 1]), steps[|steps| - 1]);
    }
  }

  /** Receiving `n` times. */
  ghost function ReceivedTimes(broadcast: seq<Snapshot>, t: Task, n: nat): Task {
    if n == 0 then t else Received(broadcast, ReceivedTimes(broadcast, t, n - 1))
  }

  ghost function Pending(broadcast: seq<Snapshot>, t: Task): nat {
    if t.next >= |broadcast| then 0
    else if |broadcast| - t.next > BROADCAST_CAPACITY then BROADCAST_CAPACITY + 1
    else |broadcast| - t.next
  }

  lemma {:induction false} ReceivingProgresses(s: Service, t: Task, n: nat)
    requires Informed(s, t)
    ensures var u := ReceivedTimes(s.broadcast, t, n);
      Informed(s, u)
        && Pending(s.broadcast, u) == if n >= Pending(s.broadcast, t) then 0 else Pending(s.broadcast, t) - n
  {
    if n > 0 {
      ReceivingProgresses(s, t, n - 1);
      ReceivedIsInformed(s, ReceivedTimes(s.broadcast, t, n - 1));
    }
  }

  /** In every reachable state, seventeen receives leave a task with the subscribers of the actor, whatever was
      overwritten in between. */
  lemma {:induction false} SnapshotsConverge(steps: seq<Step>, task: nat, n: nat)
    requires task in Played(steps).tasks && n >= 17
    ensures var s := Played(steps); ReceivedTimes(s.broadcast, s.tasks[task], n).current == s.subscribers
  {
    hide Played, Received;
    PlayedIsInformed(steps);
    var s := Played(steps);
    ReceivingProgresses(s, s.tasks[task], n);
  }

  // ----- Identifiers are never reused

  /** The identifiers handed out by a run, in order. */
  ghost function Issued(steps: seq<Step>): seq<nat> {
    if steps == [] then []
    else
      var n := |steps| - 1;
      var s := Played(steps[..n]);
      Issued(steps[..n]) + (if steps[n].Subscribe? && !s.stopped then [s.nextSubscriber] else [])
  }

  lemma {:induction false} IssuedAreBelowNext(steps: seq<Step>)
    ensures StrictlyAscending(Issued(steps))
    ensures forall i :: 0 <= i < |Issued(steps)| ==> Issued(steps)[i] < Played(steps).nextSubscriber
    ensures forall id: nat :: id in Played(steps).subscribers ==> id in Issued(steps)
  {
    if steps != [] {
      var n := |steps| - 1;
      IssuedAreBelowNext(steps[..n]);
      NextNeverFalls(Played(steps[..n]), steps[n]);
    }
  }

  lemma {:induction false} NextNeverFalls(s: Service, step: Step)
    ensures var t := Stepped(s, step);
      if step.Subscribe? && !s.stopped then
        t.nextSubscriber == s.nextSubscriber + 1 && t.subscribers == s.subscribers[s.nextSubscriber := step.senders]
      else t.nextSubscriber == s.nextSubscriber && t.subscribers.Keys <= s.subscribers.Keys
  {
  }

  /** Every run hands out identifiers in strictly increasing order, so none twice, and only identifiers it has handed
      out are subscribed. */
  lemma {:induction false} SubscribersAreNeverReused(steps: seq<Step>)
    ensures NoDuplicates(Issued(steps))
    ensures forall id: nat :: id in Played(steps).subscribers ==> id in Issued(steps)
  {
    IssuedAreBelowNext(steps);
  }

  // ----- The book of connections

  ghost predicate Balanced(s: Service) {
    !s.stopped ==> s.accepted == s.closed + |s.connections|
  }

  lemma {:induction false} RemovingOne(m: map<nat, nat>, k: nat)
    requires k in m
    ensures |m - {k}| == |m| - 1
  {
  }

  lemma {:induction false} ClosedKeepsBalance(s: Service, address: nat)
    requires Balanced(s)
    ensures Balanced(Closed(s, address)) && Balanced(Dropped(s, address))
    ensures address !in Closed(s, address).connections && address !in Dropped(s, address).connections
  {
  }

  lemma {:induction false} AcceptedKeepsBalance(s: Service, address: nat)
    requires Balanced(s)
    ensures Balanced(Accepted(s, address))
  {
  }

  lemma {:induction false} SteppedKeepsBalance(s: Service, step: Step)
    requires Balanced(s)
    ensures Balanced(Stepped(s, step))
  {
    hide Closed, Dropped, Accepted, Received, Aborted;
    match step {
      case Disconnect(address) => ClosedKeepsBalance(s, address);
      case Accept(address) => AcceptedKeepsBalance(s, address);
      case HandleNotice =>
        if s.notices != [] {
          ClosedKeepsBalance(s.(notices := s.notices[1..]), s.notices[0]);
        }
      case _ =>
    }
  }

  /** Until it is shut down, the actor has accepted as many connections as it has closed and still lists. */
  lemma {:induction false} ConnectionsAreAccounted(steps: seq<Step>)
    ensures var s := Played(steps); !s.stopped ==> s.accepted == s.closed + |s.connections|
  {
    hide Stepped;
    if steps != [] {
      ConnectionsAreAccounted(steps[..|steps| - 1]);
      SteppedKeepsBalance(Played(steps[..|steps| - 1]), steps[|steps| - 1]);
    }
  }

  // ----- Which tasks are listed

  /** Listed tasks belong to their address, and task numbers are not reused. */
  ghost predicate Numbered(s: Service) {
    && (forall i :: i in s.tasks ==> i < s.nextTask)
    && (forall a :: a in s.connections ==> s.connections[a] < s.nextTask)
    && (forall a :: a in s.connections && s.connections[a] in s.tasks ==>
          s.tasks[s.connections[a]].address == a && !s.tasks[s.connections[a]].aborted)
  }

  lemma {:induction false} SteppedKeepsNumbered(s: Service, step: Step)
    requires Numbered(s)
    ensures Numbered(Stepped(s, step))
  {
    hide Received;
    match step {
      case Receive(i) =>
        if i in s.tasks {
          ReceivedKeepsAddress(s.broadcast, s.tasks[i]);
        }
      case _ =>
    }
  }

  lemma {:induction false} ReceivedKeepsAddress(broadcast: seq<Snapshot>, t: Task)
    ensures Received(broadcast, t).address == t.address && Received(broadcast, t).aborted == t.aborted
  {
  }

  /** Every task that has not been told to stop is listed under its address, so it can be disconnected. */
  ghost predicate AllListed(s: Service) {
    forall i :: i in s.tasks && !s.tasks[i].aborted ==>
      s.tasks[i].address in s.connections && s.connections[s.tasks[i].address] == i
  }

  /** A notice is handled while another task, still running, is listed under its address. */
  ghost predicate StaleNotice(s: Service, step: Step) {
    && step.HandleNotice? && !s.stopped && s.notices != []
    && s.notices[0] in s.connections && s.connections[s.notices[0]] in s.tasks
  }

  /** All running tasks stay listed exactly as long as no notice strikes a task that is still running. */
  lemma {:induction false} ListedIffNoStaleNotice(s: Service, step: Step)
    requires Numbered(s) && AllListed(s)
    ensures AllListed(Stepped(s, step)) <==> !StaleNotice(s, step)
  {
    hide Received;
    match step {
      case Receive(i) =>
        if i in s.tasks {
          ReceivedKeepsAddress(s.broadcast, s.tasks[i]);
        }
      case HandleNotice =>
        if StaleNotice(s, step) {
          var i := s.connections[s.notices[0]];
          assert i in Stepped(s, step).tasks && !Stepped(s, step).tasks[i].aborted;
        }
      case _ =>
    }
  }

  lemma {:induction false} PlayedIsNumbered(steps: seq<Step>)
    ensures Numbered(Played(steps))
  {
    hide Stepped;
    if steps != [] {
      PlayedIsNumbered(steps[..|steps| - 1]);
      SteppedKeepsNumbered(Played(steps[..|steps| - 1]), steps[|steps| - 1]);
    }
  }

  ghost predicate ListedThroughout(steps: seq<Step>) {
    forall k :: 0 <= k <= |steps| ==> AllListed(Played(steps[..k]))
  }

  ghost predicate NoStaleNotice(steps: seq<Step>) {
    forall k :: 0 <= k < |steps| ==> !StaleNotice(Played(steps[..k]), steps[k])
  }

  lemma {:induction false} PlayedNext(steps: seq<Step>, k: nat)
    requires k < |steps|
    ensures Played(steps[..k + 1]) == Stepped(Played(steps[..k]), steps[k])
  {
    hide Stepped;
    assert steps[..k + 1][..k] == steps[..k];
  }

  /** Along every run, all running tasks are listed up to its end if and only if no stale notice is handled. */
  lemma {:induction false} ListedThroughoutIff(steps: seq<Step>)
    ensures ListedThroughout(steps) <==> NoStaleNotice(steps)
  {
    hide Stepped, AllListed, StaleNotice, Played;
    var good := (k: nat) => k <= |steps| && AllListed(Played(steps[..k]));
    var bad := (k: nat) => k < |steps| && StaleNotice(Played(steps[..k]), steps[k]);
    NothingRunsAtFirst();
    assert steps[..0] == [];
    forall k: nat | k < |steps| && good(k) ensures good(k + 1) <==> !bad(k) {
      PlayedNext(steps, k);
      PlayedIsNumbered(steps[..k]);
      ListedIffNoStaleNotice(Played(steps[..k]), steps[k]);
    }
    ThroughoutIff(|steps|, good, bad);
    assert forall k: nat :: k <= |steps| ==> (good(k) <==> AllListed(Played(steps[..k])));
    assert forall k: nat :: k < |steps| ==> (bad(k) <==> StaleNotice(Played(steps[..k]), steps[k]));
  }

  lemma {:induction false} NothingRunsAtFirst()
    ensures AllListed(Played([])) && Tidy(Played([]))
  {
  }

  /** A peer that reconnects while the task it replaces is just ending leaves a notice behind that removes the new task
      from the book: it goes on running, and disconnecting its address no longer stops it. */
  lemma {:induction false} ReconnectionCanBeForgotten(address: nat)
    ensures var s := Played([Accept(address), Accept(address), End(0), HandleNotice]);
      && 1 in s.tasks && s.tasks[1].address == address && !s.tasks[1].aborted
      && address !in s.connections && Stepped(s, Disconnect(address)) == s
  {
    PlayedFour(Accept(address), Accept(address), End(0), HandleNotice);
    var s1 := Stepped(IDLE, Accept(address));
    assert s1.connections == map[address := 0] && s1.tasks.Keys == {0};
    var s2 := Stepped(s1, Accept(address));
    assert s2.tasks[0].address == address && s2.connections == map[address := 1];
    var s3 := Stepped(s2, End(0));
    assert s3.notices == [address];
  }

  lemma {:induction false} PlayedFour(a: Step, b: Step, c: Step, d: Step)
    ensures Played([a, b, c, d]) == Stepped(Stepped(Stepped(Stepped(IDLE, a), b), c), d)
  {
    hide Stepped;
    assert [a, b, c, d][..3] == [a, b, c] && [a, b, c][..2] == [a, b] && [a, b][..1] == [a] && [a][..0] == [];
    assert Played([a]) == Stepped(IDLE, a);
    assert Played([a, b]) == Stepped(Played([a]), b);
    assert Played([a, b, c]) == Stepped(Played([a, b]), c);
  }

  // ----- Which listed tasks are gone

  /** A listed task is still running, or the notice of its end is on its way. */
  ghost predicate Tidy(s: Service) {
    !s.stopped ==> forall a :: a in s.connections ==> s.connections[a] in s.tasks || a in s.notices
  }

  /** A listed task ends while the channel for notices is full and holds none for its address. */
  ghost predicate LostNotice(s: Service, step: Step) {
    && step.End? && step.task in s.tasks && !s.stopped && |s.notices| >= 1000
    && s.tasks[step.task].address in s.connections && s.connections[s.tasks[step.task].address] == step.task
    && s.tasks[step.task].address !in s.notices
  }

  /** The book lists no ended task for good, exactly as long as no notice is lost. */
  lemma {:induction false} TidyIffNoLostNotice(s: Service, step: Step)
    requires Numbered(s) && Tidy(s)
    ensures Tidy(Stepped(s, step)) <==> !LostNotice(s, step)
  {
  }

  ghost predicate TidyThroughout(steps: seq<Step>) {
    forall k :: 0 <= k <= |steps| ==> Tidy(Played(steps[..k]))
  }

  ghost predicate NoLostNotice(steps: seq<Step>) {
    forall k :: 0 <= k < |steps| ==> !LostNotice(Played(steps[..k]), steps[k])
  }

  /** Along every run the book stays tidy up to its end if and only if no notice is lost. */
  lemma {:induction false} TidyThroughoutIff(steps: seq<Step>)
    ensures TidyThroughout(steps) <==> NoLostNotice(steps)
  {
    hide Stepped, Tidy, LostNotice, Played;
    var good := (k: nat) => k <= |steps| && Tidy(Played(steps[..k]));
    var bad := (k: nat) => k < |steps| && LostNotice(Played(steps[..k]), steps[k]);
    NothingRunsAtFirst();
    assert steps[..0] == [];
    forall k: nat | k < |steps| && good(k) ensures good(k + 1) <==> !bad(k) {
      PlayedNext(steps, k);
      PlayedIsNumbered(steps[..k]);
      TidyIffNoLostNotice(Played(steps[..k]), steps[k]);
    }
    ThroughoutIff(|steps|, good, bad);
    assert forall k: nat :: k <= |steps| ==> (good(k) <==> Tidy(Played(steps[..k])));
    assert forall k: nat :: k < |steps| ==> (bad(k) <==> LostNotice(Played(steps[..k]), steps[k]));
  }
}
