/** What the state of the BMP actor says about the past of a run: who is subscribed, which tasks are listed, told to
    stop or gone, and how many connections were accepted. */
module BmpActorLaws {
  import opened Sequences
  import opened BmpActor

  /** The service before step `k` of a run. */
  ghost function Before(steps: seq<Step>, k: nat): Service
    requires k <= |steps|
  {
    Played(steps[..k])
  }

  // ----- Subscribers

  /** Step `k` subscribes the senders under identifier `id`. */
  ghost predicate Subscribes(steps: seq<Step>, k: nat, id: nat, senders: nat) {
    && k < |steps| && !Before(steps, k).stopped
    && steps[k] == Subscribe(senders) && Before(steps, k).nextSubscriber == id
  }

  ghost predicate Unsubscribes(steps: seq<Step>, k: nat, id: nat) {
    k < |steps| && !Before(steps, k).stopped && steps[k] == Unsubscribe(id)
  }

  ghost predicate IsFreshId(s: Service) {
    forall id :: id in s.subscribers ==> id < s.nextSubscriber
  }

  lemma {:induction false} SteppedSubscribers(s: Service, step: Step, id: nat, senders: nat)
    requires IsFreshId(s)
    ensures IsFreshId(Stepped(s, step))
    ensures var t := Stepped(s, step).subscribers;
      id in t && t[id] == senders <==>
        || (!s.stopped && step == Subscribe(senders) && s.nextSubscriber == id)
        || (id in s.subscribers && s.subscribers[id] == senders && !(!s.stopped && step == Unsubscribe(id)))
  {
    hide Received, Aborted;
  }

  lemma {:induction false} IdsAreFresh(steps: seq<Step>)
    ensures IsFreshId(Played(steps))
  {
    hide Stepped, IsFreshId;
    if steps == [] {
      assert IsFreshId(IDLE) by { NothingAtFirst(); }
    } else {
      IdsAreFresh(steps[..|steps| - 1]);
      SteppedSubscribers(Played(steps[..|steps| - 1]), steps[|steps| - 1], 0, 0);
    }
  }

  lemma {:induction false} NothingAtFirst()
    ensures IsFreshId(IDLE) && IDLE.subscribers == map[] && IDLE.connections == map[] && IDLE.tasks == map[]
    ensures Played([]) == IDLE && IDLE.accepted == 0 && !IDLE.stopped
  {
  }

  /** An identifier is subscribed, with its senders, exactly if it was handed out for them and has not been given up
      since. */
  lemma {:induction false} SubscribedIff(steps: seq<Step>, id: nat, senders: nat)
    ensures var subscribers := Played(steps).subscribers;
      id in subscribers && subscribers[id] == senders <==>
        exists i: nat ::
          Subscribes(steps, i, id, senders) && forall j: nat :: i < j < |steps| ==> !Unsubscribes(steps, j, id)
  {
    hide Stepped, Played, IsFreshId;
    var has := (k: nat) =>
      k <= |steps| && var m := Before(steps, k).subscribers; id in m && m[id] == senders;
    var gives := (k: nat) => Subscribes(steps, k, id, senders);
    var takes := (k: nat) => Unsubscribes(steps, k, id);
    NothingAtFirst();
    assert steps[..0] == [] && steps[..|steps|] == steps;
    forall k: nat | k < |steps| ensures has(k + 1) <==> gives(k) || (has(k) && !takes(k)) {
      PlayedNext(steps, k);
      IdsAreFresh(steps[..k]);
      SteppedSubscribers(Before(steps, k), steps[k], id, senders);
    }
    SinceIff(|steps|, has, gives, takes);
    assert forall k: nat :: gives(k) <==> Subscribes(steps, k, id, senders);
    assert forall k: nat :: takes(k) <==> Unsubscribes(steps, k, id);
  }

  // ----- Listed tasks

  /** Step `k` accepts a connection from `address`, which task `task` serves. */
  ghost predicate Accepts(steps: seq<Step>, k: nat, address: nat, task: nat) {
    && k < |steps| && !Before(steps, k).stopped
    && steps[k] == Accept(address) && Before(steps, k).nextTask == task
  }

  /** A step that takes whatever is listed under an address out of the book. */
  ghost predicate Unlists(s: Service, step: Step, address: nat) {
    !s.stopped &&
    (|| step == Disconnect(address) || step == Accept(address) || step == Shutdown
     || (step == HandleNotice && s.notices != [] && s.notices[0] == address))
  }

  lemma {:induction false} SteppedConnections(s: Service, step: Step, address: nat, task: nat)
    ensures var t := Stepped(s, step).connections;
      address in t && t[address] == task <==>
        || (!s.stopped && step == Accept(address) && s.nextTask == task)
        || (address in s.connections && s.connections[address] == task && !Unlists(s, step, address))
  {
    hide Received, Aborted;
  }

  /** A task is listed under an address exactly if it was accepted from it and since then the address has not been
      disconnected, accepted again or named by a notice, nor the actor shut down. */
  lemma {:induction false} ListedIff(steps: seq<Step>, address: nat, task: nat)
    ensures var connections := Played(steps).connections;
      address in connections && connections[address] == task <==>
        exists i: nat ::
          Accepts(steps, i, address, task) &&
          forall j: nat :: i < j < |steps| ==> !Unlists(Before(steps, j), steps[j], address)
  {
    hide Stepped, Played, Unlists;
    var has := (k: nat) =>
      k <= |steps| && var m := Before(steps, k).connections; address in m && m[address] == task;
    var gives := (k: nat) => Accepts(steps, k, address, task);
    var takes := (k: nat) => k < |steps| && Unlists(Before(steps, k), steps[k], address);
    NothingAtFirst();
    assert steps[..0] == [] && steps[..|steps|] == steps;
    forall k: nat | k < |steps| ensures has(k + 1) <==> gives(k) || (has(k) && !takes(k)) {
      PlayedNext(steps, k);
      SteppedConnections(Before(steps, k), steps[k], address, task);
    }
    SinceIff(|steps|, has, gives, takes);
    assert forall k: nat :: gives(k) <==> Accepts(steps, k, address, task);
    assert forall k: nat :: k < |steps| ==> (takes(k) <==> Unlists(Before(steps, k), steps[k], address));
  }

  // ----- Tasks told to stop

  /** A step that tells the task to stop: its address is disconnected or accepted again, or the actor is shut down,
      while the task is listed. */
  ghost predicate Stops(s: Service, step: Step, task: nat) {
    task in s.tasks && !s.stopped &&
    (|| (step.Disconnect? && step.address in s.connections && s.connections[step.address] == task)
     || (step.Accept? && step.address in s.connections && s.connections[step.address] == task)
     || (step == Shutdown && task in s.connections.Values))
  }

  /** A step after which the task is gone: it ends, it vanishes after it was told to stop, or it finds that the actor
      has been shut down and nothing is left to receive. */
  ghost predicate Leaves(s: Service, step: Step, task: nat) {
    task in s.tasks &&
    (|| step == End(task)
     || (step == Vanish(task) && s.tasks[task].aborted)
     || (step == Receive(task) && !s.tasks[task].aborted && s.stopped && s.tasks[task].next >= |s.broadcast|))
  }

  lemma {:induction false} SteppedTasks(s: Service, step: Step, task: nat)
    requires Numbered(s)
    ensures var t := Stepped(s, step);
      && (task in t.tasks <==>
            || (!s.stopped && step.Accept? && s.nextTask == task) || (task in s.tasks && !Leaves(s, step, task)))
      && (task in t.tasks && t.tasks[task].aborted <==>
            Stops(s, step, task) || (task in s.tasks && s.tasks[task].aborted && !Leaves(s, step, task)))
  {
    hide Received;
    if step.Receive? && step.task in s.tasks {
      ReceivedKeepsAddress(s.broadcast, s.tasks[step.task]);
    }
  }

  /** A task is there exactly if it was accepted and has not left since. */
  lemma {:induction false} RunningIff(steps: seq<Step>, task: nat)
    ensures task in Played(steps).tasks <==>
      exists i: nat ::
        && i < |steps| && steps[i].Accept? && !Before(steps, i).stopped && Before(steps, i).nextTask == task
        && forall j: nat :: i < j < |steps| ==> !Leaves(Before(steps, j), steps[j], task)
  {
    hide Stepped, Played, Leaves, Numbered;
    var has := (k: nat) => k <= |steps| && task in Before(steps, k).tasks;
    var gives := (k: nat) =>
      k < |steps| && steps[k].Accept? && !Before(steps, k).stopped && Before(steps, k).nextTask == task;
    var takes := (k: nat) => k < |steps| && Leaves(Before(steps, k), steps[k], task);
    NothingAtFirst();
    assert steps[..0] == [] && steps[..|steps|] == steps;
    forall k: nat | k < |steps| ensures has(k + 1) <==> gives(k) || (has(k) && !takes(k)) {
      PlayedNext(steps, k);
      PlayedIsNumbered(steps[..k]);
      SteppedTasks(Before(steps, k), steps[k], task);
    }
    SinceIff(|steps|, has, gives, takes);
    assert forall k: nat :: k < |steps| ==> (takes(k) <==> Leaves(Before(steps, k), steps[k], task));
    assert forall k: nat :: gives(k) <==>
      k < |steps| && steps[k].Accept? && !Before(steps, k).stopped && Before(steps, k).nextTask == task;
  }

  /** A task that is there has been told to stop exactly if some step did so. */
  lemma {:induction false} StoppedIff(steps: seq<Step>, task: nat)
    ensures task in Played(steps).tasks && Played(steps).tasks[task].aborted <==>
      exists i: nat ::
        && i < |steps| && Stops(Before(steps, i), steps[i], task)
        && forall j: nat :: i < j < |steps| ==> !Leaves(Before(steps, j), steps[j], task)
  {
    hide Stepped, Played, Leaves, Stops, Numbered;
    var has := (k: nat) => k <= |steps| && var m := Before(steps, k).tasks; task in m && m[task].aborted;
    var gives := (k: nat) => k < |steps| && Stops(Before(steps, k), steps[k], task);
    var takes := (k: nat) => k < |steps| && Leaves(Before(steps, k), steps[k], task);
    NothingAtFirst();
    assert steps[..0] == [] && steps[..|steps|] == steps;
    forall k: nat | k < |steps| ensures has(k + 1) <==> gives(k) || (has(k) && !takes(k)) {
      PlayedNext(steps, k);
      PlayedIsNumbered(steps[..k]);
      SteppedTasks(Before(steps, k), steps[k], task);
    }
    SinceIff(|steps|, has, gives, takes);
    assert forall k: nat :: k < |steps| ==> (takes(k) <==> Leaves(Before(steps, k), steps[k], task));
    assert forall k: nat :: gives(k) <==> k < |steps| && Stops(Before(steps, k), steps[k], task);
  }

  // ----- Counting

  ghost function AcceptedIn(steps: seq<Step>): nat {
    if steps == [] then 0
    else
      var n := |steps| - 1;
      AcceptedIn(steps[..n]) + if steps[n].Accept? && Shutdown !in steps[..n] then 1 else 0
  }

  /** The actor stops with the first shutdown, and until then counts every connection it accepts. */
  lemma {:induction false} AcceptedAreCounted(steps: seq<Step>)
    ensures Played(steps).stopped <==> Shutdown in steps
    ensures Played(steps).accepted == AcceptedIn(steps)
  {
    hide Stepped;
    if steps != [] {
      var n := |steps| - 1;
      AcceptedAreCounted(steps[..n]);
      SteppedCounts(Played(steps[..n]), steps[n]);
      assert steps == steps[..n] + [steps[n]];
    }
  }

  lemma {:induction false} SteppedCounts(s: Service, step: Step)
    ensures Stepped(s, step).stopped <==> s.stopped || step == Shutdown
    ensures Stepped(s, step).accepted == s.accepted + if step.Accept? && !s.stopped then 1 else 0
  {
    hide Received, Aborted;
  }

  // ----- Notices and snapshots come in order

  /** The notice a step leaves behind: of a task that ends before the shutdown while fewer than a thousand wait. */
  ghost function NoticeOf(s: Service, step: Step): seq<nat> {
    if step.End? && step.task in s.tasks && !s.stopped && |s.notices| < 1000 then [s.tasks[step.task].address] else []
  }

  ghost predicate Handles(s: Service, step: Step) {
    step == HandleNotice && !s.stopped && s.notices != []
  }

  ghost function NoticesIn(steps: seq<Step>): seq<nat> {
    if steps == [] then []
    else
      var n := |steps| - 1;
      NoticesIn(steps[..n]) + NoticeOf(Played(steps[..n]), steps[n])
  }

  ghost function HandledIn(steps: seq<Step>): nat {
    if steps == [] then 0
    else
      var n := |steps| - 1;
      HandledIn(steps[..n]) + if Handles(Played(steps[..n]), steps[n]) then 1 else 0
  }

  lemma {:induction false} SteppedNotices(s: Service, step: Step)
    ensures Stepped(s, step).notices == if Handles(s, step) then s.notices[1..] else s.notices + NoticeOf(s, step)
  {
    hide Received, Aborted;
  }

  /** The notices that wait are those left behind and not handled yet, oldest first. */
  lemma {:induction false} NoticesAreQueued(steps: seq<Step>)
    ensures HandledIn(steps) <= |NoticesIn(steps)|
    ensures Played(steps).notices == NoticesIn(steps)[HandledIn(steps)..]
  {
    hide Stepped;
    if steps != [] {
      var n := |steps| - 1;
      NoticesAreQueued(steps[..n]);
      SteppedNotices(Played(steps[..n]), steps[n]);
    }
  }

  /** A step that changes the subscribers while some task is there to hear of it. */
  ghost predicate Publishes(s: Service, step: Step) {
    (step.Subscribe? || step.Unsubscribe?) && !s.stopped && s.tasks != map[]
  }

  ghost function PublishedIn(steps: seq<Step>): seq<Snapshot> {
    if steps == [] then []
    else
      var n := |steps| - 1;
      PublishedIn(steps[..n]) + if Publishes(Played(steps[..n]), steps[n]) then [Played(steps).subscribers] else []
  }

  lemma {:induction false} SteppedBroadcast(s: Service, step: Step)
    ensures var t := Stepped(s, step);
      t.broadcast == s.broadcast + if Publishes(s, step) then [t.subscribers] else []
  {
    hide Received, Aborted;
  }

  /** What is broadcast is the subscribers after each such step, in order. */
  lemma {:induction false} BroadcastIsLog(steps: seq<Step>)
    ensures Played(steps).broadcast == PublishedIn(steps)
  {
    hide Stepped;
    if steps != [] {
      var n := |steps| - 1;
      BroadcastIsLog(steps[..n]);
      SteppedBroadcast(Played(steps[..n]), steps[n]);
    }
  }

  /** A task that is at most sixteen snapshots behind receives each of them in turn; one that is further behind first
      finds that out, and then receives the last sixteen. */
  lemma {:induction false} SnapshotsComeInOrder(broadcast: seq<Snapshot>, t: Task, n: nat)
    requires t.next < |broadcast| && 0 < n
    ensures var behind := |broadcast| - t.next;
      && (behind <= 16 && n <= behind ==>
            && ReceivedTimes(broadcast, t, n).current == broadcast[t.next + n - 1]
            && ReceivedTimes(broadcast, t, n).next == t.next + n)
      && (behind > 16 && n <= 16 ==>
            && ReceivedTimes(broadcast, t, n + 1).current == broadcast[|broadcast| - 17 + n]
            && ReceivedTimes(broadcast, t, n + 1).next == |broadcast| - 16 + n)
  {
    if n == 1 {
      assert ReceivedTimes(broadcast, t, 0) == t;
      assert ReceivedTimes(broadcast, t, 1) == Received(broadcast, t);
      assert ReceivedTimes(broadcast, t, 2) == Received(broadcast, Received(broadcast, t));
    } else {
      SnapshotsComeInOrder(broadcast, t, n - 1);
    }
  }
}
