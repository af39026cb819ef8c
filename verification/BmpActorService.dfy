/** The BMP actor and its tasks in place; every method is proved against the step it is. */
module BmpActorService {
  import opened Sequences
  import opened BmpActor

  class Actor {
    var subscribers: Snapshot
    var nextSubscriber: nat
    var broadcast: seq<Snapshot>
    var tasks: map<nat, Task>
    var nextTask: nat
    var connections: map<nat, nat>
    var notices: seq<nat>
    var accepted: nat
    var closed: nat
    var stopped: bool

    ghost function View(): Service
      reads this
    {
      Service(subscribers, nextSubscriber, broadcast, tasks, nextTask, connections, notices, accepted, closed, stopped)
    }

    constructor ()
      ensures View() == IDLE
    {
      subscribers, nextSubscriber, broadcast := map[], 0, [];
      tasks, nextTask, connections, notices := map[], 0, map[], [];
      accepted, closed, stopped := 0, 0, false;
    }

    method Broadcast()
      modifies this`broadcast
      ensures View() == Sent(old(View()), subscribers)
    {
      if |tasks| != 0 {
        broadcast := broadcast + [subscribers];
      }
    }

    /** Registers a subscriber under the next identifier and tells all tasks. */
    method HandleSubscribe(senders: nat) returns (id: nat)
      requires !stopped
      modifies this
      ensures View() == Stepped(old(View()), Subscribe(senders)) && id == old(nextSubscriber)
    {
      id := nextSubscriber;
      nextSubscriber := nextSubscriber + 1;
      subscribers := subscribers[id := senders];
      Broadcast();
    }

    method HandleUnsubscribe(id: nat) returns (removed: Option<nat>)
      requires !stopped
      modifies this
      ensures View() == Stepped(old(View()), Unsubscribe(id))
      ensures removed == if id in old(subscribers) then Some(id) else None
    {
      removed := if id in subscribers then Some(id) else None;
      subscribers := subscribers - {id};
      Broadcast();
    }

    method Abort(task: nat)
      modifies this`tasks
      ensures tasks == Aborted(old(tasks), {task})
    {
      if task in tasks {
        tasks := tasks[task := tasks[task].(aborted := true)];
      }
    }

    /** Takes a connection out of the book and stops its task. */
    method RemoveConnection(address: nat)
      modifies this`connections, this`closed, this`tasks
      ensures View() == Dropped(old(View()), address)
    {
      if address in connections {
        var task := connections[address];
        connections := connections - {address};
        closed := closed + 1;
        Abort(task);
      }
    }

    method HandleDisconnectPeer(address: nat) returns (disconnected: bool)
      requires !stopped
      modifies this
      ensures View() == Stepped(old(View()), Disconnect(address)) && disconnected == (address in old(connections))
    {
      disconnected := address in connections;
      RemoveConnection(address);
    }

    method HandleAccept(address: nat)
      requires !stopped
      modifies this
      ensures View() == Stepped(old(View()), Accept(address))
    {
      RemoveConnection(address);
      tasks := tasks[nextTask := Task(address, subscribers, |broadcast|, false)];
      connections := connections[address := nextTask];
      nextTask := nextTask + 1;
      accepted := accepted + 1;
    }

    method HandleConnectionClosed()
      requires !stopped
      modifies this
      ensures View() == Stepped(old(View()), HandleNotice)
    {
      if notices != [] {
        var address := notices[0];
        notices := notices[1..];
        if address in connections {
          connections := connections - {address};
          closed := closed + 1;
        }
      }
    }

    /** Stops every listed task, one by one. */
    method AbortAll()
      modifies this`tasks, this`connections
      ensures tasks == Aborted(old(tasks), old(connections).Values) && connections == map[]
    {
      hide Aborted;
      ghost var done: set<nat> := {};
      AbortedNone(tasks);
      while connections != map[]
        invariant tasks == Aborted(old(tasks), done)
        invariant done + connections.Values == old(connections).Values
        decreases |connections|
      {
        var address :| address in connections;
        var task := connections[address];
        ValuesSplit(connections, address);
        connections := connections - {address};
        Abort(task);
        AbortedMore(old(tasks), done, task);
        done := done + {task};
      }
    }

    method HandleShutdown()
      requires !stopped
      modifies this
      ensures View() == Stepped(old(View()), Shutdown)
    {
      hide Aborted;
      AbortAll();
      stopped := true;
    }

    /** One receive of a task that is waiting for subscriber updates. */
    method ReceiveUpdate(task: nat)
      requires task in tasks && !tasks[task].aborted && !(stopped && tasks[task].next >= |broadcast|)
      modifies this`tasks
      ensures View() == Stepped(old(View()), Receive(task))
    {
      var t := tasks[task];
      if t.next < |broadcast| {
        if |broadcast| - t.next > BROADCAST_CAPACITY {
          t := t.(next := |broadcast| - BROADCAST_CAPACITY);
        } else {
          t := t.(current := broadcast[t.next], next := t.next + 1);
        }
      }
      tasks := tasks[task := t];
    }

    /** A task leaves its loop and notifies the actor, if there is room and the actor is there. */
    method EndTask(task: nat)
      requires task in tasks
      modifies this`tasks, this`notices
      ensures View() == Stepped(old(View()), End(task))
    {
      var address := tasks[task].address;
      tasks := tasks - {task};
      if !stopped && |notices| < NOTICE_CAPACITY {
        notices := notices + [address];
      }
    }
  }

  lemma {:induction false} ValuesSplit(m: map<nat, nat>, k: nat)
    requires k in m
    ensures m.Values == (m - {k}).Values + {m[k]} && |m - {k}| < |m|
  {
    RemovingOne(m, k);
    forall v | v in m.Values ensures v in (m - {k}).Values + {m[k]} {
      var a :| a in m && m[a] == v;
      if a != k {
        assert a in m - {k} && (m - {k})[a] == v;
      }
    }
    assert k in m;
  }

  lemma {:induction false} AbortedNone(tasks: map<nat, Task>)
    ensures Aborted(tasks, {}) == tasks
  {
  }

  lemma {:induction false} AbortedMore(tasks: map<nat, Task>, ids: set<nat>, more: nat)
    ensures Aborted(Aborted(tasks, ids), {more}) == Aborted(tasks, ids + {more})
  {
  }
}
