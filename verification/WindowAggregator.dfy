/** The aggregator and the iterator adaptor in the form they have in the program: objects that update maps and
    buffers in place, proved to do what WindowSpec says. */
module WindowAggregator {
  import opened Sequences
  import opened WindowSpec
  import opened WindowTheorems

  /** A finished window as the program reports it: start, non-inclusive end, value. No key. */
  datatype Aggregate<+Out> = Aggregate(start: nat, end: nat, value: Out)

  datatype Output<+Item, +Out> = Left(agg: Aggregate<Out>) | Right(item: Item)

  function AggregatesOf<Key, Item, Acc, Out>(job: Job<Key, Item, Acc, Out>, m: map<nat, Acc>, starts: seq<nat>)
    : seq<Aggregate<Out>>
    requires forall s :: s in starts ==> s in m
  {
    seq(|starts|, i requires 0 <= i < |starts| =>
      Aggregate(starts[i], starts[i] + job.windowDuration, job.flush(m[starts[i]])))
  }

  /** Emissions without their tags. */
  ghost function Plain<Key, Item, Acc, Out>(
    job: Job<Key, Item, Acc, Out>, outs: seq<Emitted<Key, Item, Out>>): seq<Output<Item, Out>>
  {
    Pick(outs, (e: Emitted<Key, Item, Out>) => Some(Untagged(job, e)))
  }

  ghost function Untagged<Key, Item, Acc, Out>(
    job: Job<Key, Item, Acc, Out>, e: Emitted<Key, Item, Out>): Output<Item, Out>
  {
    match e
    case Late(item) => Right(item)
    case Window(_, start, value) => Left(Aggregate(start, start + job.windowDuration, value))
  }

  ghost function Lefts<Item, Out>(aggs: seq<Aggregate<Out>>): seq<Output<Item, Out>> {
    Pick(aggs, (a: Aggregate<Out>) => Some(Left(a)))
  }

  ghost function Rights<Item, Out>(items: seq<Item>): seq<Output<Item, Out>> {
    Pick(items, (x: Item) => Some(Right(x)))
  }

  lemma {:induction false} PlainConcat<Key, Item, Acc, Out>(
    job: Job<Key, Item, Acc, Out>, s: seq<Emitted<Key, Item, Out>>, t: seq<Emitted<Key, Item, Out>>)
    ensures Plain(job, s + t) == Plain(job, s) + Plain(job, t)
  {
    PickConcat(s, t, (e: Emitted<Key, Item, Out>) => Some(Untagged(job, e)));
  }

  lemma {:induction false} LeftsConcat<Item, Out>(s: seq<Aggregate<Out>>, t: seq<Aggregate<Out>>)
    ensures Lefts<Item, Out>(s + t) == Lefts<Item, Out>(s) + Lefts(t)
  {
    PickConcat<Aggregate<Out>, Output<Item, Out>>(s, t, (a: Aggregate<Out>) => Some(Left(a)));
  }

  lemma {:induction false} PlainWindows<Key, Item, Acc, Out>(
    job: Job<Key, Item, Acc, Out>, k: Key, m: map<nat, Acc>, starts: seq<nat>)
    requires forall s :: s in starts ==> s in m
    ensures Plain(job, Windows(job, k, m, starts)) == Lefts(AggregatesOf(job, m, starts))
  {
    if starts != [] {
      PlainWindows(job, k, m, starts[1..]);
      assert AggregatesOf(job, m, starts)[1..] == AggregatesOf(job, m, starts[1..]);
    }
  }

  /** The event-time aggregator over hash maps of ordered maps. */
  class Aggregator<Key(==), Item, Acc, Out> {
    const job: Job<Key, Item, Acc, Out>
    var activeWindows: map<Key, map<nat, Acc>>
    var currentTime: map<Key, nat>

    constructor (job: Job<Key, Item, Acc, Out>)
      ensures this.job == job
      ensures View() == State(map[], map[])
    {
      this.job := job;
      activeWindows, currentTime := map[], map[];
    }

    ghost function View(): State<Key, Acc>
      reads this
    {
      State(activeWindows, currentTime)
    }

    /** Flushes the entries of an ordered map in ascending order of start. */
    method FlushWindows(m: map<nat, Acc>) returns (r: seq<Aggregate<Out>>)
      ensures r == AggregatesOf(job, m, Ascending(m.Keys))
    {
      r := [];
      var starts := Ascending(m.Keys);
      for i := 0 to |starts|
        invariant r == AggregatesOf(job, m, starts)[..i]
      {
        r := r + [Aggregate(starts[i], starts[i] + job.windowDuration, job.flush(m[starts[i]]))];
      }
    }

    /** Separates the windows that start at or before the cutoff from the others. */
    static method SplitOff(windows: map<nat, Acc>, cutoff: int) returns (closed: map<nat, Acc>, open: map<nat, Acc>)
      ensures closed.Keys == UpTo(windows, cutoff) && forall s :: s in closed ==> closed[s] == windows[s]
      ensures open == Above(windows, cutoff)
    {
      closed := map s | s in windows && s < cutoff :: windows[s];
      open := map s | s in windows && cutoff <= s :: windows[s];
      if cutoff >= 0 && cutoff as nat in open {
        closed := closed[cutoff as nat := open[cutoff as nat]];
        open := open - {cutoff as nat};
      }
    }

    /** Takes out the windows that start at or before the cutoff and flushes them. */
    method Close(windows: map<nat, Acc>, cutoff: int) returns (open: map<nat, Acc>, emitted: seq<Aggregate<Out>>)
      ensures open == Above(windows, cutoff)
      ensures emitted == AggregatesOf(job, windows, Ascending(UpTo(windows, cutoff)))
    {
      var closed;
      closed, open := SplitOff(windows, cutoff);
      emitted := FlushWindows(closed);
      ClosedAggregates(job, windows, cutoff, closed);
    }

    /** Pushes an item into its minute and closes what time `now` leaves behind. */
    method Rotate(
      active: map<nat, Acc>, item: Item, now: nat) returns (open: map<nat, Acc>, emitted: seq<Aggregate<Out>>)
      ensures open == Above(Pushed(job, active, item), Cutoff(job, now))
      ensures var pushed := Pushed(job, active, item);
        emitted == AggregatesOf(job, pushed, Ascending(UpTo(pushed, Cutoff(job, now))))
    {
      var start: nat := WindowStart(job.ts(item));
      var windows := active[start := job.push(if start in active then active[start] else job.init, item)];
      assert windows == Pushed(job, active, item);
      var cutoff := WindowStart(now - job.lateness) - job.windowDuration;
      assert cutoff == Cutoff(job, now);
      open, emitted := Close(windows, cutoff);
    }

    /** Takes one item: reports it late, or pushes it and hands out the windows that closed. */
    method ProcessItem(item: Item) returns (emitted: seq<Aggregate<Out>>, late: seq<Item>)
      modifies this
      ensures View() == Step(job, old(View()), item).0
      ensures Rights(late) + Lefts(emitted) == Plain(job, Step(job, old(View()), item).1)
    {
      ghost var st := View();
      var ts, key := job.ts(item), job.key(item);
      emitted, late := [], [];
      if key !in currentTime {
        currentTime := currentTime[key := ts];
      }
      if ts < currentTime[key] - job.lateness {
        late := [item];
        StepRejects(job, st, item);
        assert View() == st;
      } else {
        var now := Max(currentTime[key], ts);
        currentTime := currentTime[key := now];
        var open;
        open, emitted := Rotate(if key in activeWindows then activeWindows[key] else map[], item, now);
        activeWindows := activeWindows[key := open];
        StepAccepts(job, st, item, now, currentTime);
      }
    }

    /** Hands out all active windows and forgets everything. The order of the keys is that of a hash map. */
    method Flush() returns (emitted: seq<Aggregate<Out>>, ghost order: seq<Key>)
      modifies this
      ensures View() == State(map[], map[])
      ensures IsKeyOrder(old(View()), order)
      ensures Lefts(emitted) == Plain(job, FlushOuts(job, old(View()), order))
    {
      ghost var st := View();
      var active := activeWindows;
      activeWindows, currentTime := map[], map[];
      emitted, order := [], [];
      var keys := active.Keys;
      while keys != {}
        invariant View() == State(map[], map[])
        invariant keys <= active.Keys
        invariant NoDuplicates(order)
        invariant forall k :: k in order ==> k in active && k !in keys
        invariant forall k :: k in active ==> k in order || k in keys
        invariant Lefts(emitted) == Plain(job, FlushOuts(job, st, order))
        decreases keys
      {
        var k :| k in keys;
        var r := FlushWindows(active[k]);
        FlushSnoc(job, st, order, k);
        LeftsConcat<Item, Out>(emitted, r);
        emitted := emitted + r;
        order := order + [k];
        keys := keys - {k};
      }
    }
  }

  /** The iterator adaptor: pulls items from a source, buffers what the aggregator hands out, and flushes when the
      source is exhausted. `consumed`, `produced`, `delivered` and `flushOrder` record the history. */
  class Adaptor<Key(==), Item, Acc, Out> {
    const job: Job<Key, Item, Acc, Out>
    const aggregator: Aggregator<Key, Item, Acc, Out>
    var source: seq<Item>
    var buffer: seq<Aggregate<Out>>
    var lateBuffer: seq<Item>
    ghost var consumed: seq<Item>
    ghost var produced: seq<Output<Item, Out>>
    ghost var delivered: seq<Output<Item, Out>>
    ghost var flushOrder: Option<seq<Key>>

    /** The aggregator has seen exactly `consumed`, and `produced` is everything it has handed out. */
    ghost predicate History()
      reads this`source, this`consumed, this`produced, this`flushOrder, aggregator
    {
      && aggregator.job == job
      && (flushOrder.Some? ==> source == [] && IsKeyOrder(RunState(job, consumed), flushOrder.value))
      && aggregator.View() == (if flushOrder.Some? then State(map[], map[]) else RunState(job, consumed))
      && produced ==
        Plain(job, if flushOrder.Some? then Complete(job, consumed, flushOrder.value) else RunOuts(job, consumed))
    }

    /** What has been produced is delivered or buffered, in order. */
    ghost predicate Queue()
      reads this`buffer, this`lateBuffer, this`delivered, this`produced
    {
      delivered + (Rights(lateBuffer) + Lefts(buffer)) == produced
    }

    ghost predicate Valid()
      reads this, aggregator
    {
      History() && Queue()
    }

    constructor (job: Job<Key, Item, Acc, Out>, source: seq<Item>)
      ensures Valid() && fresh(aggregator)
      ensures this.job == job && this.source == source && consumed == [] && delivered == [] && flushOrder == None
    {
      this.job := job;
      this.source, buffer, lateBuffer := source, [], [];
      aggregator := new Aggregator(job);
      consumed, produced, delivered, flushOrder := [], [], [], None;
    }

    /** Pops a buffered result: late items first, then windows. */
    method GetNext() returns (r: Option<Output<Item, Out>>)
      requires Queue()
      modifies this`buffer, this`lateBuffer, this`delivered
      ensures Queue()
      ensures r.None? ==> lateBuffer == [] && buffer == [] && delivered == old(delivered) == produced
      ensures r.Some? ==> delivered == old(delivered) + [r.value]
      ensures r.Some? ==> |lateBuffer| + |buffer| < |old(lateBuffer)| + |old(buffer)|
    {
      r := None;
      if lateBuffer != [] {
        r := Some(Right(lateBuffer[0]));
        lateBuffer := lateBuffer[1..];
        delivered := delivered + [r.value];
      } else if buffer != [] {
        r := Some(Left(buffer[0]));
        buffer := buffer[1..];
        delivered := delivered + [r.value];
      }
    }

    /** The next late item or window. At the end, everything the whole stream produces has been delivered. */
    method Next() returns (r: Option<Output<Item, Out>>)
      requires Valid()
      modifies this, aggregator
      ensures Valid() && consumed + source == old(consumed + source)
      ensures r.Some? ==> delivered == old(delivered) + [r.value]
      ensures r.None? ==>
        && delivered == old(delivered)
        && flushOrder.Some?
        && delivered == Plain(job, Complete(job, consumed, flushOrder.value))
      ensures |source| <= |old(source)| && (old(flushOrder).Some? ==> flushOrder == old(flushOrder))
      ensures r.Some? ==>
        || (flushOrder.Some? && old(flushOrder).None?)
        || |source| < |old(source)|
        || |lateBuffer| + |buffer| < |old(lateBuffer)| + |old(buffer)|
    {
      hide Plain, RunState, RunOuts, FlushOuts, Complete, Queue;
      while true
        invariant Valid() && consumed + source == old(consumed + source)
        invariant delivered == old(delivered)
        invariant flushOrder == old(flushOrder)
        invariant |source| < |old(source)| || (source == old(source) && lateBuffer == old(lateBuffer)
          && buffer == old(buffer))
        decreases |source|
      {
        r := GetNext();
        if r.Some? {
          return;
        }
        if source == [] {
          if buffer == [] {
            Drain();
          }
          r := GetNext();
          return;
        }
        Pull();
        r := GetNext();
        if r.Some? {
          return;
        }
      }
    }

    /** Processes one item of the source with empty buffers. */
    method Pull()
      requires Valid() && source != [] && lateBuffer == [] && buffer == []
      modifies this`source, this`buffer, this`lateBuffer, this`consumed, this`produced, aggregator
      ensures Valid() && flushOrder == old(flushOrder)
      ensures source == old(source)[1..] && consumed == old(consumed) + [old(source)[0]]
    {
      hide Step, Plain, RunState, RunOuts, Complete;
      var item := source[0];
      source := source[1..];
      buffer, lateBuffer := aggregator.ProcessItem(item);
      ProducedSnoc(job, consumed, item);
      produced := produced + (Rights(lateBuffer) + Lefts(buffer));
      consumed := consumed + [item];
    }

    /** Flushes the aggregator into the buffer. Only the first flush can produce anything. */
    method Drain()
      requires Valid() && source == [] && lateBuffer == [] && buffer == []
      modifies this`buffer, this`flushOrder, this`produced, aggregator
      ensures Valid()
      ensures flushOrder.Some? && (old(flushOrder).Some? ==> flushOrder == old(flushOrder))
    {
      hide FlushOuts, Plain, RunState, RunOuts;
      ghost var st := aggregator.View();
      ghost var order;
      buffer, order := aggregator.Flush();
      if flushOrder.None? {
        PlainConcat(job, RunOuts(job, consumed), FlushOuts(job, st, order));
        produced := produced + Lefts(buffer);
        flushOrder := Some(order);
      } else {
        NothingToFlush(job, st, order, buffer);
      }
    }

    /** Drains the iterator: the whole output of the stream, for the order in which the keys were flushed. */
    method Collect() returns (out: seq<Output<Item, Out>>, ghost order: seq<Key>)
      requires Valid() && consumed == [] && delivered == [] && flushOrder == None
      modifies this, aggregator
      ensures IsKeyOrder(RunState(job, old(source)), order)
      ensures out == Plain(job, Complete(job, old(source), order))
    {
      hide Plain, RunState, RunOuts, FlushOuts, Complete, Queue;
      out := [];
      var r := Next();
      while r.Some?
        invariant Valid() && consumed + source == old(source)
        invariant delivered == if r.Some? then out + [r.value] else out
        invariant r.None? ==> flushOrder.Some? && delivered == Plain(job, Complete(job, consumed, flushOrder.value))
        decreases r.Some?, if flushOrder.None? then 1 else 0, |source|, |lateBuffer| + |buffer|
      {
        out := out + [r.value];
        r := Next();
      }
      order := flushOrder.value;
      assert consumed == old(source);
    }
  }

  lemma {:induction false} ProducedSnoc<Key, Item, Acc, Out>(job: Job<Key, Item, Acc, Out>, p: seq<Item>, x: Item)
    ensures RunState(job, p + [x]) == Step(job, RunState(job, p), x).0
    ensures Plain(job, RunOuts(job, p + [x])) ==
      Plain(job, RunOuts(job, p)) + Plain(job, Step(job, RunState(job, p), x).1)
  {
    RunSnoc(job, p, x);
    PlainConcat(job, RunOuts(job, p), Step(job, RunState(job, p), x).1);
  }

  lemma {:induction false} NothingToFlush<Key, Item, Acc, Out>(
    job: Job<Key, Item, Acc, Out>, st: State<Key, Acc>, order: seq<Key>, aggs: seq<Aggregate<Out>>)
    requires st.windows == map[] && IsKeyOrder(st, order)
    requires Lefts<Item, Out>(aggs) == Plain(job, FlushOuts(job, st, order))
    ensures aggs == []
  {
  }

  lemma {:induction false} StepRejects<Key, Item, Acc, Out>(job: Job<Key, Item, Acc, Out>, st: State<Key, Acc>, x: Item)
    requires TooLate(job, KeyView(st, job.key(x)), x)
    ensures Step(job, st, x).0 == st
    ensures Rights<Item, Out>([x]) + Lefts([]) == Plain(job, Step(job, st, x).1)
  {
    PlainLate(job, x);
    assert st.now[job.key(x) := st.now[job.key(x)]] == st.now;
  }

  lemma {:induction false} PlainLate<Key, Item, Acc, Out>(job: Job<Key, Item, Acc, Out>, x: Item)
    ensures Rights<Item, Out>([x]) + Lefts([]) == Plain(job, [Late(x)])
  {
    var e: Emitted<Key, Item, Out> := Late(x);
    PickOne(e, (e: Emitted<Key, Item, Out>) => Some(Untagged(job, e)));
    PickOne<Item, Output<Item, Out>>(x, (x: Item) => Some(Right(x)));
  }

  lemma {:induction false} StepAccepts<Key, Item, Acc, Out>(
    job: Job<Key, Item, Acc, Out>, st: State<Key, Acc>, x: Item, now: nat, times: map<Key, nat>)
    requires !TooLate(job, KeyView(st, job.key(x)), x)
    requires now == if job.key(x) in st.now then Max(st.now[job.key(x)], job.ts(x)) else job.ts(x)
    requires times == st.now[job.key(x) := now]
    ensures var k := job.key(x);
      var pushed := Pushed(job, KeyView(st, k).active, x);
      var cut := Cutoff(job, now);
      && Step(job, st, x).0 == State(st.windows[k := Above(pushed, cut)], times)
      && Plain(job, Step(job, st, x).1) == Rights([]) + Lefts(AggregatesOf(job, pushed, Ascending(UpTo(pushed, cut))))
  {
    var k := job.key(x);
    var pushed := Pushed(job, KeyView(st, k).active, x);
    PlainWindows(job, k, pushed, Ascending(UpTo(pushed, Cutoff(job, now))));
  }

  lemma {:induction false} ClosedAggregates<Key, Item, Acc, Out>(
    job: Job<Key, Item, Acc, Out>, windows: map<nat, Acc>, cut: int, closed: map<nat, Acc>)
    requires closed.Keys == UpTo(windows, cut) && forall s :: s in closed ==> closed[s] == windows[s]
    ensures AggregatesOf(job, closed, Ascending(closed.Keys)) ==
      AggregatesOf(job, windows, Ascending(UpTo(windows, cut)))
  {
  }

  lemma {:induction false} FlushSnoc<Key, Item, Acc, Out>(
    job: Job<Key, Item, Acc, Out>, st: State<Key, Acc>, order: seq<Key>, k: Key)
    ensures Plain(job, FlushOuts(job, st, order + [k])) ==
            Plain(job, FlushOuts(job, st, order)) +
            Lefts(AggregatesOf(job, KeyView(st, k).active, Ascending(KeyView(st, k).active.Keys)))
  {
    assert (order + [k])[..|order|] == order;
    PlainConcat(job, FlushOuts(job, st, order), KeyFlush(job, k, KeyView(st, k)));
    PlainWindows(job, k, KeyView(st, k).active, Ascending(KeyView(st, k).active.Keys));
  }
}
