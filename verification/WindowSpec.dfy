/**
 Event-time windowed aggregation as a value-level machine: what one item does to the state, what a whole
 stream emits, and the batch group-by that the streaming machine has to agree with.
 Times are nanoseconds since the earliest representable timestamp, which is the start of a minute, so every
 timestamp is a natural number and a minute floor is exact.
 */
module WindowSpec {
  import opened Sequences

  const MINUTE: nat := 60_000_000_000

  /** Start of the minute that contains `t`. */
  function WindowStart(t: int): (s: int)
    ensures 0 <= t ==> 0 <= s
    ensures s <= t < s + 60_000_000_000 && s % 60_000_000_000 == 0
  {
    t - t % MINUTE
  }

  /** What the aggregator is instantiated with: key and time of an item, the aggregation, and the two durations. */
  datatype Job<!Key, !Item, !Acc, !Out> = Job(
    key: Item -> Key,
    ts: Item -> nat,
    init: Acc,
    push: (Acc, Item) -> Acc,
    flush: Acc -> Out,
    windowDuration: nat,
    lateness: nat)

  /** Emissions, tagged with the key that the real output does not carry. */
  datatype Emitted<+Key, +Item, +Out> = Late(item: Item) | Window(key: Key, start: nat, value: Out)

  /** The per-key part of the aggregator. */
  datatype KeyState<+Acc> = KeyState(now: Option<nat>, active: map<nat, Acc>)

  /** The aggregator: active windows per key and current event time per key. */
  datatype State<+Key, +Acc> = State(windows: map<Key, map<nat, Acc>>, now: map<Key, nat>)

  function Bucket<Key, Item, Acc, Out>(job: Job<Key, Item, Acc, Out>, x: Item): nat {
    WindowStart(job.ts(x))
  }

  function Cutoff<Key, Item, Acc, Out>(job: Job<Key, Item, Acc, Out>, now: int): int {
    WindowStart(now - job.lateness) - job.windowDuration
  }

  function Max(a: nat, b: nat): nat {
    if a < b then b else a
  }

  function UpTo<Acc>(m: map<nat, Acc>, cut: int): set<nat> {
    set s | s in m && s <= cut
  }

  function Above<Acc>(m: map<nat, Acc>, cut: int): map<nat, Acc> {
    map s | s in m && cut < s :: m[s]
  }

  function Windows<Key, Item, Acc, Out>(job: Job<Key, Item, Acc, Out>, k: Key, m: map<nat, Acc>, starts: seq<nat>)
    : seq<Emitted<Key, Item, Out>>
    requires forall s :: s in starts ==> s in m
  {
    if starts == [] then []
    else [Window(k, starts[0], job.flush(m[starts[0]]))] + Windows(job, k, m, starts[1..])
  }

  /** Active windows of one key once `item` has been pushed. */
  function Pushed<Key, Item, Acc, Out>(
    job: Job<Key, Item, Acc, Out>, active: map<nat, Acc>, item: Item): map<nat, Acc>
  {
    var b := WindowStart(job.ts(item));
    active[b := job.push(if b in active then active[b] else job.init, item)]
  }

  /** The lateness test of the machine: behind the current time of the key by more than the allowed lateness. */
  predicate TooLate<Key, Item, Acc, Out>(job: Job<Key, Item, Acc, Out>, ks: KeyState<Acc>, item: Item) {
    ks.now.Some? && job.ts(item) < ks.now.value - job.lateness
  }

  /** One item, seen by the state of its own key. */
  function KeyStep<Key, Item, Acc, Out>(job: Job<Key, Item, Acc, Out>, ks: KeyState<Acc>, item: Item)
    : (KeyState<Acc>, seq<Emitted<Key, Item, Out>>)
  {
    if TooLate(job, ks, item) then
      (ks, [Late(item)])
    else
      var t := job.ts(item);
      var now := if ks.now.Some? then Max(ks.now.value, t) else t;
      var pushed := Pushed(job, ks.active, item);
      var cut := Cutoff(job, now);
      (KeyState(Some(now), Above(pushed, cut)),
       Windows(job, job.key(item), pushed, Ascending(UpTo(pushed, cut))))
  }

  function KeyView<Key(==), Acc>(st: State<Key, Acc>, k: Key): KeyState<Acc> {
    KeyState(if k in st.now then Some(st.now[k]) else None, if k in st.windows then st.windows[k] else map[])
  }

  /** One item, seen by the whole aggregator. A late item creates no window table for its key. */
  function Step<Key(==), Item, Acc, Out>(job: Job<Key, Item, Acc, Out>, st: State<Key, Acc>, item: Item)
    : (State<Key, Acc>, seq<Emitted<Key, Item, Out>>)
  {
    var k := job.key(item);
    var (ks, outs) := KeyStep(job, KeyView(st, k), item);
    (State(if TooLate(job, KeyView(st, k), item) then st.windows else st.windows[k := ks.active],
           if ks.now.Some? then st.now[k := ks.now.value] else st.now),
     outs)
  }

  ghost function RunState<Key, Item, Acc, Out>(job: Job<Key, Item, Acc, Out>, s: seq<Item>): State<Key, Acc> {
    if s == [] then State(map[], map[]) else Step(job, RunState(job, s[..|s| - 1]), s[|s| - 1]).0
  }

  /** Everything emitted while the items of `s` are processed, in order. */
  ghost function RunOuts<Key, Item, Acc, Out>(
    job: Job<Key, Item, Acc, Out>, s: seq<Item>): seq<Emitted<Key, Item, Out>>
  {
    if s == [] then []
    else RunOuts(job, s[..|s| - 1]) + Step(job, RunState(job, s[..|s| - 1]), s[|s| - 1]).1
  }

  /** The closing flush enumerates the keys of a hash map, so any order of the keys is possible. */
  ghost predicate IsKeyOrder<Key, Acc>(st: State<Key, Acc>, order: seq<Key>) {
    && NoDuplicates(order)
    && (forall k :: k in order ==> k in st.windows)
    && (forall k :: k in st.windows ==> k in order)
  }

  /** All active windows of key `k`, in ascending order of start. */
  function KeyFlush<Key, Item, Acc, Out>(job: Job<Key, Item, Acc, Out>, k: Key, ks: KeyState<Acc>)
    : seq<Emitted<Key, Item, Out>>
  {
    Windows(job, k, ks.active, Ascending(ks.active.Keys))
  }

  ghost function FlushOuts<Key, Item, Acc, Out>(job: Job<Key, Item, Acc, Out>, st: State<Key, Acc>, order: seq<Key>)
    : seq<Emitted<Key, Item, Out>>
  {
    if order == [] then []
    else
      var n := |order| - 1;
      FlushOuts(job, st, order[..n]) + KeyFlush(job, order[n], KeyView(st, order[n]))
  }

  /** What draining the iterator over `s` yields. */
  ghost function Complete<Key, Item, Acc, Out>(job: Job<Key, Item, Acc, Out>, s: seq<Item>, order: seq<Key>)
    : seq<Emitted<Key, Item, Out>>
  {
    RunOuts(job, s) + FlushOuts(job, RunState(job, s), order)
  }

  // ----- Reading an output

  ghost function KeyOf<Key, Item, Acc, Out>(job: Job<Key, Item, Acc, Out>, e: Emitted<Key, Item, Out>): Key {
    match e case Late(item) => job.key(item) case Window(k, _, _) => k
  }

  ghost function OutsOf<Key, Item, Acc, Out>(job: Job<Key, Item, Acc, Out>, outs: seq<Emitted<Key, Item, Out>>, k: Key)
    : seq<Emitted<Key, Item, Out>>
  {
    Pick(outs, (e: Emitted<Key, Item, Out>) => if KeyOf(job, e) == k then Some(e) else None)
  }

  ghost function LateOf<Key, Item, Out>(outs: seq<Emitted<Key, Item, Out>>): seq<Item> {
    Pick(outs, (e: Emitted<Key, Item, Out>) => if e.Late? then Some(e.item) else None)
  }

  /** Values emitted for bucket `b` of key `k`. */
  ghost function Values<Key, Item, Out>(outs: seq<Emitted<Key, Item, Out>>, k: Key, b: nat): seq<Out> {
    Pick(outs, (e: Emitted<Key, Item, Out>) => if e.Window? && e.key == k && e.start == b then Some(e.value) else None)
  }

  /** Starts of the windows emitted for key `k`. */
  ghost function Starts<Key, Item, Out>(outs: seq<Emitted<Key, Item, Out>>, k: Key): seq<nat> {
    Pick(outs, (e: Emitted<Key, Item, Out>) => if e.Window? && e.key == k then Some(e.start) else None)
  }

  // ----- The batch specification

  /** An item is late after `before` when an earlier item of its key is more than `lateness` ahead of it. */
  ghost predicate LateAfter<Key, Item, Acc, Out>(job: Job<Key, Item, Acc, Out>, before: seq<Item>, x: Item) {
    exists y :: y in before && job.key(y) == job.key(x) && job.ts(y) > job.ts(x) + job.lateness
  }

  ghost function LateItems<Key, Item, Acc, Out>(job: Job<Key, Item, Acc, Out>, s: seq<Item>): seq<Item> {
    if s == [] then []
    else
      var n := |s| - 1;
      LateItems(job, s[..n]) + if LateAfter(job, s[..n], s[n]) then [s[n]] else []
  }

  ghost predicate Belongs<Key, Item, Acc, Out>(
    job: Job<Key, Item, Acc, Out>, before: seq<Item>, x: Item, k: Key, b: nat)
  {
    job.key(x) == k && WindowStart(job.ts(x)) == b && !LateAfter(job, before, x)
  }

  /** The items of bucket `b` of key `k` that are not late, in arrival order. */
  ghost function Accepted<Key, Item, Acc, Out>(job: Job<Key, Item, Acc, Out>, s: seq<Item>, k: Key, b: nat): seq<Item> {
    if s == [] then []
    else
      var n := |s| - 1;
      Accepted(job, s[..n], k, b) + if Belongs(job, s[..n], s[n], k, b) then [s[n]] else []
  }

  ghost function Fold<Key, Item, Acc, Out>(job: Job<Key, Item, Acc, Out>, s: seq<Item>): Acc {
    if s == [] then job.init else job.push(Fold(job, s[..|s| - 1]), s[|s| - 1])
  }

  /** The batch answer for one bucket: nothing, or the fold of exactly its accepted items. */
  ghost function BatchValues<Key, Item, Acc, Out>(
    job: Job<Key, Item, Acc, Out>, s: seq<Item>, k: Key, b: nat): seq<Out>
  {
    var items := Accepted(job, s, k, b);
    if items == [] then [] else [job.flush(Fold(job, items))]
  }

  /** The sub-stream of one key. */
  ghost function Sub<Key, Item, Acc, Out>(job: Job<Key, Item, Acc, Out>, s: seq<Item>, k: Key): seq<Item> {
    if s == [] then []
    else Sub(job, s[..|s| - 1], k) + if job.key(s[|s| - 1]) == k then [s[|s| - 1]] else []
  }
}
