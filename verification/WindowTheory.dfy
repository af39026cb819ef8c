/** Why the streaming aggregator agrees with the batch group-by: keys are independent, and for one key the state
    after any stream is determined by the accepted items of each minute bucket. */
module WindowTheory {
  import opened Sequences
  import opened WindowSpec

  // ----- Reading concatenated outputs

  lemma {:induction false} OutsConcat<Key, Item, Acc, Out>(
    job: Job<Key, Item, Acc, Out>, s: seq<Emitted<Key, Item, Out>>, t: seq<Emitted<Key, Item, Out>>, k: Key)
    ensures OutsOf(job, s + t, k) == OutsOf(job, s, k) + OutsOf(job, t, k)
  {
    PickConcat(s, t, (e: Emitted<Key, Item, Out>) => if KeyOf(job, e) == k then Some(e) else None);
  }

  lemma {:induction false} ValuesConcat<Key, Item, Out>(
    s: seq<Emitted<Key, Item, Out>>, t: seq<Emitted<Key, Item, Out>>, k: Key, b: nat)
    ensures Values(s + t, k, b) == Values(s, k, b) + Values(t, k, b)
  {
    PickConcat(s, t,
      (e: Emitted<Key, Item, Out>) => if e.Window? && e.key == k && e.start == b then Some(e.value) else None);
  }

  lemma {:induction false} StartsConcat<Key, Item, Out>(
    s: seq<Emitted<Key, Item, Out>>, t: seq<Emitted<Key, Item, Out>>, k: Key)
    ensures Starts(s + t, k) == Starts(s, k) + Starts(t, k)
  {
    PickConcat(s, t, (e: Emitted<Key, Item, Out>) => if e.Window? && e.key == k then Some(e.start) else None);
  }

  lemma {:induction false} LateConcat<Key, Item, Out>(s: seq<Emitted<Key, Item, Out>>, t: seq<Emitted<Key, Item, Out>>)
    ensures LateOf(s + t) == LateOf(s) + LateOf(t)
  {
    PickConcat(s, t, (e: Emitted<Key, Item, Out>) => if e.Late? then Some(e.item) else None);
  }

  /** A batch of windows of one key, read back. */
  lemma {:induction false} WindowsRead<Key, Item, Acc, Out>(
    job: Job<Key, Item, Acc, Out>, k: Key, m: map<nat, Acc>, starts: seq<nat>)
    requires forall s :: s in starts ==> s in m
    ensures var outs := Windows(job, k, m, starts);
      && Starts(outs, k) == starts
      && LateOf(outs) == []
      && forall e :: e in outs ==> KeyOf(job, e) == k
  {
    if starts != [] {
      WindowsRead(job, k, m, starts[1..]);
    }
  }

  lemma {:induction false} WindowsValues<Key, Item, Acc, Out>(
    job: Job<Key, Item, Acc, Out>, k: Key, m: map<nat, Acc>, starts: seq<nat>, b: nat)
    requires forall s :: s in starts ==> s in m
    requires StrictlyAscending(starts)
    ensures Values(Windows(job, k, m, starts), k, b) == if b in starts then [job.flush(m[b])] else []
  {
    if starts != [] {
      assert starts == [starts[0]] + starts[1..];
      WindowsValues(job, k, m, starts[1..], b);
    }
  }

  lemma {:induction false} AllOfKey<Key, Item, Acc, Out>(
    job: Job<Key, Item, Acc, Out>, outs: seq<Emitted<Key, Item, Out>>, k: Key)
    requires forall e :: e in outs ==> KeyOf(job, e) == k
    ensures OutsOf(job, outs, k) == outs
  {
    if outs != [] {
      AllOfKey(job, outs[1..], k);
    }
  }

  lemma {:induction false} NoneOfKey<Key, Item, Acc, Out>(
    job: Job<Key, Item, Acc, Out>, outs: seq<Emitted<Key, Item, Out>>, k: Key)
    requires forall e :: e in outs ==> KeyOf(job, e) != k
    ensures OutsOf(job, outs, k) == []
  {
    PickNothing(outs, (e: Emitted<Key, Item, Out>) => if KeyOf(job, e) == k then Some(e) else None);
  }

  // ----- Keys are independent

  ghost function KeyRunState<Key, Item, Acc, Out>(job: Job<Key, Item, Acc, Out>, t: seq<Item>): KeyState<Acc> {
    if t == [] then KeyState(None, map[]) else KeyStep(job, KeyRunState(job, t[..|t| - 1]), t[|t| - 1]).0
  }

  ghost function KeyRunOuts<Key, Item, Acc, Out>(job: Job<Key, Item, Acc, Out>, t: seq<Item>)
    : seq<Emitted<Key, Item, Out>>
  {
    if t == [] then []
    else KeyRunOuts(job, t[..|t| - 1]) + KeyStep(job, KeyRunState(job, t[..|t| - 1]), t[|t| - 1]).1
  }

  ghost predicate OneKey<Key, Item, Acc, Out>(job: Job<Key, Item, Acc, Out>, t: seq<Item>, k: Key) {
    forall x :: x in t ==> job.key(x) == k
  }

  lemma {:induction false} StepOuts<Key, Item, Acc, Out>(job: Job<Key, Item, Acc, Out>, ks: KeyState<Acc>, x: Item)
    ensures forall e :: e in KeyStep(job, ks, x).1 ==> KeyOf(job, e) == job.key(x)
  {
    if !TooLate(job, ks, x) {
      var now := if ks.now.Some? then Max(ks.now.value, job.ts(x)) else job.ts(x);
      var pushed := Pushed(job, ks.active, x);
      WindowsRead(job, job.key(x), pushed, Ascending(UpTo(pushed, Cutoff(job, now))));
    }
  }

  lemma {:induction false} SubIsOneKey<Key, Item, Acc, Out>(job: Job<Key, Item, Acc, Out>, s: seq<Item>, k: Key)
    ensures forall x :: x in Sub(job, s, k) <==> x in s && job.key(x) == k
  {
    if s != [] {
      var n := |s| - 1;
      SubIsOneKey(job, s[..n], k);
      assert s == s[..n] + [s[n]];
    }
  }

  lemma {:induction false} KeyRunSnoc<Key, Item, Acc, Out>(job: Job<Key, Item, Acc, Out>, p: seq<Item>, x: Item)
    ensures KeyRunState(job, p + [x]) == KeyStep(job, KeyRunState(job, p), x).0
    ensures KeyRunOuts(job, p + [x]) == KeyRunOuts(job, p) + KeyStep(job, KeyRunState(job, p), x).1
  {
  }

  lemma {:induction false} StepProjects<Key, Item, Acc, Out>(
    job: Job<Key, Item, Acc, Out>, st: State<Key, Acc>, x: Item, k: Key)
    ensures var (st', outs) := Step(job, st, x);
      if job.key(x) == k then
        && KeyView(st', k) == KeyStep(job, KeyView(st, k), x).0
        && OutsOf(job, outs, k) == outs
      else
        && KeyView(st', k) == KeyView(st, k)
        && OutsOf(job, outs, k) == []
  {
    var outs := Step(job, st, x).1;
    StepOuts(job, KeyView(st, job.key(x)), x);
    if job.key(x) == k {
      AllOfKey(job, outs, k);
    } else {
      NoneOfKey(job, outs, k);
    }
  }

  /** The part of any run that concerns key `k` is the run of `k`'s items alone. */
  lemma {:induction false} RunProjects<Key, Item, Acc, Out>(job: Job<Key, Item, Acc, Out>, s: seq<Item>, k: Key)
    ensures KeyView(RunState(job, s), k) == KeyRunState(job, Sub(job, s, k))
    ensures OutsOf(job, RunOuts(job, s), k) == KeyRunOuts(job, Sub(job, s, k))
  {
    if s != [] {
      var n := |s| - 1;
      var x, p := s[n], Sub(job, s[..n], k);
      RunProjects(job, s[..n], k);
      var st := RunState(job, s[..n]);
      var outs := Step(job, st, x).1;
      StepProjects(job, st, x, k);
      OutsConcat(job, RunOuts(job, s[..n]), outs, k);
      if job.key(x) == k {
        KeyRunSnoc(job, p, x);
        assert Sub(job, s, k) == p + [x];
      } else {
        assert Sub(job, s, k) == p;
      }
    }
  }

  lemma {:induction false} FlushRead<Key, Item, Acc, Out>(
    job: Job<Key, Item, Acc, Out>, k: Key, ks: KeyState<Acc>, q: Key)
    ensures forall e :: e in KeyFlush(job, k, ks) ==> KeyOf(job, e) == k
    ensures LateOf(KeyFlush(job, k, ks)) == []
    ensures OutsOf(job, KeyFlush(job, k, ks), q) == if q == k then KeyFlush(job, k, ks) else []
  {
    var outs := KeyFlush(job, k, ks);
    WindowsRead(job, k, ks.active, Ascending(ks.active.Keys));
    if q == k {
      AllOfKey(job, outs, q);
    } else {
      NoneOfKey(job, outs, q);
    }
  }

  lemma {:induction false} FlushProjects<Key, Item, Acc, Out>(
    job: Job<Key, Item, Acc, Out>, st: State<Key, Acc>, order: seq<Key>, k: Key)
    requires NoDuplicates(order)
    ensures OutsOf(job, FlushOuts(job, st, order), k) == if k in order then KeyFlush(job, k, KeyView(st, k)) else []
  {
    if order != [] {
      var p, h := order[..|order| - 1], order[|order| - 1];
      assert order == p + [h];
      FlushProjects(job, st, p, k);
      FlushRead(job, h, KeyView(st, h), k);
      OutsConcat(job, FlushOuts(job, st, p), KeyFlush(job, h, KeyView(st, h)), k);
    }
  }

  lemma {:induction false} CompleteProjects<Key, Item, Acc, Out>(
    job: Job<Key, Item, Acc, Out>, s: seq<Item>, order: seq<Key>, k: Key)
    requires IsKeyOrder(RunState(job, s), order)
    ensures var t := Sub(job, s, k);
      OutsOf(job, Complete(job, s, order), k) == KeyRunOuts(job, t) + KeyFlush(job, k, KeyRunState(job, t))
  {
    var st := RunState(job, s);
    RunProjects(job, s, k);
    FlushProjects(job, st, order, k);
    OutsConcat(job, RunOuts(job, s), FlushOuts(job, st, order), k);
    if k !in order {
      assert KeyView(st, k).active.Keys == {};
    }
  }

  // ----- One key: time, lateness and buckets

  ghost predicate IsLatest<Key, Item, Acc, Out>(job: Job<Key, Item, Acc, Out>, t: seq<Item>, now: nat) {
    (exists y :: y in t && job.ts(y) == now) && forall y :: y in t ==> job.ts(y) <= now
  }

  lemma {:induction false} LatestSnoc<Key, Item, Acc, Out>(
    job: Job<Key, Item, Acc, Out>, p: seq<Item>, x: Item, now: nat)
    requires IsLatest(job, p, now)
    ensures IsLatest(job, p + [x], Max(now, job.ts(x)))
  {
  }

  lemma {:induction false} LatestOne<Key, Item, Acc, Out>(job: Job<Key, Item, Acc, Out>, x: Item)
    ensures IsLatest(job, [x], job.ts(x))
  {
  }

  lemma {:induction false} StepNow<Key, Item, Acc, Out>(job: Job<Key, Item, Acc, Out>, ks: KeyState<Acc>, x: Item)
    ensures KeyStep(job, ks, x).0.now == Some(if ks.now.Some? then Max(ks.now.value, job.ts(x)) else job.ts(x))
  {
  }

  lemma {:induction false} NowIsLatest<Key, Item, Acc, Out>(job: Job<Key, Item, Acc, Out>, t: seq<Item>)
    ensures var now := KeyRunState(job, t).now;
      if t == [] then now.None? else now.Some? && IsLatest(job, t, now.value)
  {
    hide KeyStep, IsLatest;
    if t != [] {
      var p, x := t[..|t| - 1], t[|t| - 1];
      assert t == p + [x];
      NowIsLatest(job, p);
      KeyRunSnoc(job, p, x);
      StepNow(job, KeyRunState(job, p), x);
      if p != [] {
        LatestSnoc(job, p, x, KeyRunState(job, p).now.value);
      } else {
        assert t == [x];
        LatestOne(job, x);
      }
    }
  }

  /** The machine's test against the running maximum is the pairwise test against every earlier item. */
  lemma {:induction false} TooLateIsPairwise<Key, Item, Acc, Out>(job: Job<Key, Item, Acc, Out>, t: seq<Item>, x: Item)
    requires OneKey(job, t, job.key(x))
    ensures TooLate(job, KeyRunState(job, t), x) <==> LateAfter(job, t, x)
  {
    NowIsLatest(job, t);
    if t != [] {
      var now := KeyRunState(job, t).now.value;
      var y :| y in t && job.ts(y) == now;
    }
  }

  lemma {:induction false} FloorGrows(a: int, b: int)
    requires a <= b
    ensures WindowStart(a) <= WindowStart(b)
  {
  }

  lemma {:induction false} CutoffGrows<Key, Item, Acc, Out>(job: Job<Key, Item, Acc, Out>, now: nat, later: nat)
    requires now <= later
    ensures Cutoff(job, now) <= Cutoff(job, later)
  {
  }

  /** With a positive duration, no accepted item falls into a bucket that is being closed. */
  lemma {:induction false} OwnBucketStaysOpen<Key, Item, Acc, Out>(job: Job<Key, Item, Acc, Out>, now: nat, t: nat)
    requires job.windowDuration > 0 && now - job.lateness <= t
    ensures Cutoff(job, now) < WindowStart(t)
  {
  }

  lemma {:induction false} LateRead<Key, Item, Out>(x: Item, k: Key, b: nat)
    ensures var outs: seq<Emitted<Key, Item, Out>> := [Late(x)];
      LateOf(outs) == [x] && Starts(outs, k) == [] && Values(outs, k, b) == []
  {
    var e: Emitted<Key, Item, Out> := Late(x);
    PickOne(e, (e: Emitted<Key, Item, Out>) => if e.Late? then Some(e.item) else None);
    PickOne(e, (e: Emitted<Key, Item, Out>) => if e.Window? && e.key == k then Some(e.start) else None);
    PickOne(e, (e: Emitted<Key, Item, Out>) => if e.Window? && e.key == k && e.start == b then Some(e.value) else None);
  }

  lemma {:induction false} LateStep<Key, Item, Acc, Out>(
    job: Job<Key, Item, Acc, Out>, ks: KeyState<Acc>, x: Item, k: Key, b: nat)
    requires TooLate(job, ks, x)
    ensures var (ks', outs) := KeyStep(job, ks, x);
      && ks' == ks
      && LateOf(outs) == [x]
      && Starts(outs, k) == []
      && Values(outs, k, b) == []
  {
    LateRead<Key, Item, Out>(x, k, b);
  }

  /** What accepting an item does, bucket by bucket. */
  lemma {:induction false} AcceptStep<Key, Item, Acc, Out>(
    job: Job<Key, Item, Acc, Out>, ks: KeyState<Acc>, x: Item, b: nat)
    requires !TooLate(job, ks, x)
    ensures var (ks', outs) := KeyStep(job, ks, x);
      var pushed := Pushed(job, ks.active, x);
      && ks'.now.Some?
      && ks'.now.value - job.lateness <= job.ts(x) <= ks'.now.value
      && (ks.now.Some? ==> ks.now.value <= ks'.now.value)
      && var cut := Cutoff(job, ks'.now.value);
      && ks'.active == Above(pushed, cut)
      && LateOf(outs) == []
      && Starts(outs, job.key(x)) == Ascending(UpTo(pushed, cut))
      && Values(outs, job.key(x), b) == if b in pushed && b <= cut then [job.flush(pushed[b])] else []
  {
    var now := if ks.now.Some? then Max(ks.now.value, job.ts(x)) else job.ts(x);
    var pushed := Pushed(job, ks.active, x);
    var starts := Ascending(UpTo(pushed, Cutoff(job, now)));
    WindowsRead(job, job.key(x), pushed, starts);
    WindowsValues(job, job.key(x), pushed, starts, b);
  }

  /** State of a bucket with the given accepted items: untouched, open with the fold so far, or closed and emitted. */
  ghost predicate Settled<Key, Item, Acc, Out>(
    job: Job<Key, Item, Acc, Out>, active: map<nat, Acc>, cut: int, items: seq<Item>, vals: seq<Out>, b: nat)
  {
    if items == [] then b !in active && vals == []
    else if b <= cut then b !in active && vals == [job.flush(Fold(job, items))]
    else b in active && active[b] == Fold(job, items) && vals == []
  }

  lemma {:induction false} SettledStep<Key, Item, Acc, Out>(
    job: Job<Key, Item, Acc, Out>, active: map<nat, Acc>, cut: int, cut': int, x: Item, items: seq<Item>,
      vals: seq<Out>, b: nat)
    requires Settled(job, active, cut, items, vals, b)
    requires cut <= cut' < WindowStart(job.ts(x))
    ensures var pushed := Pushed(job, active, x);
      Settled(job, Above(pushed, cut'), cut', items + (if WindowStart(job.ts(x)) == b then [x] else []),
              vals + (if b in pushed && b <= cut' then [job.flush(pushed[b])] else []), b)
  {
    FoldSnoc(job, items, x);
    assert items + [] == items;
  }

  ghost predicate KeySettled<Key, Item, Acc, Out>(
    job: Job<Key, Item, Acc, Out>, ks: KeyState<Acc>, items: seq<Item>, vals: seq<Out>, b: nat)
  {
    if ks.now.Some? then Settled(job, ks.active, Cutoff(job, ks.now.value), items, vals, b)
    else items == [] && b !in ks.active && vals == []
  }

  lemma {:induction false} KeySettledStep<Key, Item, Acc, Out>(
    job: Job<Key, Item, Acc, Out>, ks: KeyState<Acc>, x: Item, items: seq<Item>, vals: seq<Out>, b: nat)
    requires job.windowDuration > 0
    requires KeySettled(job, ks, items, vals, b)
    ensures var (ks', outs) := KeyStep(job, ks, x);
      var own := !TooLate(job, ks, x) && WindowStart(job.ts(x)) == b;
      KeySettled(job, ks', items + (if own then [x] else []), vals + Values(outs, job.key(x), b), b)
  {
    if TooLate(job, ks, x) {
      LateStep(job, ks, x, job.key(x), b);
      assert items + [] == items && vals + [] == vals;
    } else {
      AcceptStep(job, ks, x, b);
      var now := KeyStep(job, ks, x).0.now.value;
      OwnBucketStaysOpen(job, now, job.ts(x));
      var cut := if ks.now.Some? then Cutoff(job, ks.now.value) else Cutoff(job, now);
      if ks.now.Some? {
        CutoffGrows(job, ks.now.value, now);
      }
      SettledStep(job, ks.active, cut, Cutoff(job, now), x, items, vals, b);
    }
  }

  lemma {:induction false} AcceptedSnoc<Key, Item, Acc, Out>(
    job: Job<Key, Item, Acc, Out>, p: seq<Item>, x: Item, k: Key, b: nat)
    ensures Accepted(job, p + [x], k, b) == Accepted(job, p, k, b) + if Belongs(job, p, x, k, b) then [x] else []
  {
  }

  lemma {:induction false} FoldSnoc<Key, Item, Acc, Out>(job: Job<Key, Item, Acc, Out>, p: seq<Item>, x: Item)
    ensures Fold(job, p + [x]) == job.push(Fold(job, p), x)
  {
  }

  /** After any items of key `k`, every bucket is settled with respect to its accepted items. */
  lemma {:induction false} BucketInvariant<Key, Item, Acc, Out>(
    job: Job<Key, Item, Acc, Out>, t: seq<Item>, k: Key, b: nat)
    requires job.windowDuration > 0 && OneKey(job, t, k)
    ensures KeySettled(job, KeyRunState(job, t), Accepted(job, t, k, b), Values(KeyRunOuts(job, t), k, b), b)
  {
    if t != [] {
      var p, x := t[..|t| - 1], t[|t| - 1];
      assert t == p + [x];
      assert x in t && OneKey(job, p, k);
      BucketInvariant(job, p, k, b);
      var ks := KeyRunState(job, p);
      KeySettledStep(job, ks, x, Accepted(job, p, k, b), Values(KeyRunOuts(job, p), k, b), b);
      KeyRunSnoc(job, p, x);
      AcceptedSnoc(job, p, x, k, b);
      TooLateIsPairwise(job, p, x);
      ValuesConcat(KeyRunOuts(job, p), KeyStep(job, ks, x).1, k, b);
    }
  }

  /** Order and extent of one key's windows: emitted starts ascend up to the cutoff, active ones lie above it. */
  ghost predicate StartsSettled<Key, Item, Acc, Out>(
    job: Job<Key, Item, Acc, Out>, ks: KeyState<Acc>, starts: seq<nat>)
  {
    if ks.now.Some? then
      var cut := Cutoff(job, ks.now.value);
      && StrictlyAscending(starts)
      && (forall s :: s in starts ==> s <= cut)
      && (forall s :: s in ks.active ==> cut < s <= WindowStart(ks.now.value) && s % MINUTE == 0)
    else starts == [] && ks.active == map[]
  }

  lemma {:induction false} StartsAccept<Key, Item, Acc, Out>(
    job: Job<Key, Item, Acc, Out>, active: map<nat, Acc>, x: Item, cut: int, cut': int, top: int, starts: seq<nat>)
    requires StrictlyAscending(starts) && forall s :: s in starts ==> s <= cut
    requires forall s :: s in active ==> cut < s <= top && s % MINUTE == 0
    requires cut <= cut' < WindowStart(job.ts(x)) <= top
    ensures var pushed := Pushed(job, active, x);
      var starts' := starts + Ascending(UpTo(pushed, cut'));
      && StrictlyAscending(starts')
      && (forall s :: s in starts' ==> s <= cut')
      && (forall s :: s in Above(pushed, cut') ==> cut' < s <= top && s % MINUTE == 0)
  {
    Appended(starts, Ascending(UpTo(Pushed(job, active, x), cut')));
  }

  lemma {:induction false} StartsStep<Key, Item, Acc, Out>(
    job: Job<Key, Item, Acc, Out>, ks: KeyState<Acc>, x: Item, starts: seq<nat>)
    requires job.windowDuration > 0
    requires StartsSettled(job, ks, starts)
    ensures var (ks', outs) := KeyStep(job, ks, x);
      StartsSettled(job, ks', starts + Starts(outs, job.key(x)))
  {
    if TooLate(job, ks, x) {
      LateStep(job, ks, x, job.key(x), 0);
      assert starts + [] == starts;
    } else {
      AcceptStep(job, ks, x, 0);
      var now := KeyStep(job, ks, x).0.now.value;
      OwnBucketStaysOpen(job, now, job.ts(x));
      FloorGrows(job.ts(x), now);
      if ks.now.Some? {
        CutoffGrows(job, ks.now.value, now);
        FloorGrows(ks.now.value, now);
        StartsAccept(job, ks.active, x, Cutoff(job, ks.now.value), Cutoff(job, now), WindowStart(now), starts);
      } else {
        StartsAccept(job, ks.active, x, Cutoff(job, now), Cutoff(job, now), WindowStart(now), starts);
      }
    }
  }

  lemma {:induction false} StartsInvariant<Key, Item, Acc, Out>(job: Job<Key, Item, Acc, Out>, t: seq<Item>, k: Key)
    requires job.windowDuration > 0 && OneKey(job, t, k)
    ensures StartsSettled(job, KeyRunState(job, t), Starts(KeyRunOuts(job, t), k))
  {
    if t != [] {
      var p, x := t[..|t| - 1], t[|t| - 1];
      assert t == p + [x];
      assert x in t && OneKey(job, p, k);
      StartsInvariant(job, p, k);
      StartsStep(job, KeyRunState(job, p), x, Starts(KeyRunOuts(job, p), k));
      KeyRunSnoc(job, p, x);
      StartsConcat(KeyRunOuts(job, p), KeyStep(job, KeyRunState(job, p), x).1, k);
    }
  }

  lemma {:induction false} Appended(a: seq<nat>, b: seq<nat>)
    requires StrictlyAscending(a) && StrictlyAscending(b)
    requires forall x, y :: x in a && y in b ==> x < y
    ensures StrictlyAscending(a + b)
  {
    forall i, j | 0 <= i < j < |a + b|
      ensures (a + b)[i] < (a + b)[j]
    {
      if i < |a| <= j {
        assert a[i] in a && b[j - |a|] in b;
      }
    }
  }
}
