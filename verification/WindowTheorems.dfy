/** The main results about windowed aggregation, for every stream and every order in which the keys are flushed. */
module WindowTheorems {
  import opened Sequences
  import opened WindowSpec
  import opened WindowTheory

  lemma {:induction false} LateAfterSub<Key, Item, Acc, Out>(job: Job<Key, Item, Acc, Out>, p: seq<Item>, x: Item)
    ensures LateAfter(job, Sub(job, p, job.key(x)), x) <==> LateAfter(job, p, x)
  {
    if p != [] {
      var n := |p| - 1;
      LateAfterSub(job, p[..n], x);
      assert p == p[..n] + [p[n]];
    }
  }

  lemma {:induction false} TooLateInRun<Key, Item, Acc, Out>(job: Job<Key, Item, Acc, Out>, p: seq<Item>, x: Item)
    ensures TooLate(job, KeyView(RunState(job, p), job.key(x)), x) <==> LateAfter(job, p, x)
  {
    var t := Sub(job, p, job.key(x));
    assert OneKey(job, t, job.key(x)) by {
      SubIsOneKey(job, p, job.key(x));
    }
    RunProjects(job, p, job.key(x));
    TooLateIsPairwise(job, t, x);
    LateAfterSub(job, p, x);
  }

  lemma {:induction false} RunSnoc<Key, Item, Acc, Out>(job: Job<Key, Item, Acc, Out>, p: seq<Item>, x: Item)
    ensures RunState(job, p + [x]) == Step(job, RunState(job, p), x).0
    ensures RunOuts(job, p + [x]) == RunOuts(job, p) + Step(job, RunState(job, p), x).1
  {
  }

  /** Exactly the items that trail an earlier item of their key by more than the lateness come out as late, in arrival
      order. Exactly the keys seen have a current time, the latest of all their timestamps, late ones included. */
  lemma {:induction false} LatenessIsPairwise<Key, Item, Acc, Out>(job: Job<Key, Item, Acc, Out>, s: seq<Item>)
    ensures LateOf(RunOuts(job, s)) == LateItems(job, s)
    ensures forall k :: k in RunState(job, s).now ==> IsLatest(job, Sub(job, s, k), RunState(job, s).now[k])
    ensures forall k :: k in RunState(job, s).now <==> Sub(job, s, k) != []
  {
    var st := RunState(job, s);
    forall k ensures k in st.now <==> Sub(job, s, k) != [] {
      RunProjects(job, s, k);
      NowIsLatest(job, Sub(job, s, k));
    }
    forall k | k in st.now
      ensures IsLatest(job, Sub(job, s, k), st.now[k])
    {
      RunProjects(job, s, k);
      NowIsLatest(job, Sub(job, s, k));
    }
    if s != [] {
      var p, x := s[..|s| - 1], s[|s| - 1];
      assert s == p + [x];
      LatenessIsPairwise(job, p);
      TooLateInRun(job, p, x);
      RunSnoc(job, p, x);
      StepLate(job, RunState(job, p), x);
      LateConcat(RunOuts(job, p), Step(job, RunState(job, p), x).1);
    }
  }

  lemma {:induction false} StepLate<Key, Item, Acc, Out>(job: Job<Key, Item, Acc, Out>, st: State<Key, Acc>, x: Item)
    ensures LateOf(Step(job, st, x).1) == if TooLate(job, KeyView(st, job.key(x)), x) then [x] else []
  {
    var ks := KeyView(st, job.key(x));
    if TooLate(job, ks, x) {
      LateStep(job, ks, x, job.key(x), 0);
    } else {
      AcceptStep(job, ks, x, 0);
    }
  }

  lemma {:induction false} AcceptedOfSub<Key, Item, Acc, Out>(
    job: Job<Key, Item, Acc, Out>, s: seq<Item>, k: Key, b: nat)
    ensures Accepted(job, s, k, b) == Accepted(job, Sub(job, s, k), k, b)
  {
    if s != [] {
      var p, x := s[..|s| - 1], s[|s| - 1];
      AcceptedOfSub(job, p, k, b);
      if job.key(x) == k {
        LateAfterSub(job, p, x);
        AcceptedSnoc(job, Sub(job, p, k), x, k, b);
        assert Sub(job, s, k) == Sub(job, p, k) + [x];
      } else {
        assert Sub(job, s, k) == Sub(job, p, k);
      }
    }
  }

  lemma {:induction false} ValuesOfKey<Key, Item, Acc, Out>(
    job: Job<Key, Item, Acc, Out>, outs: seq<Emitted<Key, Item, Out>>, k: Key, b: nat)
    ensures Values(outs, k, b) == Values(OutsOf(job, outs, k), k, b)
  {
    if outs != [] {
      var e, rest := outs[0], outs[1..];
      ValuesOfKey(job, rest, k, b);
      assert outs == [e] + rest;
      ValuesConcat([e], rest, k, b);
      OutsConcat(job, [e], rest, k);
      ValuesConcat(OutsOf(job, [e], k), OutsOf(job, rest, k), k, b);
      OneOfKey(job, e, k, b);
    }
  }

  lemma {:induction false} OneOfKey<Key, Item, Acc, Out>(
    job: Job<Key, Item, Acc, Out>, e: Emitted<Key, Item, Out>, k: Key, b: nat)
    ensures Values([e], k, b) == Values(OutsOf(job, [e], k), k, b)
    ensures Starts([e], k) == Starts(OutsOf(job, [e], k), k)
  {
    PickOne(e, (e: Emitted<Key, Item, Out>) => if KeyOf(job, e) == k then Some(e) else None);
    PickOne(e, (e: Emitted<Key, Item, Out>) => if e.Window? && e.key == k && e.start == b then Some(e.value) else None);
    PickOne(e, (e: Emitted<Key, Item, Out>) => if e.Window? && e.key == k then Some(e.start) else None);
  }

  lemma {:induction false} FlushValues<Key, Item, Acc, Out>(
    job: Job<Key, Item, Acc, Out>, k: Key, ks: KeyState<Acc>, b: nat)
    ensures Values(KeyFlush(job, k, ks), k, b) == if b in ks.active then [job.flush(ks.active[b])] else []
    ensures Starts(KeyFlush(job, k, ks), k) == Ascending(ks.active.Keys)
  {
    WindowsValues(job, k, ks.active, Ascending(ks.active.Keys), b);
    WindowsRead(job, k, ks.active, Ascending(ks.active.Keys));
  }

  lemma {:induction false} FlushLate<Key, Item, Acc, Out>(
    job: Job<Key, Item, Acc, Out>, st: State<Key, Acc>, order: seq<Key>)
    ensures LateOf(FlushOuts(job, st, order)) == []
  {
    if order != [] {
      var p, h := order[..|order| - 1], order[|order| - 1];
      FlushLate(job, st, p);
      FlushRead(job, h, KeyView(st, h), h);
      LateConcat(FlushOuts(job, st, p), KeyFlush(job, h, KeyView(st, h)));
    }
  }

  /** Streaming refines batch: the late items are the batch late items, and every minute bucket of every key comes
      out once, with the fold of exactly its accepted items in arrival order, or not at all if it has none. */
  lemma {:induction false} StreamingRefinesBatch<Key, Item, Acc, Out>(
    job: Job<Key, Item, Acc, Out>, s: seq<Item>, order: seq<Key>, k: Key, b: nat)
    requires job.windowDuration > 0
    requires IsKeyOrder(RunState(job, s), order)
    ensures LateOf(Complete(job, s, order)) == LateItems(job, s)
    ensures Values(Complete(job, s, order), k, b) == BatchValues(job, s, k, b)
  {
    LatenessOnly(job, s, order);
    var t := Sub(job, s, k);
    SubIsOneKey(job, s, k);
    CompleteProjects(job, s, order, k);
    ValuesOfKey(job, Complete(job, s, order), k, b);
    ValuesConcat(KeyRunOuts(job, t), KeyFlush(job, k, KeyRunState(job, t)), k, b);
    BucketInvariant(job, t, k, b);
    FlushValues(job, k, KeyRunState(job, t), b);
    AcceptedOfSub(job, s, k, b);
  }

  /** Keys do not interfere: what one key gets out of an interleaved stream is what its items alone produce. */
  lemma {:induction false} KeysDoNotInterfere<Key, Item, Acc, Out>(
    job: Job<Key, Item, Acc, Out>, s: seq<Item>, order: seq<Key>, k: Key, alone: seq<Key>)
    requires IsKeyOrder(RunState(job, s), order)
    requires IsKeyOrder(RunState(job, Sub(job, s, k)), alone)
    ensures OutsOf(job, Complete(job, s, order), k) == Complete(job, Sub(job, s, k), alone)
  {
    CompleteProjects(job, s, order, k);
    assert OneKey(job, Sub(job, s, k), k) by {
      SubIsOneKey(job, s, k);
    }
    CompleteOfOneKey(job, Sub(job, s, k), alone, k);
  }

  lemma {:induction false} CompleteOfOneKey<Key, Item, Acc, Out>(
    job: Job<Key, Item, Acc, Out>, t: seq<Item>, order: seq<Key>, k: Key)
    requires OneKey(job, t, k) && IsKeyOrder(RunState(job, t), order)
    ensures Complete(job, t, order) == KeyRunOuts(job, t) + KeyFlush(job, k, KeyRunState(job, t))
  {
    SubIsAll(job, t, k);
    CompleteProjects(job, t, order, k);
    OnlyOneKey(job, t, order, k);
    AllOfKey(job, Complete(job, t, order), k);
  }

  lemma {:induction false} SubIsAll<Key, Item, Acc, Out>(job: Job<Key, Item, Acc, Out>, t: seq<Item>, k: Key)
    requires OneKey(job, t, k)
    ensures Sub(job, t, k) == t
  {
    if t != [] {
      var n := |t| - 1;
      assert t[n] in t;
      SubIsAll(job, t[..n], k);
      assert t == t[..n] + [t[n]];
    }
  }

  lemma {:induction false} RunOnlyOneKey<Key, Item, Acc, Out>(job: Job<Key, Item, Acc, Out>, t: seq<Item>, k: Key)
    requires OneKey(job, t, k)
    ensures forall e :: e in RunOuts(job, t) ==> KeyOf(job, e) == k
    ensures forall q :: q in RunState(job, t).windows ==> q == k
  {
    if t != [] {
      var p, x := t[..|t| - 1], t[|t| - 1];
      assert t == p + [x];
      assert x in t && OneKey(job, p, k);
      RunOnlyOneKey(job, p, k);
      RunSnoc(job, p, x);
      StepOuts(job, KeyView(RunState(job, p), k), x);
    }
  }

  lemma {:induction false} OnlyOneKey<Key, Item, Acc, Out>(
    job: Job<Key, Item, Acc, Out>, t: seq<Item>, order: seq<Key>, k: Key)
    requires OneKey(job, t, k) && IsKeyOrder(RunState(job, t), order)
    ensures forall e :: e in Complete(job, t, order) ==> KeyOf(job, e) == k
  {
    RunOnlyOneKey(job, t, k);
    FlushOnlyOneKey(job, RunState(job, t), order, k);
  }

  lemma {:induction false} FlushOnlyOneKey<Key, Item, Acc, Out>(
    job: Job<Key, Item, Acc, Out>, st: State<Key, Acc>, order: seq<Key>, k: Key)
    requires forall q :: q in order ==> q == k
    ensures forall e :: e in FlushOuts(job, st, order) ==> KeyOf(job, e) == k
  {
    if order != [] {
      var p, h := order[..|order| - 1], order[|order| - 1];
      assert h in order && forall q :: q in p ==> q in order;
      FlushOnlyOneKey(job, st, p, k);
      FlushRead(job, h, KeyView(st, h), h);
    }
  }

  // ----- Finality

  lemma {:induction false} StartsOfKey<Key, Item, Acc, Out>(
    job: Job<Key, Item, Acc, Out>, outs: seq<Emitted<Key, Item, Out>>, k: Key)
    ensures Starts(outs, k) == Starts(OutsOf(job, outs, k), k)
  {
    if outs != [] {
      var e, rest := outs[0], outs[1..];
      StartsOfKey(job, rest, k);
      assert outs == [e] + rest;
      StartsConcat([e], rest, k);
      OutsConcat(job, [e], rest, k);
      StartsConcat(OutsOf(job, [e], k), OutsOf(job, rest, k), k);
      OneOfKey(job, e, k, 0);
    }
  }

  /** Up to and including the closing flush, the windows of a key come out in strictly ascending order of start. */
  lemma {:induction false} EmittedWindowsAscend<Key, Item, Acc, Out>(
    job: Job<Key, Item, Acc, Out>, s: seq<Item>, order: seq<Key>, k: Key)
    requires job.windowDuration > 0
    requires IsKeyOrder(RunState(job, s), order)
    ensures StrictlyAscending(Starts(Complete(job, s, order), k))
  {
    var t := Sub(job, s, k);
    var ks := KeyRunState(job, t);
    SubIsOneKey(job, s, k);
    CompleteProjects(job, s, order, k);
    StartsOfKey(job, Complete(job, s, order), k);
    StartsConcat(KeyRunOuts(job, t), KeyFlush(job, k, ks), k);
    StartsInvariant(job, t, k);
    FlushValues(job, k, ks, 0);
    Appended(Starts(KeyRunOuts(job, t), k), Ascending(ks.active.Keys));
  }

  /** An item is never accepted into a bucket that has been emitted, not even by the step that accepts it. */
  lemma {:induction false} EmittedBucketsStayClosed<Key, Item, Acc, Out>(
    job: Job<Key, Item, Acc, Out>, p: seq<Item>, x: Item)
    requires job.windowDuration > 0
    requires !LateAfter(job, p, x)
    ensures Values(RunOuts(job, p + [x]), job.key(x), WindowStart(job.ts(x))) == []
  {
    var k, b := job.key(x), WindowStart(job.ts(x));
    var t := Sub(job, p, k);
    var t' := t + [x];
    assert Sub(job, p + [x], k) == t' by {
      assert (p + [x])[..|p|] == p;
    }
    assert OneKey(job, t, k) && OneKey(job, t', k) by {
      SubIsOneKey(job, p, k);
    }
    RunProjects(job, p + [x], k);
    ValuesOfKey(job, RunOuts(job, p + [x]), k, b);
    BucketInvariant(job, t', k, b);
    LateAfterSub(job, p, x);
    AcceptedSnoc(job, t, x, k, b);
    TooLateIsPairwise(job, t, x);
    KeyRunSnoc(job, t, x);
    AcceptStep(job, KeyRunState(job, t), x, b);
    OwnBucketStaysOpen(job, KeyRunState(job, t').now.value, job.ts(x));
  }

  // ----- Conservation

  datatype WindowId<+Key> = WindowId(key: Key, start: nat)

  ghost function WindowIds<Key, Item, Out>(outs: seq<Emitted<Key, Item, Out>>): seq<WindowId<Key>> {
    Pick(outs, (e: Emitted<Key, Item, Out>) => if e.Window? then Some(WindowId(e.key, e.start)) else None)
  }

  /** All items aggregated by the listed windows, with multiplicity. */
  ghost function Aggregated<Key, Item, Acc, Out>(
    job: Job<Key, Item, Acc, Out>, s: seq<Item>, ids: seq<WindowId<Key>>): multiset<Item>
  {
    if ids == [] then multiset{}
    else multiset(Accepted(job, s, ids[0].key, ids[0].start)) + Aggregated(job, s, ids[1..])
  }

  lemma {:induction false} AcceptedBy<Key, Item, Acc, Out>(
    job: Job<Key, Item, Acc, Out>, p: seq<Item>, x: Item, id: WindowId<Key>)
    ensures multiset(Accepted(job, p + [x], id.key, id.start)) ==
            multiset(Accepted(job, p, id.key, id.start)) +
            if id == WindowId(job.key(x), Bucket(job, x)) && !LateAfter(job, p, x) then multiset{x} else multiset{}
  {
  }

  lemma {:induction false} AggregatedSnoc<Key, Item, Acc, Out>(
    job: Job<Key, Item, Acc, Out>, p: seq<Item>, x: Item, ids: seq<WindowId<Key>>)
    requires NoDuplicates(ids)
    ensures Aggregated(job, p + [x], ids) ==
            Aggregated(job, p, ids) +
            if WindowId(job.key(x), Bucket(job, x)) in ids && !LateAfter(job, p, x) then multiset{x} else multiset{}
  {
    if ids != [] {
      HeadAndTail(ids, WindowId(job.key(x), Bucket(job, x)));
      AggregatedSnoc(job, p, x, ids[1..]);
      AcceptedBy(job, p, x, ids[0]);
    }
  }

  ghost predicate Covers<Key, Item, Acc, Out>(job: Job<Key, Item, Acc, Out>, s: seq<Item>, ids: seq<WindowId<Key>>) {
    forall i :: 0 <= i < |s| && !LateAfter(job, s[..i], s[i]) ==> WindowId(job.key(s[i]), Bucket(job, s[i])) in ids
  }

  lemma {:induction false} CoversPrefix<Key, Item, Acc, Out>(
    job: Job<Key, Item, Acc, Out>, p: seq<Item>, x: Item, ids: seq<WindowId<Key>>)
    requires Covers(job, p + [x], ids)
    ensures Covers(job, p, ids)
    ensures !LateAfter(job, p, x) ==> WindowId(job.key(x), Bucket(job, x)) in ids
  {
    var s := p + [x];
    forall i | 0 <= i <= |p|
      ensures s[..i] == p[..i] && !LateAfter(job, p[..i], s[i]) ==> WindowId(job.key(s[i]), Bucket(job, s[i])) in ids
    {
    }
    assert s[..|p|] == p && s[|p|] == x;
  }

  lemma {:induction false} ItemsArePartitioned<Key, Item, Acc, Out>(
    job: Job<Key, Item, Acc, Out>, s: seq<Item>, ids: seq<WindowId<Key>>)
    requires NoDuplicates(ids) && Covers(job, s, ids)
    ensures multiset(s) == multiset(LateItems(job, s)) + Aggregated(job, s, ids)
  {
    if s == [] {
      AggregatedNothing(job, ids);
    } else {
      var p, x := s[..|s| - 1], s[|s| - 1];
      assert s == p + [x];
      CoversPrefix(job, p, x, ids);
      ItemsArePartitioned(job, p, ids);
      AggregatedSnoc(job, p, x, ids);
    }
  }

  lemma {:induction false} AggregatedNothing<Key, Item, Acc, Out>(
    job: Job<Key, Item, Acc, Out>, ids: seq<WindowId<Key>>)
    ensures Aggregated(job, [], ids) == multiset{}
  {
    if ids != [] {
      AggregatedNothing(job, ids[1..]);
    }
  }

  lemma {:induction false} IdsMatchValues<Key, Item, Out>(outs: seq<Emitted<Key, Item, Out>>)
    requires forall k, b :: |Values(outs, k, b)| <= 1
    ensures NoDuplicates(WindowIds(outs))
    ensures forall k, b: nat :: WindowId(k, b) in WindowIds(outs) <==> Values(outs, k, b) != []
  {
    if outs != [] {
      var e, rest := outs[0], outs[1..];
      assert outs == [e] + rest;
      forall k, b
        ensures Values(outs, k, b) ==
                (if e.Window? && e.key == k && e.start == b then [e.value] else []) + Values(rest, k, b)
      {
      }
      assert forall k, b :: |Values(rest, k, b)| <= |Values(outs, k, b)|;
      IdsMatchValues(rest);
    }
  }

  /** Every input comes out exactly once: as a late item, or in the one window that aggregates its bucket. */
  lemma {:induction false} EveryInputOnce<Key, Item, Acc, Out>(
    job: Job<Key, Item, Acc, Out>, s: seq<Item>, order: seq<Key>)
    requires job.windowDuration > 0
    requires IsKeyOrder(RunState(job, s), order)
    ensures var outs := Complete(job, s, order);
      && NoDuplicates(WindowIds(outs))
      && multiset(s) == multiset(LateOf(outs)) + Aggregated(job, s, WindowIds(outs))
  {
    IdsOfComplete(job, s, order);
    ItemsArePartitioned(job, s, WindowIds(Complete(job, s, order)));
    LatenessOnly(job, s, order);
  }

  lemma {:induction false} AtMostOneValue<Key, Item, Acc, Out>(
    job: Job<Key, Item, Acc, Out>, s: seq<Item>, order: seq<Key>)
    requires job.windowDuration > 0
    requires IsKeyOrder(RunState(job, s), order)
    ensures forall k, b :: |Values(Complete(job, s, order), k, b)| <= 1
  {
    forall k, b
      ensures |Values(Complete(job, s, order), k, b)| <= 1
    {
      StreamingRefinesBatch(job, s, order, k, b);
    }
  }

  lemma {:induction false} IdsCover<Key, Item, Acc, Out>(
    job: Job<Key, Item, Acc, Out>, s: seq<Item>, outs: seq<Emitted<Key, Item, Out>>)
    requires forall k, b :: |Values(outs, k, b)| <= 1
    requires forall i :: 0 <= i < |s| && !LateAfter(job, s[..i], s[i]) ==>
      Values(outs, job.key(s[i]), Bucket(job, s[i])) != []
    ensures NoDuplicates(WindowIds(outs)) && Covers(job, s, WindowIds(outs))
  {
    IdsMatchValues(outs);
    forall i | 0 <= i < |s| && !LateAfter(job, s[..i], s[i])
      ensures WindowId(job.key(s[i]), Bucket(job, s[i])) in WindowIds(outs)
    {
      assert Values(outs, job.key(s[i]), Bucket(job, s[i])) != [];
    }
  }

  lemma {:induction false} IdsOfComplete<Key, Item, Acc, Out>(
    job: Job<Key, Item, Acc, Out>, s: seq<Item>, order: seq<Key>)
    requires job.windowDuration > 0
    requires IsKeyOrder(RunState(job, s), order)
    ensures var ids := WindowIds(Complete(job, s, order));
      NoDuplicates(ids) && Covers(job, s, ids)
  {
    AtMostOneValue(job, s, order);
    forall i | 0 <= i < |s| && !LateAfter(job, s[..i], s[i])
      ensures Values(Complete(job, s, order), job.key(s[i]), Bucket(job, s[i])) != []
    {
      AcceptedIsEmitted(job, s, order, i);
    }
    IdsCover(job, s, Complete(job, s, order));
  }

  lemma {:induction false} AcceptedIsEmitted<Key, Item, Acc, Out>(
    job: Job<Key, Item, Acc, Out>, s: seq<Item>, order: seq<Key>, i: nat)
    requires job.windowDuration > 0
    requires IsKeyOrder(RunState(job, s), order)
    requires i < |s| && !LateAfter(job, s[..i], s[i])
    ensures Values(Complete(job, s, order), job.key(s[i]), Bucket(job, s[i])) != []
  {
    AcceptedHas(job, s, i);
    StreamingRefinesBatch(job, s, order, job.key(s[i]), Bucket(job, s[i]));
  }

  lemma {:induction false} LatenessOnly<Key, Item, Acc, Out>(
    job: Job<Key, Item, Acc, Out>, s: seq<Item>, order: seq<Key>)
    ensures LateOf(Complete(job, s, order)) == LateItems(job, s)
  {
    LatenessIsPairwise(job, s);
    FlushLate(job, RunState(job, s), order);
    LateConcat(RunOuts(job, s), FlushOuts(job, RunState(job, s), order));
  }

  lemma {:induction false} AcceptedHas<Key, Item, Acc, Out>(job: Job<Key, Item, Acc, Out>, s: seq<Item>, i: nat)
    requires i < |s| && !LateAfter(job, s[..i], s[i])
    ensures s[i] in Accepted(job, s, job.key(s[i]), Bucket(job, s[i]))
  {
    var n := |s| - 1;
    if i < n {
      assert s[..n][..i] == s[..i];
      AcceptedHas(job, s[..n], i);
    }
  }
}
