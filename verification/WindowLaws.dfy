/** Further laws of windowed aggregation: bounded state, the exact role of the window duration, and
    independence of the arrival order. */
module WindowLaws {
  import opened Sequences
  import opened WindowSpec
  import opened WindowTheory
  import opened WindowTheorems

  // ----- Bounded state

  function CeilDiv(a: nat, b: nat): (q: nat)
    requires b > 0
    ensures a <= q * b < a + b
  {
    (a + b - 1) / b
  }

  /** At most `n` minute starts fit into an interval of `n` minutes. */
  lemma {:induction false} MinutesInInterval(s: set<nat>, lo: int, n: nat)
    requires forall x :: x in s ==> lo < x <= lo + n * MINUTE && x % MINUTE == 0
    ensures |s| <= n
  {
    if n == 0 {
      assert s == {};
    } else {
      var top := set x | x in s && lo + (n - 1) * MINUTE < x;
      var rest := s - top;
      MinutesInInterval(rest, lo, n - 1);
      assert s == rest + top;
      AtMostOne(top, lo + (n - 1) * MINUTE);
    }
  }

  lemma {:induction false} AtMostOne(s: set<nat>, lo: int)
    requires forall x :: x in s ==> lo < x <= lo + MINUTE && x % MINUTE == 0
    ensures |s| <= 1
  {
    if s != {} {
      var x :| x in s;
      forall y | y in s
        ensures y == x
      {
      }
      assert s == {x};
    }
  }

  ghost predicate InExtent<Key, Item, Acc, Out>(job: Job<Key, Item, Acc, Out>, now: nat, b: nat) {
    WindowStart(now - job.lateness) - job.windowDuration < b <= WindowStart(now) && b % MINUTE == 0
  }

  /** After every stream, a key holds at most ceil(lateness) + ceil(duration) windows, in minutes. All of them start
      less than the duration before the minute of the current time less the lateness, and none after the current
      minute. */
  lemma {:induction false} StateIsBounded<Key, Item, Acc, Out>(job: Job<Key, Item, Acc, Out>, s: seq<Item>, k: Key)
    requires job.windowDuration > 0
    ensures var ks := KeyView(RunState(job, s), k);
      && (ks.now.None? ==> ks.active == map[])
      && (forall b :: b in ks.active ==> InExtent(job, ks.now.value, b))
      && |ks.active| <= CeilDiv(job.lateness, MINUTE) + CeilDiv(job.windowDuration, MINUTE)
  {
    hide StartsSettled, InExtent, CeilDiv, KeyStep;
    var t := Sub(job, s, k);
    assert OneKey(job, t, k) by { SubIsOneKey(job, s, k); }
    RunProjects(job, s, k);
    StartsInvariant(job, t, k);
    KeyIsBounded(job, KeyRunState(job, t), Starts(KeyRunOuts(job, t), k));
  }

  lemma {:induction false} KeyIsBounded<Key, Item, Acc, Out>(
    job: Job<Key, Item, Acc, Out>, ks: KeyState<Acc>, starts: seq<nat>)
    requires StartsSettled(job, ks, starts)
    ensures ks.now.None? ==> ks.active == map[]
    ensures forall b :: b in ks.active ==> InExtent(job, ks.now.value, b)
    ensures |ks.active| <= CeilDiv(job.lateness, MINUTE) + CeilDiv(job.windowDuration, MINUTE)
  {
    if ks.now.Some? {
      FloorDistance(ks.now.value, job.lateness);
      MinutesInInterval(ks.active.Keys, Cutoff(job, ks.now.value),
                        CeilDiv(job.lateness, MINUTE) + CeilDiv(job.windowDuration, MINUTE));
      assert |ks.active| == |ks.active.Keys|;
    }
  }

  lemma {:induction false} FloorDistance(now: nat, lateness: nat)
    ensures WindowStart(now) - WindowStart(now - lateness) <= CeilDiv(lateness, MINUTE) * MINUTE
  {
  }

  // ----- When windows are emitted

  /** The time of a key, less the lateness, is in a minute that starts a window duration or more after `b`. */
  ghost predicate IsPast<Key, Item, Acc, Out>(job: Job<Key, Item, Acc, Out>, s: seq<Item>, k: Key, b: nat) {
    exists y :: y in s && job.key(y) == k && WindowStart(job.ts(y) - job.lateness) >= b + job.windowDuration
  }

  lemma {:induction false} StartsMatchValues<Key, Item, Out>(outs: seq<Emitted<Key, Item, Out>>, k: Key, b: nat)
    ensures b in Starts(outs, k) <==> Values(outs, k, b) != []
  {
    if outs != [] {
      var e, rest := outs[0], outs[1..];
      StartsMatchValues(rest, k, b);
      assert outs == [e] + rest;
    }
  }

  lemma {:induction false} PastIsCutOff<Key, Item, Acc, Out>(
    job: Job<Key, Item, Acc, Out>, s: seq<Item>, k: Key, now: nat, b: nat)
    requires IsLatest(job, Sub(job, s, k), now)
    ensures IsPast(job, s, k, b) <==> b <= Cutoff(job, now)
  {
    hide Sub, WindowStart;
    SubIsOneKey(job, s, k);
    var last :| last in Sub(job, s, k) && job.ts(last) == now;
    if y :| y in s && job.key(y) == k && WindowStart(job.ts(y) - job.lateness) >= b + job.windowDuration {
      assert y in Sub(job, s, k);
      FloorGrows(job.ts(y) - job.lateness, now - job.lateness);
    }
  }

  /** While a stream is processed, a bucket has been emitted exactly if it has accepted items and is past; and then with
      all of them. */
  lemma {:induction false} EmittedIffPast<Key, Item, Acc, Out>(
    job: Job<Key, Item, Acc, Out>, s: seq<Item>, k: Key, b: nat)
    requires job.windowDuration > 0
    ensures b in Starts(RunOuts(job, s), k) <==> Accepted(job, s, k, b) != [] && IsPast(job, s, k, b)
    ensures Values(RunOuts(job, s), k, b) == if IsPast(job, s, k, b) then BatchValues(job, s, k, b) else []
  {
    hide IsPast, IsLatest;
    var t := Sub(job, s, k);
    assert OneKey(job, t, k) by { SubIsOneKey(job, s, k); }
    RunProjects(job, s, k);
    ValuesOfKey(job, RunOuts(job, s), k, b);
    StartsMatchValues(RunOuts(job, s), k, b);
    BucketInvariant(job, t, k, b);
    AcceptedOfSub(job, s, k, b);
    NowIsLatest(job, t);
    if t != [] {
      PastIsCutOff(job, s, k, KeyRunState(job, t).now.value, b);
    }
  }

  /** With any duration, an accepted item emits exactly the windows it finds or fills that are past by then, and leaves
      the others. */
  lemma {:induction false} StepEmitsIff<Key, Item, Acc, Out>(
    job: Job<Key, Item, Acc, Out>, p: seq<Item>, x: Item, b: nat)
    requires !LateAfter(job, p, x)
    ensures var k := job.key(x);
      var (st, outs) := Step(job, RunState(job, p), x);
      var open := b in KeyView(RunState(job, p), k).active || b == WindowStart(job.ts(x));
      && (b in Starts(outs, k) <==> open && IsPast(job, p + [x], k, b))
      && (b in KeyView(st, k).active <==> open && !IsPast(job, p + [x], k, b))
  {
    hide IsPast, IsLatest;
    var k := job.key(x);
    var ks := KeyView(RunState(job, p), k);
    TooLateInRun(job, p, x);
    AcceptStep(job, ks, x, b);
    StepProjects(job, RunState(job, p), x, k);
    LatenessIsPairwise(job, p + [x]);
    RunSnoc(job, p, x);
    PastIsCutOff(job, p + [x], k, KeyStep(job, ks, x).0.now.value, b);
  }

  // ----- The role of the duration

  /** A plain timestamped sample of one key, aggregated into the list of its samples. */
  datatype Sample = Sample(id: nat, at: nat)

  function Collecting(windowDuration: nat, lateness: nat): Job<nat, Sample, seq<Sample>, seq<Sample>> {
    Job((x: Sample) => x.id, (x: Sample) => x.at, [], (acc: seq<Sample>, x: Sample) => acc + [x],
        (acc: seq<Sample>) => acc, windowDuration, lateness)
  }

  ghost predicate EmitsOnce(windowDuration: nat, lateness: nat) {
    forall s, k, b :: |Values(RunOuts(Collecting(windowDuration, lateness), s), k, b)| <= 1
  }

  /** Whenever the duration is zero, an item on the edge of the allowed lateness closes its own bucket: pushing it
      again re-creates the bucket and emits it a second time. */
  lemma {:induction false} ZeroDurationEmitsTwice(lateness: nat)
    ensures var s := [Sample(0, 0), Sample(0, lateness), Sample(0, 0), Sample(0, 0)];
      |Values(RunOuts(Collecting(0, lateness), s), 0, 0)| >= 2
  {
    var job := Collecting(0, lateness);
    var x, y := Sample(0, 0), Sample(0, lateness);
    var p := [x, y];
    var q := p + [x];
    RunSnoc(job, p, x);
    RunSnoc(job, q, x);
    assert q + [x] == [x, y, x, x];
    NowAfterTwo(lateness);
    ReemitsEdge(lateness, p);
    assert KeyView(RunState(job, q), 0).now == Some(lateness);
    ReemitsEdge(lateness, q);
    ValuesConcat(RunOuts(job, p), Step(job, RunState(job, p), x).1, 0, 0);
    ValuesConcat(RunOuts(job, q), Step(job, RunState(job, q), x).1, 0, 0);
  }

  lemma {:induction false} NowAfterTwo(lateness: nat)
    ensures KeyView(RunState(Collecting(0, lateness), [Sample(0, 0), Sample(0, lateness)]), 0).now == Some(lateness)
  {
    var job := Collecting(0, lateness);
    var p := [Sample(0, 0), Sample(0, lateness)];
    SubIsAll(job, p, 0);
    RunProjects(job, p, 0);
    NowIsLatest(job, p);
    assert p[0] in p && p[1] in p;
  }

  lemma {:induction false} ReemitsEdge(lateness: nat, p: seq<Sample>)
    requires KeyView(RunState(Collecting(0, lateness), p), 0).now == Some(lateness)
    ensures var job := Collecting(0, lateness);
      var (st, outs) := Step(job, RunState(job, p), Sample(0, 0));
      && KeyView(st, 0).now == Some(lateness)
      && |Values(outs, 0, 0)| == 1
  {
    var job := Collecting(0, lateness);
    AcceptStep(job, KeyView(RunState(job, p), 0), Sample(0, 0), 0);
  }

  /** Each bucket is emitted at most once on every stream if and only if the window duration is positive. */
  lemma {:induction false} EmitsOnceIffPositiveDuration(windowDuration: nat, lateness: nat)
    ensures EmitsOnce(windowDuration, lateness) <==> windowDuration > 0
  {
    var job := Collecting(windowDuration, lateness);
    if windowDuration == 0 {
      ZeroDurationEmitsTwice(lateness);
    } else {
      forall s, k, b
        ensures |Values(RunOuts(job, s), k, b)| <= 1
      {
        var t := Sub(job, s, k);
        SubIsOneKey(job, s, k);
        RunProjects(job, s, k);
        ValuesOfKey(job, RunOuts(job, s), k, b);
        BucketInvariant(job, t, k, b);
      }
    }
  }

  // ----- Arrival order

  ghost predicate Commutes<Key, Item(!new), Acc(!new), Out>(job: Job<Key, Item, Acc, Out>) {
    forall a, x, y :: job.push(job.push(a, x), y) == job.push(job.push(a, y), x)
  }

  lemma {:induction false} FoldMoves<Key, Item(!new), Acc(!new), Out>(
    job: Job<Key, Item, Acc, Out>, a: seq<Item>, x: Item, b: seq<Item>)
    requires Commutes(job)
    ensures Fold(job, a + [x] + b) == job.push(Fold(job, a + b), x)
  {
    if b == [] {
      assert a + [x] + b == a + [x] && a + b == a;
      FoldSnoc(job, a, x);
    } else {
      var c, y := b[..|b| - 1], b[|b| - 1];
      assert b == c + [y];
      FoldMoves(job, a, x, c);
      assert a + [x] + b == (a + [x] + c) + [y] && a + b == (a + c) + [y];
      FoldSnoc(job, a + [x] + c, y);
      FoldSnoc(job, a + c, y);
    }
  }

  /** A commuting aggregation does not see the order of its items. */
  lemma {:induction false} FoldPermutes<Key, Item(!new), Acc(!new), Out>(
    job: Job<Key, Item, Acc, Out>, s: seq<Item>, t: seq<Item>)
    requires Commutes(job)
    requires multiset(s) == multiset(t)
    ensures Fold(job, s) == Fold(job, t)
  {
    if s == [] {
      assert |multiset(t)| == 0;
      assert t == [];
    } else {
      var p, x := s[..|s| - 1], s[|s| - 1];
      assert s == p + [x];
      assert x in multiset(t);
      var i: nat :| i < |t| && t[i] == x;
      var a, b := t[..i], t[i + 1..];
      WithoutOne(t, i);
      WithoutOne(s, |s| - 1);
      assert s[..|s| - 1] + s[|s|..] == p;
      FoldPermutes(job, p, a + b);
      FoldMoves(job, a, x, b);
      FoldSnoc(job, p, x);
    }
  }

  lemma {:induction false} AcceptedWithoutLate<Key, Item, Acc, Out>(
    job: Job<Key, Item, Acc, Out>, s: seq<Item>, k: Key, b: nat, z: Item)
    requires LateItems(job, s) == []
    ensures multiset(Accepted(job, s, k, b))[z] ==
            if job.key(z) == k && Bucket(job, z) == b then multiset(s)[z] else 0
  {
    if s != [] {
      var p, x := s[..|s| - 1], s[|s| - 1];
      assert s == p + [x];
      AcceptedWithoutLate(job, p, k, b, z);
      AcceptedSnoc(job, p, x, k, b);
    }
  }

  /** Two arrival orders of the same items, neither of which makes an item late, give the same final windows. */
  lemma {:induction false} ArrivalOrderIsIrrelevant<Key, Item(!new), Acc(!new), Out>(
    job: Job<Key, Item, Acc, Out>, s: seq<Item>, t: seq<Item>, orderS: seq<Key>, orderT: seq<Key>, k: Key, b: nat)
    requires job.windowDuration > 0 && Commutes(job)
    requires multiset(s) == multiset(t)
    requires LateItems(job, s) == [] && LateItems(job, t) == []
    requires IsKeyOrder(RunState(job, s), orderS) && IsKeyOrder(RunState(job, t), orderT)
    ensures Values(Complete(job, s, orderS), k, b) == Values(Complete(job, t, orderT), k, b)
  {
    StreamingRefinesBatch(job, s, orderS, k, b);
    StreamingRefinesBatch(job, t, orderT, k, b);
    BatchIgnoresOrder(job, s, t, k, b);
  }

  lemma {:induction false} BatchIgnoresOrder<Key, Item(!new), Acc(!new), Out>(
    job: Job<Key, Item, Acc, Out>, s: seq<Item>, t: seq<Item>, k: Key, b: nat)
    requires Commutes(job)
    requires multiset(s) == multiset(t)
    requires LateItems(job, s) == [] && LateItems(job, t) == []
    ensures BatchValues(job, s, k, b) == BatchValues(job, t, k, b)
  {
    var x, y := Accepted(job, s, k, b), Accepted(job, t, k, b);
    forall z
      ensures multiset(x)[z] == multiset(y)[z]
    {
      AcceptedWithoutLate(job, s, k, b, z);
      AcceptedWithoutLate(job, t, k, b, z);
    }
    assert multiset(x) == multiset(y);
    assert |x| == |multiset(x)| == |multiset(y)| == |y|;
    FoldPermutes(job, x, y);
  }
}
