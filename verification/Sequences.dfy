/** Small vocabulary shared by the models: options, filtering and flattening of sequences, ascending enumeration. */
module Sequences {

  datatype Option<+T> = None | Some(value: T)

  function Listed<U>(u: Option<U>): seq<U> {
    match u case Some(v) => [v] case None => []
  }

  /** The defined images of `s` under `f`, in order. */
  function Pick<T, U>(s: seq<T>, f: T -> Option<U>): seq<U> {
    if s == [] then [] else Listed(f(s[0])) + Pick(s[1..], f)
  }

  lemma {:induction false} PickConcat<T, U>(s: seq<T>, t: seq<T>, f: T -> Option<U>)
    ensures Pick(s + t, f) == Pick(s, f) + Pick(t, f)
  {
    hide Listed;
    if s == [] {
      assert s + t == t;
    } else {
      PickConcat(s[1..], t, f);
      assert (s + t)[1..] == s[1..] + t && (s + t)[0] == s[0];
      var head, rest := Listed(f(s[0])), Pick(s[1..], f);
      assert head + (rest + Pick(t, f)) == (head + rest) + Pick(t, f);
    }
  }

  lemma {:induction false} PickOne<T, U>(x: T, f: T -> Option<U>)
    ensures Pick([x], f) == Listed(f(x))
  {
  }

  lemma {:induction false} PickNothing<T, U>(s: seq<T>, f: T -> Option<U>)
    requires forall x :: x in s ==> f(x).None?
    ensures Pick(s, f) == []
  {
    if s != [] {
      PickNothing(s[1..], f);
    }
  }

  function Flatten<T>(ss: seq<seq<T>>): seq<T> {
    if ss == [] then [] else ss[0] + Flatten(ss[1..])
  }

  ghost predicate StrictlyAscending(s: seq<nat>) {
    forall i, j :: 0 <= i < j < |s| ==> s[i] < s[j]
  }

  ghost predicate NoDuplicates<T>(s: seq<T>) {
    forall i, j :: 0 <= i < j < |s| ==> s[i] != s[j]
  }

  lemma {:induction false} HeadAndTail<T>(s: seq<T>, x: T)
    requires s != [] && NoDuplicates(s)
    ensures NoDuplicates(s[1..])
    ensures s[0] !in s[1..]
    ensures x in s <==> x == s[0] || x in s[1..]
  {
  }

  lemma {:induction false} HasLeast(s: set<nat>) returns (m: nat)
    requires s != {}
    ensures m in s && forall y :: y in s ==> m <= y
  {
    var x :| x in s;
    var rest := s - {x};
    if rest == {} {
      assert s == {x};
      m := x;
    } else {
      var least := HasLeast(rest);
      assert forall y :: y in s ==> y == x || y in rest;
      m := if least < x then least else x;
    }
  }

  function Least(s: set<nat>): (m: nat)
    requires s != {}
    ensures m in s && forall y :: y in s ==> m <= y
  {
    assert exists m :: m in s && forall y :: y in s ==> m <= y by {
      var m := HasLeast(s);
    }
    var m :| m in s && forall y :: y in s ==> m <= y;
    m
  }

  /** The elements of a set in ascending order, as an ordered map is iterated. */
  function Ascending(s: set<nat>): (r: seq<nat>)
    ensures forall x :: x in r <==> x in s
    ensures StrictlyAscending(r)
  {
    if s == {} then []
    else
      var m := Least(s);
      var rest := Ascending(s - {m});
      assert forall i :: 0 <= i < |rest| ==> rest[i] in rest;
      [m] + rest
  }

  /** If a property holds at first, and each step keeps it exactly if it is not bad, it holds throughout exactly if no
      step is bad. */
  lemma {:induction false} ThroughoutIff(n: nat, good: nat -> bool, bad: nat -> bool)
    requires good(0)
    requires forall k: nat :: k < n && good(k) ==> (good(k + 1) <==> !bad(k))
    ensures (forall k: nat :: k <= n ==> good(k)) <==> (forall k: nat :: k < n ==> !bad(k))
  {
    if n > 0 {
      ThroughoutIff(n - 1, good, bad);
      if forall k: nat :: k <= n ==> good(k) {
        assert good(n - 1) && good(n - 1 + 1);
        forall k: nat | k < n ensures !bad(k) {
          assert k < n - 1 || k == n - 1;
        }
      }
      if forall k: nat :: k < n ==> !bad(k) {
        assert good(n - 1) && good(n - 1 + 1);
        forall k: nat | k <= n ensures good(k) {
          assert k <= n - 1 || k == n - 1 + 1;
        }
      }
    }
  }

  /** If a property is there after a step exactly if the step gives it, or it was there and the step does not take it,
      then it is there at the end exactly if some step gave it and no later one took it. */
  lemma {:induction false} SinceIff(n: nat, has: nat -> bool, gives: nat -> bool, takes: nat -> bool)
    requires !has(0)
    requires forall k: nat :: k < n ==> (has(k + 1) <==> gives(k) || (has(k) && !takes(k)))
    ensures has(n) <==> exists i: nat :: i < n && gives(i) && forall j: nat :: i < j < n ==> !takes(j)
  {
    if n > 0 {
      var m := n - 1;
      SinceIff(m, has, gives, takes);
      assert has(m + 1) <==> gives(m) || (has(m) && !takes(m));
      if gives(m) {
        assert m < n && gives(m);
      } else if has(m) && !takes(m) {
        var i: nat :| i < m && gives(i) && forall j: nat :: i < j < m ==> !takes(j);
        forall j: nat | i < j < n ensures !takes(j) {
          assert j < m || j == m;
        }
      }
    }
  }

  lemma {:induction false} WithoutOne<T>(s: seq<T>, i: nat)
    requires i < |s|
    ensures s == s[..i] + [s[i]] + s[i + 1..]
    ensures multiset(s[..i] + s[i + 1..]) == multiset(s) - multiset{s[i]}
  {
    assert s == s[..i] + [s[i]] + s[i + 1..];
    assert multiset(s) == multiset(s[..i]) + multiset{s[i]} + multiset(s[i + 1..]);
  }

  // ----- Positions in a list of lists

  predicate IsAt<T>(ss: seq<seq<T>>, i: nat, j: nat) {
    i < |ss| && j < |ss[i]|
  }

  predicate Precedes(i: nat, j: nat, i': nat, j': nat) {
    i < i' || (i == i' && j < j')
  }

  lemma {:induction false} FlattenedAt<T>(ss: seq<seq<T>>, i: nat, j: nat)
    requires IsAt(ss, i, j)
    ensures ss[i][j] in Flatten(ss)
  {
    if i > 0 {
      FlattenedAt(ss[1..], i - 1, j);
    }
  }

  lemma {:induction false} PositionOf<T>(ss: seq<seq<T>>, x: T) returns (i: nat, j: nat)
    requires x in Flatten(ss)
    ensures IsAt(ss, i, j) && ss[i][j] == x
  {
    if x in ss[0] {
      i := 0;
      j :| j < |ss[0]| && ss[0][j] == x;
    } else {
      i, j := PositionOf(ss[1..], x);
      i := i + 1;
    }
  }

  lemma {:induction false} FirstOf<T, U>(s: seq<T>, f: T -> Option<U>) returns (j: nat)
    requires Pick(s, f) != []
    ensures j < |s| && f(s[j]) == Some(Pick(s, f)[0]) && forall k :: 0 <= k < j ==> f(s[k]).None?
  {
    if f(s[0]).Some? {
      j := 0;
    } else {
      j := FirstOf(s[1..], f);
      j := j + 1;
    }
  }

  lemma {:induction false} NoneOf<T, U>(s: seq<T>, f: T -> Option<U>)
    requires Pick(s, f) == []
    ensures forall k :: 0 <= k < |s| ==> f(s[k]).None?
  {
    if s != [] {
      NoneOf(s[1..], f);
    }
  }

  lemma {:induction false} LastOf<T, U>(s: seq<T>, f: T -> Option<U>) returns (j: nat)
    requires Pick(s, f) != []
    ensures j < |s| && f(s[j]) == Some(Pick(s, f)[|Pick(s, f)| - 1]) && forall k :: j < k < |s| ==> f(s[k]).None?
  {
    if Pick(s[1..], f) == [] {
      NoneOf(s[1..], f);
      j := 0;
    } else {
      j := LastOf(s[1..], f);
      j := j + 1;
    }
  }

  lemma {:induction false} PickedFrom<T, U>(s: seq<T>, f: T -> Option<U>, u: U) returns (x: T)
    requires u in Pick(s, f)
    ensures x in s && f(x) == Some(u)
  {
    if f(s[0]) == Some(u) {
      x := s[0];
    } else {
      x := PickedFrom(s[1..], f, u);
    }
  }

  lemma {:induction false} PickedInto<T, U>(s: seq<T>, f: T -> Option<U>, x: T)
    requires x in s && f(x).Some?
    ensures f(x).value in Pick(s, f)
  {
    if x != s[0] {
      assert s == [s[0]] + s[1..];
      PickedInto(s[1..], f, x);
    }
  }

  ghost predicate IsFirstAt<T, U>(ss: seq<seq<T>>, f: T -> Option<U>, i: nat, j: nat) {
    && IsAt(ss, i, j) && f(ss[i][j]).Some?
    && forall i': nat, j': nat :: IsAt(ss, i', j') && Precedes(i', j', i, j) ==> f(ss[i'][j']).None?
  }

  ghost predicate IsLastAt<T, U>(ss: seq<seq<T>>, f: T -> Option<U>, i: nat, j: nat) {
    && IsAt(ss, i, j) && f(ss[i][j]).Some?
    && forall i': nat, j': nat :: IsAt(ss, i', j') && Precedes(i, j, i', j') ==> f(ss[i'][j']).None?
  }

  /** The first defined image of a flattened list is the one at the first position that has one. */
  lemma {:induction false} FirstPicked<T, U>(ss: seq<seq<T>>, f: T -> Option<U>) returns (i: nat, j: nat)
    requires Pick(Flatten(ss), f) != []
    ensures IsFirstAt(ss, f, i, j) && f(ss[i][j]) == Some(Pick(Flatten(ss), f)[0])
  {
    PickConcat(ss[0], Flatten(ss[1..]), f);
    if Pick(ss[0], f) != [] {
      i := 0;
      j := FirstOf(ss[0], f);
    } else {
      NoneOf(ss[0], f);
      i, j := FirstPicked(ss[1..], f);
      forall i': nat, j': nat | IsAt(ss, i', j') && Precedes(i', j', i + 1, j) ensures f(ss[i'][j']).None? {
        if i' > 0 {
          assert IsAt(ss[1..], i' - 1, j') && Precedes(i' - 1, j', i, j);
        }
      }
      i := i + 1;
    }
  }

  lemma {:induction false} LastPicked<T, U>(ss: seq<seq<T>>, f: T -> Option<U>) returns (i: nat, j: nat)
    requires Pick(Flatten(ss), f) != []
    ensures IsLastAt(ss, f, i, j) && f(ss[i][j]) == Some(Pick(Flatten(ss), f)[|Pick(Flatten(ss), f)| - 1])
  {
    hide Pick;
    assert ss != [] by { PickedNothing(f); }
    var head, tail := Pick(ss[0], f), Pick(Flatten(ss[1..]), f);
    assert Pick(Flatten(ss), f) == head + tail by { PickConcat(ss[0], Flatten(ss[1..]), f); }
    if tail == [] {
      assert head + tail == head;
      i := 0;
      j := LastOf(ss[0], f);
      forall i': nat, j': nat | IsAt(ss, i', j') && Precedes(0, j, i', j') ensures f(ss[i'][j']).None? {
        if i' > 0 {
          NothingPicked(ss[1..], f, i' - 1, j');
        }
      }
    } else {
      i, j := LastPicked(ss[1..], f);
      LaterPicked(ss, f, i, j);
      i := i + 1;
    }
  }

  lemma {:induction false} PickedNothing<T, U>(f: T -> Option<U>)
    ensures Pick([], f) == []
  {
  }

  lemma {:induction false} LaterPicked<T, U>(ss: seq<seq<T>>, f: T -> Option<U>, i: nat, j: nat)
    requires ss != [] && IsLastAt(ss[1..], f, i, j)
    ensures IsLastAt(ss, f, i + 1, j)
  {
    forall i': nat, j': nat | IsAt(ss, i', j') && Precedes(i + 1, j, i', j') ensures f(ss[i'][j']).None? {
      assert IsAt(ss[1..], i' - 1, j') && Precedes(i, j, i' - 1, j');
    }
  }

  lemma {:induction false} NothingPicked<T, U>(ss: seq<seq<T>>, f: T -> Option<U>, i: nat, j: nat)
    requires Pick(Flatten(ss), f) == [] && IsAt(ss, i, j)
    ensures f(ss[i][j]).None?
  {
    FlattenedAt(ss, i, j);
    NoneOf(Flatten(ss), f);
  }

  lemma {:induction false} FirstIsUnique<T, U>(ss: seq<seq<T>>, f: T -> Option<U>, i: nat, j: nat, i': nat, j': nat)
    requires IsFirstAt(ss, f, i, j) && IsFirstAt(ss, f, i', j')
    ensures i == i' && j == j'
  {
    assert !Precedes(i, j, i', j') && !Precedes(i', j', i, j);
  }

  lemma {:induction false} LastIsUnique<T, U>(ss: seq<seq<T>>, f: T -> Option<U>, i: nat, j: nat, i': nat, j': nat)
    requires IsLastAt(ss, f, i, j) && IsLastAt(ss, f, i', j')
    ensures i == i' && j == j'
  {
    assert !Precedes(i, j, i', j') && !Precedes(i', j', i, j);
  }
}
