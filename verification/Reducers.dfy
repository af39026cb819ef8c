/** Field reducers of flow aggregation: in-place accumulation of one optional vector into another. */
module Reducers {
  import opened Sequences
  import opened WindowSpec
  import opened WindowTheorems
  import opened WindowLaws

  datatype AggrOp = Key(indices: Option<seq<nat>>) | Add | Min | Max | BoolMapOr

  datatype Outcome = Ok | OperationNotSupported

  type Field<T> = Option<seq<T>>

  // ----- Specification

  /** Element-wise combination; the tail of the longer vector is kept. */
  function Zip<T>(op: (T, T) -> T, a: seq<T>, b: seq<T>): seq<T> {
    seq(if |a| < |b| then |b| else |a|, i requires 0 <= i && (i < |a| || i < |b|) =>
      if i < |a| && i < |b| then op(a[i], b[i]) else if i < |a| then a[i] else b[i])
  }

  /** Accumulates `rhs` into `lhs`; a missing vector is neutral. */
  function Merge<T>(op: (T, T) -> T, lhs: Field<T>, rhs: Field<T>): Field<T> {
    match (lhs, rhs)
    case (None, _) => rhs
    case (Some(_), None) => lhs
    case (Some(a), Some(b)) => Some(Zip(op, a, b))
  }

  /** The elements of `v` at the indices that exist in it. */
  function Select<T>(v: seq<T>, indices: seq<nat>): seq<T> {
    Pick(indices, (i: nat) => if i < |v| then Some(v[i]) else None)
  }

  lemma {:induction false} SelectNext<T>(v: seq<T>, indices: seq<nat>, i: nat)
    requires i < |indices|
    ensures Select(v, indices[..i + 1]) == Select(v, indices[..i]) + if indices[i] < |v| then [v[indices[i]]] else []
  {
    var f := (i: nat) => if i < |v| then Some(v[i]) else None;
    assert indices[..i + 1] == indices[..i] + [indices[i]];
    PickConcat(indices[..i], [indices[i]], f);
  }

  /** Overwrites `lhs`: with all of `rhs`, or with the selected elements if `rhs` is present. */
  function SetField<T>(lhs: Field<T>, rhs: Field<T>, indices: Option<seq<nat>>): Field<T> {
    match indices
    case None => rhs
    case Some(idxs) =>
      if rhs.None? then lhs
      else
        var res := Select(rhs.value, idxs);
        if res == [] then None else Some(res)
  }

  /** Unsigned addition that wraps at `modulus`, as `+=` does on a fixed-width integer in a release build. */
  function Wrap(x: nat, modulus: nat): nat
    requires modulus > 0
  {
    x % modulus
  }

  function AddWrapping(modulus: nat): (nat, nat) -> nat
    requires modulus > 0
  {
    (a: nat, b: nat) => Wrap(a + b, modulus)
  }

  function NumOp(op: AggrOp, modulus: nat): (nat, nat) -> nat
    requires modulus > 0
  {
    match op
    case Add => AddWrapping(modulus)
    case Min => (a: nat, b: nat) => if a <= b then a else b
    case _ => (a: nat, b: nat) => if a <= b then b else a
  }

  function BitOr(): (bv64, bv64) -> bv64 {
    (a: bv64, b: bv64) => a | b
  }

  function ReducedNum(op: AggrOp, modulus: nat, lhs: Field<nat>, rhs: Field<nat>): Field<nat>
    requires modulus > 0
  {
    match op
    case Key(indices) => SetField(lhs, rhs, indices)
    case BoolMapOr => lhs
    case _ => Merge(NumOp(op, modulus), lhs, rhs)
  }

  function ReducedBoolMap(op: AggrOp, lhs: Field<bv64>, rhs: Field<bv64>): Field<bv64> {
    match op
    case Key(indices) => SetField(lhs, rhs, indices)
    case BoolMapOr => Merge(BitOr(), lhs, rhs)
    case _ => lhs
  }

  // ----- In place

  /** A field of the accumulated record, updated in place. */
  class Cell<T> {
    var value: Field<T>

    constructor ()
      ensures value == None
    {
      value := None;
    }

    /** The common shape of the accumulating reducers, with the element operation as a parameter. */
    method Accumulate(op: (T, T) -> T, rhs: Field<T>)
      modifies this
      ensures value == Merge(op, old(value), rhs)
    {
      if value.None? {
        value := rhs;
      } else if rhs.Some? {
        ghost var a := value.value;
        var b := rhs.value;
        var lhs := value.value;
        for i := 0 to if |lhs| < |b| then |lhs| else |b|
          invariant |lhs| == |a|
          invariant forall j :: 0 <= j < |a| ==> lhs[j] == if j < i then op(a[j], b[j]) else a[j]
        {
          lhs := lhs[i := op(lhs[i], b[i])];
        }
        if |b| > |lhs| {
          ghost var zipped := lhs;
          for i := |lhs| to |b|
            invariant lhs == zipped + b[|a|..i]
          {
            lhs := lhs + [b[i]];
          }
        }
        assert lhs == Zip(op, a, b);
        value := Some(lhs);
      }
    }

    method Set(rhs: Field<T>, indices: Option<seq<nat>>)
      modifies this
      ensures value == SetField(old(value), rhs, indices)
    {
      match indices {
        case Some(idxs) =>
          if rhs.Some? {
            var values, res := rhs.value, [];
            for i := 0 to |idxs|
              invariant res == Select(values, idxs[..i])
            {
              SelectNext(values, idxs, i);
              if idxs[i] < |values| {
                res := res + [values[idxs[i]]];
              }
            }
            assert idxs[..|idxs|] == idxs;
            value := if |res| == 0 then None else Some(res);
          }
        case None =>
          value := rhs;
      }
    }
  }

  method ReduceNum(lhs: Cell<nat>, rhs: Field<nat>, op: AggrOp, modulus: nat) returns (r: Outcome)
    requires modulus > 0
    modifies lhs
    ensures r.OperationNotSupported? <==> op.BoolMapOr?
    ensures r.OperationNotSupported? ==> lhs.value == old(lhs.value)
    ensures lhs.value == ReducedNum(op, modulus, old(lhs.value), rhs)
  {
    r := Ok;
    match op {
      case Key(indices) => lhs.Set(rhs, indices);
      case BoolMapOr => r := OperationNotSupported;
      case _ => lhs.Accumulate(NumOp(op, modulus), rhs);
    }
  }

  method ReduceBoolMap(lhs: Cell<bv64>, rhs: Field<bv64>, op: AggrOp) returns (r: Outcome)
    modifies lhs
    ensures r.OperationNotSupported? <==> op.Add? || op.Min? || op.Max?
    ensures r.OperationNotSupported? ==> lhs.value == old(lhs.value)
    ensures lhs.value == ReducedBoolMap(op, old(lhs.value), rhs)
  {
    r := Ok;
    match op {
      case Key(indices) => lhs.Set(rhs, indices);
      case BoolMapOr => lhs.Accumulate(BitOr(), rhs);
      case _ => r := OperationNotSupported;
    }
  }

  // ----- Order does not matter

  ghost predicate Commutative<T(!new)>(op: (T, T) -> T) {
    forall a, b :: op(a, b) == op(b, a)
  }

  ghost predicate Associative<T(!new)>(op: (T, T) -> T) {
    forall a, b, c :: op(op(a, b), c) == op(a, op(b, c))
  }

  lemma {:induction false} NumOpsAreCommutative(op: AggrOp, modulus: nat)
    requires modulus > 0 && (op.Add? || op.Min? || op.Max?)
    ensures Commutative(NumOp(op, modulus)) && Associative(NumOp(op, modulus))
  {
    hide Wrap;
    var f := NumOp(op, modulus);
    assert forall a: nat, b: nat :: f(a, b) == f(b, a);
    if op.Add? {
      forall a: nat, b: nat, c: nat
        ensures f(f(a, b), c) == f(a, f(b, c))
      {
        AddAssociates(a, b, c, modulus);
      }
    }
  }

  lemma {:induction false} AddAssociates(a: nat, b: nat, c: nat, m: nat)
    requires m > 0
    ensures Wrap(Wrap(a + b, m) + c, m) == Wrap(a + Wrap(b + c, m), m)
  {
    hide Wrap;
    ModAbsorbs(a + b, c, m);
    ModAbsorbs(b + c, a, m);
  }

  lemma {:induction false} ModAbsorbs(a: nat, b: nat, m: nat)
    requires m > 0
    ensures Wrap(Wrap(a, m) + b, m) == Wrap(a + b, m)
  {
    var x := a % m + b;
    assert a == a / m * m + a % m;
    assert x == x / m * m + x % m;
    assert a + b == (a / m + x / m) * m + x % m;
    RemainderIsUnique(a + b, a / m + x / m, x % m, m);
  }

  lemma {:induction false} RemainderIsUnique(x: nat, q: nat, r: nat, m: nat)
    requires x == q * m + r && r < m
    ensures x % m == r
  {
    var q', r' := x / m, x % m;
    assert x == q' * m + r';
    assert (q - q') * m == r' - r;
    if q > q' {
      AtLeastOnce(q - q', m);
    } else if q < q' {
      AtLeastOnce(q' - q, m);
    }
  }

  lemma {:induction false} AtLeastOnce(k: nat, m: nat)
    requires k >= 1
    ensures k * m >= m
  {
  }

  lemma {:induction false} BitOrIsCommutative()
    ensures Commutative(BitOr()) && Associative(BitOr())
  {
  }

  /** Accumulating two vectors one after the other gives the same in both orders. */
  lemma {:induction false} MergesCommute<T(!new)>(op: (T, T) -> T, a: Field<T>, x: Field<T>, y: Field<T>)
    requires Commutative(op) && Associative(op)
    ensures Merge(op, Merge(op, a, x), y) == Merge(op, Merge(op, a, y), x)
  {
    if a.Some? && x.Some? && y.Some? {
      ZipsCommute(op, a.value, x.value, y.value);
    } else if x.Some? && y.Some? {
      assert Zip(op, x.value, y.value) == Zip(op, y.value, x.value);
    }
  }

  lemma {:induction false} ZipsCommute<T(!new)>(op: (T, T) -> T, a: seq<T>, x: seq<T>, y: seq<T>)
    requires Commutative(op) && Associative(op)
    ensures Zip(op, Zip(op, a, x), y) == Zip(op, Zip(op, a, y), x)
  {
  }

  // ----- What a fold computes

  ghost function MergeAll<T>(op: (T, T) -> T, vs: seq<Field<T>>): Field<T> {
    if vs == [] then None else Merge(op, MergeAll(op, vs[..|vs| - 1]), vs[|vs| - 1])
  }

  /** Column `i` of the vectors that reach that far. */
  ghost function Column<T>(vs: seq<Field<T>>, i: nat): seq<T> {
    if vs == [] then []
    else
      var v := vs[|vs| - 1];
      Column(vs[..|vs| - 1], i) + if v.Some? && i < |v.value| then [v.value[i]] else []
  }

  ghost function Reduce<T>(op: (T, T) -> T, xs: seq<T>): T
    requires xs != []
  {
    if |xs| == 1 then xs[0] else op(Reduce(op, xs[..|xs| - 1]), xs[|xs| - 1])
  }

  lemma {:induction false} ReduceSnoc<T>(op: (T, T) -> T, xs: seq<T>, x: T)
    ensures Reduce(op, xs + [x]) == if xs == [] then x else op(Reduce(op, xs), x)
  {
  }

  ghost function LongestLength<T>(vs: seq<Field<T>>): nat {
    if vs == [] then 0
    else
      var n, v := LongestLength(vs[..|vs| - 1]), vs[|vs| - 1];
      if v.Some? && n < |v.value| then |v.value| else n
  }

  ghost predicate SomePresent<T>(vs: seq<Field<T>>) {
    exists i :: 0 <= i < |vs| && vs[i].Some?
  }

  lemma {:induction false} PresentSnoc<T>(vs: seq<Field<T>>)
    requires vs != []
    ensures SomePresent(vs) <==> SomePresent(vs[..|vs| - 1]) || vs[|vs| - 1].Some?
  {
    var p := vs[..|vs| - 1];
    if SomePresent(p) {
      var i :| 0 <= i < |p| && p[i].Some?;
      assert vs[i].Some?;
    }
  }

  ghost predicate HasElement<T>(v: Field<T>, i: nat) {
    v.Some? && i < |v.value|
  }

  /** Element `i` of `v` is what column `i` reduces to, and `v` reaches that far exactly if there is such a column. */
  ghost predicate IsReduced<T>(op: (T, T) -> T, v: Field<T>, i: nat, column: seq<T>) {
    if HasElement(v, i) then column != [] && v.value[i] == Reduce(op, column) else column == []
  }

  lemma {:induction false} MergeReduces<T>(op: (T, T) -> T, v: Field<T>, w: Field<T>, i: nat, column: seq<T>)
    requires IsReduced(op, v, i, column)
    ensures IsReduced(op, Merge(op, v, w), i, column + if HasElement(w, i) then [w.value[i]] else [])
  {
    hide Reduce;
    if HasElement(w, i) {
      ReduceSnoc(op, column, w.value[i]);
    } else {
      assert column + [] == column;
    }
  }

  /** Folding from nothing computes every column separately, over the vectors long enough to have it. */
  lemma {:induction false} FoldIsColumnwise<T>(op: (T, T) -> T, vs: seq<Field<T>>)
    ensures MergeAll(op, vs).Some? <==> SomePresent(vs)
    ensures var r := MergeAll(op, vs); |if r.Some? then r.value else []| == LongestLength(vs)
    ensures forall i: nat :: IsReduced(op, MergeAll(op, vs), i, Column(vs, i))
  {
    hide IsReduced, SomePresent;
    if vs == [] {
      assert !SomePresent(vs) && forall i: nat :: IsReduced(op, None, i, []) by { NothingIsReduced(op, vs); }
    } else {
      var p, v := vs[..|vs| - 1], vs[|vs| - 1];
      FoldIsColumnwise(op, p);
      PresentSnoc(vs);
      forall i: nat ensures IsReduced(op, MergeAll(op, vs), i, Column(vs, i)) {
        MergeReduces(op, MergeAll(op, p), v, i, Column(p, i));
      }
    }
  }

  lemma {:induction false} NothingIsReduced<T>(op: (T, T) -> T, vs: seq<Field<T>>)
    requires vs == []
    ensures !SomePresent(vs) && forall i: nat :: IsReduced(op, None, i, [])
  {
  }

  // ----- What the reducers compute

  ghost function Sum(xs: seq<nat>): nat {
    if xs == [] then 0 else Sum(xs[..|xs| - 1]) + xs[|xs| - 1]
  }

  lemma {:induction false} MinimumIsLeast(xs: seq<nat>, modulus: nat)
    requires xs != [] && modulus > 0
    ensures var r: nat := Reduce<nat>(NumOp(Min, modulus), xs); r in xs && forall x :: x in xs ==> r <= x
  {
    if |xs| > 1 {
      var n := |xs| - 1;
      MinimumIsLeast(xs[..n], modulus);
      assert xs == xs[..n] + [xs[n]];
    }
  }

  lemma {:induction false} MaximumIsGreatest(xs: seq<nat>, modulus: nat)
    requires xs != [] && modulus > 0
    ensures var r: nat := Reduce<nat>(NumOp(Max, modulus), xs); r in xs && forall x :: x in xs ==> x <= r
  {
    if |xs| > 1 {
      var n := |xs| - 1;
      MaximumIsGreatest(xs[..n], modulus);
      assert xs == xs[..n] + [xs[n]];
    }
  }

  lemma {:induction false} WrapIs(x: nat, modulus: nat)
    requires modulus > 0
    ensures Wrap(x, modulus) == x % modulus
  {
  }

  lemma {:induction false} WrapsSmall(x: nat, modulus: nat)
    requires x < modulus
    ensures Wrap(x, modulus) == x
  {
  }

  lemma {:induction false} AdditionIsSum(xs: seq<nat>, modulus: nat)
    requires xs != [] && modulus > 0 && forall x :: x in xs ==> x < modulus
    ensures Reduce<nat>(NumOp(Add, modulus), xs) == Wrap(Sum(xs), modulus)
  {
    hide Wrap;
    var n := |xs| - 1;
    if n == 0 {
      assert xs[..0] == [] && Sum(xs) == xs[0] && xs[0] in xs;
      WrapsSmall(xs[0], modulus);
    } else {
      assert forall x :: x in xs[..n] ==> x in xs;
      AdditionIsSum(xs[..n], modulus);
      ModAbsorbs(Sum(xs[..n]), xs[n], modulus);
    }
  }

  ghost predicate Meets(x: bv64, mask: bv64) {
    x & mask != 0
  }

  lemma {:induction false} OrDistributes(a: bv64, b: bv64, mask: bv64)
    ensures (a | b) & mask == (a & mask) | (b & mask)
  {
  }

  lemma {:induction false} OrIsZeroIff(a: bv64, b: bv64)
    ensures a | b == 0 <==> a == 0 && b == 0
  {
  }

  /** A bit mask meets a bitwise or exactly if it meets one of the operands. */
  lemma {:induction false} OrMeets(a: bv64, b: bv64, mask: bv64)
    ensures Meets(a | b, mask) <==> Meets(a, mask) || Meets(b, mask)
  {
    OrDistributes(a, b, mask);
    OrIsZeroIff(a & mask, b & mask);
  }

  /** A property that an operation has exactly if one operand has it, a reduction has exactly if one element has it. */
  lemma {:induction false} ReductionHas<T(!new)>(op: (T, T) -> T, xs: seq<T>, p: T -> bool)
    requires xs != [] && forall a, b :: p(op(a, b)) <==> p(a) || p(b)
    ensures p(Reduce(op, xs)) <==> exists i :: 0 <= i < |xs| && p(xs[i])
  {
    var n := |xs| - 1;
    if n > 0 {
      ReductionHas(op, xs[..n], p);
      assert xs == xs[..n] + [xs[n]];
      assert p(op(Reduce(op, xs[..n]), xs[n])) <==> p(Reduce(op, xs[..n])) || p(xs[n]);
    }
  }

  lemma {:induction false} BitOrMeets(mask: bv64)
    ensures forall a, b :: Meets(BitOr()(a, b), mask) <==> Meets(a, mask) || Meets(b, mask)
  {
    hide Meets;
    forall a, b ensures Meets(BitOr()(a, b), mask) <==> Meets(a, mask) || Meets(b, mask) {
      OrMeets(a, b, mask);
    }
  }

  lemma {:induction false} BitOrIsUnion(xs: seq<bv64>, mask: bv64)
    requires xs != []
    ensures Meets(Reduce(BitOr(), xs), mask) <==> exists i :: 0 <= i < |xs| && Meets(xs[i], mask)
  {
    hide Meets, Reduce, BitOr;
    BitOrMeets(mask);
    var op, p := BitOr(), (x: bv64) => Meets(x, mask);
    forall a, b ensures p(op(a, b)) <==> p(a) || p(b) {
      assert Meets(BitOr()(a, b), mask) <==> Meets(a, mask) || Meets(b, mask);
    }
    ReductionHas(op, xs, p);
  }

  /** A field that starts empty, after a list of vectors has been reduced into it. */
  ghost function ReducedNumAll(op: AggrOp, modulus: nat, vs: seq<Field<nat>>): Field<nat>
    requires modulus > 0
  {
    if vs == [] then None else ReducedNum(op, modulus, ReducedNumAll(op, modulus, vs[..|vs| - 1]), vs[|vs| - 1])
  }

  ghost function ReducedBoolMapAll(op: AggrOp, vs: seq<Field<bv64>>): Field<bv64> {
    if vs == [] then None else ReducedBoolMap(op, ReducedBoolMapAll(op, vs[..|vs| - 1]), vs[|vs| - 1])
  }

  lemma {:induction false} NumIsMerged(op: AggrOp, modulus: nat, vs: seq<Field<nat>>)
    requires modulus > 0 && (op.Add? || op.Min? || op.Max?)
    ensures ReducedNumAll(op, modulus, vs) == MergeAll(NumOp(op, modulus), vs)
  {
    hide NumOp, Merge;
    if vs != [] {
      NumIsMerged(op, modulus, vs[..|vs| - 1]);
    }
  }

  lemma {:induction false} BoolMapIsMerged(vs: seq<Field<bv64>>)
    ensures ReducedBoolMapAll(BoolMapOr, vs) == MergeAll(BitOr(), vs)
  {
    hide BitOr, Merge;
    if vs != [] {
      BoolMapIsMerged(vs[..|vs| - 1]);
    }
  }

  /** Each element of a reduced numeric field is the sum modulo the width, the least or the greatest of its column, over
      the vectors long enough to have it. */
  lemma {:induction false} NumColumnIs(op: AggrOp, modulus: nat, vs: seq<Field<nat>>, i: nat)
    requires modulus > 0 && (op.Add? || op.Min? || op.Max?)
    ensures var r: Field<nat>, xs: seq<nat> := ReducedNumAll(op, modulus, vs), Column<nat>(vs, i);
      && (r.Some? && i < |r.value| <==> xs != [])
      && (xs != [] ==>
            && (op.Min? ==> r.value[i] in xs && forall x :: x in xs ==> r.value[i] <= x)
            && (op.Max? ==> r.value[i] in xs && forall x :: x in xs ==> x <= r.value[i])
            && (op.Add? && (forall x :: x in xs ==> x < modulus) ==> r.value[i] == Sum(xs) % modulus))
  {
    hide NumOp, MergeAll, ReducedNumAll, Reduce, Column, Sum, Wrap;
    var xs: seq<nat> := Column<nat>(vs, i);
    NumIsMerged(op, modulus, vs);
    FoldIsColumnwise<nat>(NumOp(op, modulus), vs);
    assert IsReduced<nat>(NumOp(op, modulus), MergeAll<nat>(NumOp(op, modulus), vs), i, xs);
    if xs != [] {
      match op {
        case Min => MinimumIsLeast(xs, modulus);
        case Max => MaximumIsGreatest(xs, modulus);
        case Add =>
          if forall x :: x in xs ==> x < modulus {
            AdditionIsSum(xs, modulus);
            WrapIs(Sum(xs), modulus);
          }
      }
    }
  }

  /** Each element of a reduced bit map has exactly the bits that some element of its column has. */
  lemma {:induction false} BoolMapColumnIs(vs: seq<Field<bv64>>, i: nat, mask: bv64)
    ensures var r, xs := ReducedBoolMapAll(BoolMapOr, vs), Column(vs, i);
      && (r.Some? && i < |r.value| <==> xs != [])
      && (xs != [] ==> (Meets(r.value[i], mask) <==> exists j :: 0 <= j < |xs| && Meets(xs[j], mask)))
  {
    hide Meets, BitOr, MergeAll, ReducedBoolMapAll, Reduce, Column;
    var xs := Column(vs, i);
    BoolMapIsMerged(vs);
    FoldIsColumnwise(BitOr(), vs);
    assert IsReduced(BitOr(), MergeAll(BitOr(), vs), i, xs);
    if xs != [] {
      BitOrIsUnion(xs, mask);
    }
  }

  /** Selecting indices that all exist gives the elements at them, in their order; indices that do not exist are passed
      over. */
  lemma {:induction false} SelectIsExact<T>(v: seq<T>, indices: seq<nat>)
    requires forall i :: 0 <= i < |indices| ==> indices[i] < |v|
    ensures |Select(v, indices)| == |indices|
    ensures forall i :: 0 <= i < |indices| ==> Select(v, indices)[i] == v[indices[i]]
  {
    if indices != [] {
      SelectIsExact(v, indices[1..]);
    }
  }

  lemma {:induction false} SelectSkips<T>(v: seq<T>, before: seq<nat>, i: nat, after: seq<nat>)
    requires i >= |v|
    ensures Select(v, before + [i] + after) == Select(v, before + after)
  {
    var f := (i: nat) => if i < |v| then Some(v[i]) else None;
    PickConcat(before + [i], after, f);
    PickConcat(before, [i], f);
    PickConcat(before, after, f);
    PickOne(i, f);
    assert Pick(before, f) + [] == Pick(before, f);
  }

  ghost function LastPresent<T>(vs: seq<Field<T>>): Field<T> {
    if vs == [] then None else if vs[|vs| - 1].Some? then vs[|vs| - 1] else LastPresent(vs[..|vs| - 1])
  }

  /** What a key keeps: the last vector, present or not; or, if it selects indices, what they select of the last vector
      that is present, unless that is nothing. */
  ghost function Kept<T>(vs: seq<Field<T>>, indices: Option<seq<nat>>): Field<T> {
    match indices
    case None => if vs == [] then None else vs[|vs| - 1]
    case Some(idxs) =>
      if LastPresent(vs).None? || Select(LastPresent(vs).value, idxs) == [] then None
      else Some(Select(LastPresent(vs).value, idxs))
  }

  lemma {:induction false} KeysKeepLast(modulus: nat, vs: seq<Field<nat>>, indices: Option<seq<nat>>)
    requires modulus > 0
    ensures ReducedNumAll(Key(indices), modulus, vs) == Kept(vs, indices)
  {
    hide Select;
    if vs != [] {
      KeysKeepLast(modulus, vs[..|vs| - 1], indices);
    }
  }

  lemma {:induction false} BoolMapKeysKeepLast(vs: seq<Field<bv64>>, indices: Option<seq<nat>>)
    ensures ReducedBoolMapAll(Key(indices), vs) == Kept(vs, indices)
  {
    hide Select;
    if vs != [] {
      BoolMapKeysKeepLast(vs[..|vs| - 1], indices);
    }
  }

  /** Accumulation as an aggregation of the vectors themselves. */
  ghost function MergeJob<T>(op: (T, T) -> T): Job<nat, Field<T>, Field<T>, Field<T>> {
    Job((x: Field<T>) => 0, (x: Field<T>) => 0, None, (acc: Field<T>, x: Field<T>) => Merge(op, acc, x),
        (acc: Field<T>) => acc, 1, 0)
  }

  lemma {:induction false} MergeAllIsFold<T>(op: (T, T) -> T, vs: seq<Field<T>>)
    ensures Fold(MergeJob(op), vs) == MergeAll(op, vs)
  {
    if vs != [] {
      MergeAllIsFold(op, vs[..|vs| - 1]);
    }
  }

  /** Folding from nothing gives the same over every permutation of the vectors. */
  lemma {:induction false} MergeAllPermutes<T(!new)>(op: (T, T) -> T, vs: seq<Field<T>>, ws: seq<Field<T>>)
    requires Commutative(op) && Associative(op) && multiset(vs) == multiset(ws)
    ensures MergeAll(op, vs) == MergeAll(op, ws)
  {
    var job := MergeJob(op);
    assert Commutes(job) by {
      forall a, x, y ensures job.push(job.push(a, x), y) == job.push(job.push(a, y), x) {
        MergesCommute(op, a, x, y);
      }
    }
    FoldPermutes(job, vs, ws);
    MergeAllIsFold(op, vs);
    MergeAllIsFold(op, ws);
  }

  // ----- Flow windows

  /** A window job that accumulates one field of flow records `(key, time, vector)`. */
  datatype FlowRecord<T> = FlowRecord(key: nat, at: nat, field: Field<T>)

  function FlowJob<T>(
    op: (T, T) -> T, windowDuration: nat, lateness: nat): Job<nat, FlowRecord<T>, Field<T>, Field<T>>
  {
    Job((x: FlowRecord<T>) => x.key, (x: FlowRecord<T>) => x.at, None,
        (acc: Field<T>, x: FlowRecord<T>) => Merge(op, acc, x.field), (acc: Field<T>) => acc, windowDuration, lateness)
  }

  ghost function Fields<T>(s: seq<FlowRecord<T>>): seq<Field<T>> {
    seq(|s|, i requires 0 <= i < |s| => s[i].field)
  }

  lemma {:induction false} FlowFoldIsMergeAll<T>(
    op: (T, T) -> T, windowDuration: nat, lateness: nat, s: seq<FlowRecord<T>>)
    ensures Fold(FlowJob(op, windowDuration, lateness), s) == MergeAll(op, Fields(s))
  {
    if s != [] {
      var n := |s| - 1;
      FlowFoldIsMergeAll(op, windowDuration, lateness, s[..n]);
      assert Fields(s)[..n] == Fields(s[..n]) && Fields(s)[n] == s[n].field;
    }
  }

  /** Each flow window holds, column by column, the reduction of exactly the accepted records of its bucket. */
  lemma {:induction false} FlowWindowsMergeFields<T>(
    op: (T, T) -> T, windowDuration: nat, lateness: nat, s: seq<FlowRecord<T>>, order: seq<nat>, k: nat, b: nat)
    requires windowDuration > 0 && IsKeyOrder(RunState(FlowJob(op, windowDuration, lateness), s), order)
    ensures var job := FlowJob(op, windowDuration, lateness);
      var vs := Fields(Accepted(job, s, k, b));
      Values(Complete(job, s, order), k, b) == if vs == [] then [] else [MergeAll(op, vs)]
  {
    var job := FlowJob(op, windowDuration, lateness);
    StreamingRefinesBatch(job, s, order, k, b);
    FlowFoldIsMergeAll(op, windowDuration, lateness, Accepted(job, s, k, b));
  }

  /** Two arrival orders of the same records, neither of which makes a record late. */
  ghost predicate Reordered<T>(
    job: Job<nat, FlowRecord<T>, Field<T>, Field<T>>, s: seq<FlowRecord<T>>, t: seq<FlowRecord<T>>,
    orderS: seq<nat>, orderT: seq<nat>)
  {
    && multiset(s) == multiset(t) && LateItems(job, s) == [] && LateItems(job, t) == []
    && IsKeyOrder(RunState(job, s), orderS) && IsKeyOrder(RunState(job, t), orderT)
  }

  lemma {:induction false} FlowWindowsIgnoreOrder<T(!new)>(
    op: (T, T) -> T, windowDuration: nat, lateness: nat, s: seq<FlowRecord<T>>, t: seq<FlowRecord<T>>,
    orderS: seq<nat>, orderT: seq<nat>, k: nat, b: nat)
    requires Commutative(op) && Associative(op) && windowDuration > 0
    requires Reordered(FlowJob(op, windowDuration, lateness), s, t, orderS, orderT)
    ensures var job := FlowJob(op, windowDuration, lateness);
      Values(Complete(job, s, orderS), k, b) == Values(Complete(job, t, orderT), k, b)
  {
    var job := FlowJob(op, windowDuration, lateness);
    assert Commutes(job) by {
      forall a, x, y ensures job.push(job.push(a, x), y) == job.push(job.push(a, y), x) {
        MergesCommute(op, a, x.field, y.field);
      }
    }
    ArrivalOrderIsIrrelevant(job, s, t, orderS, orderT, k, b);
  }

  /** Windows of sums, minima and maxima do not depend on the order in which records arrive. */
  lemma {:induction false} NumWindowsIgnoreOrder(
    op: AggrOp, modulus: nat, windowDuration: nat, lateness: nat, s: seq<FlowRecord<nat>>, t: seq<FlowRecord<nat>>,
    orderS: seq<nat>, orderT: seq<nat>, k: nat, b: nat)
    requires modulus > 0 && windowDuration > 0 && (op.Add? || op.Min? || op.Max?)
    requires Reordered(FlowJob(NumOp(op, modulus), windowDuration, lateness), s, t, orderS, orderT)
    ensures var job := FlowJob(NumOp(op, modulus), windowDuration, lateness);
      Values(Complete(job, s, orderS), k, b) == Values(Complete(job, t, orderT), k, b)
  {
    hide Commutative, Associative, NumOp, Reordered;
    NumOpsAreCommutative(op, modulus);
    FlowWindowsIgnoreOrder(NumOp(op, modulus), windowDuration, lateness, s, t, orderS, orderT, k, b);
  }

  /** Nor do windows of bit maps. */
  lemma {:induction false} BoolMapWindowsIgnoreOrder(
    windowDuration: nat, lateness: nat, s: seq<FlowRecord<bv64>>, t: seq<FlowRecord<bv64>>,
    orderS: seq<nat>, orderT: seq<nat>, k: nat, b: nat)
    requires windowDuration > 0 && Reordered(FlowJob(BitOr(), windowDuration, lateness), s, t, orderS, orderT)
    ensures var job := FlowJob(BitOr(), windowDuration, lateness);
      Values(Complete(job, s, orderS), k, b) == Values(Complete(job, t, orderT), k, b)
  {
    hide Commutative, Associative, BitOr, Reordered;
    BitOrIsCommutative();
    FlowWindowsIgnoreOrder(BitOr(), windowDuration, lateness, s, t, orderS, orderT, k, b);
  }

  // ----- Keyed fields

  ghost predicate NumReducerCommutes(op: AggrOp, modulus: nat)
    requires modulus > 0
  {
    forall a, x, y :: ReducedNum(op, modulus, ReducedNum(op, modulus, a, x), y) ==
                      ReducedNum(op, modulus, ReducedNum(op, modulus, a, y), x)
  }

  ghost predicate BoolMapReducerCommutes(op: AggrOp) {
    forall a, x, y :: ReducedBoolMap(op, ReducedBoolMap(op, a, x), y) == ReducedBoolMap(op, ReducedBoolMap(op, a, y), x)
  }

  ghost predicate SettingCommutes<T(!new)>(indices: Option<seq<nat>>) {
    forall a: Field<T>, x: Field<T>, y: Field<T> ::
      SetField(SetField(a, x, indices), y, indices) == SetField(SetField(a, y, indices), x, indices)
  }

  /** Keeping the last vector is independent of order exactly if nothing of it is kept. */
  lemma {:induction false} SettingCommutesIff<T(!new)>(indices: Option<seq<nat>>, zero: T, one: T)
    requires zero != one
    ensures SettingCommutes<T>(indices) <==> indices == Some([])
  {
    if indices == Some([]) {
      assert forall v: seq<T> :: Select(v, []) == [];
    } else {
      var n := if indices.Some? then indices.value[0] + 1 else 1;
      var zeros, ones := seq(n, _ => zero), seq(n, _ => one);
      var x: Field<T>, y: Field<T> := Some(zeros), Some(ones);
      if indices.Some? {
        var i := indices.value[0];
        assert zeros[i] != ones[i];
        assert Select(zeros, indices.value)[0] == zero && Select(ones, indices.value)[0] == one;
      } else {
        assert zeros[0] != ones[0];
      }
      assert SetField<T>(None, x, indices) != SetField<T>(None, y, indices);
      KeepsLast(indices, zeros, ones);
      KeepsLast(indices, ones, zeros);
      assert SetField(SetField(None, x, indices), y, indices) != SetField(SetField(None, y, indices), x, indices);
    }
  }

  lemma {:induction false} KeepsLast<T>(indices: Option<seq<nat>>, first: seq<T>, second: seq<T>)
    ensures SetField<T>(SetField<T>(None, Some(first), indices), Some(second), indices) ==
            SetField<T>(None, Some(second), indices)
  {
  }

  /** A numeric reducer is independent of the order of its inputs exactly when it does not keep the last key:
      every operation except a key, and the degenerate key that selects no index at all. */
  lemma {:induction false} NumReducerCommutesIff(op: AggrOp, modulus: nat)
    requires modulus > 0
    ensures NumReducerCommutes(op, modulus) <==> (op.Key? ==> op.indices == Some([]))
  {
    if op.Key? {
      SettingCommutesIff<nat>(op.indices, 0, 1);
      forall a: Field<nat>, x: Field<nat> ensures ReducedNum(op, modulus, a, x) == SetField(a, x, op.indices) {}
      if NumReducerCommutes(op, modulus) {
        forall a: Field<nat>, x: Field<nat>, y: Field<nat>
          ensures SetField(SetField(a, x, op.indices), y, op.indices) ==
            SetField(SetField(a, y, op.indices), x, op.indices)
        {
          assert ReducedNum(op, modulus, ReducedNum(op, modulus, a, x), y) ==
                 ReducedNum(op, modulus, ReducedNum(op, modulus, a, y), x);
        }
      }
    } else if !op.BoolMapOr? {
      NumOpsAreCommutative(op, modulus);
      forall a, x, y
        ensures ReducedNum(op, modulus, ReducedNum(op, modulus, a, x), y) ==
                ReducedNum(op, modulus, ReducedNum(op, modulus, a, y), x)
      {
        MergesCommute(NumOp(op, modulus), a, x, y);
      }
    }
  }

  /** So is the reducer of bit maps. */
  lemma {:induction false} BoolMapReducerCommutesIff(op: AggrOp)
    ensures BoolMapReducerCommutes(op) <==> (op.Key? ==> op.indices == Some([]))
  {
    hide BitOr;
    if op.Key? {
      SettingCommutesIff<bv64>(op.indices, 0, 1);
      forall a: Field<bv64>, x: Field<bv64> ensures ReducedBoolMap(op, a, x) == SetField(a, x, op.indices) {}
      if BoolMapReducerCommutes(op) {
        forall a: Field<bv64>, x: Field<bv64>, y: Field<bv64>
          ensures SetField(SetField(a, x, op.indices), y, op.indices) ==
            SetField(SetField(a, y, op.indices), x, op.indices)
        {
          assert ReducedBoolMap(op, ReducedBoolMap(op, a, x), y) == ReducedBoolMap(op, ReducedBoolMap(op, a, y), x);
        }
      }
    } else if op.BoolMapOr? {
      BitOrIsCommutative();
      forall a, x, y
        ensures ReducedBoolMap(op, ReducedBoolMap(op, a, x), y) == ReducedBoolMap(op, ReducedBoolMap(op, a, y), x)
      {
        MergesCommute(BitOr(), a, x, y);
      }
    }
  }
}
