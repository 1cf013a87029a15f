/** The cells of a histogram with any number of axes: the flattened index, the order of visits,
    and what the cells add up to. */
module HistogramCells {
  import opened Common
  import opened HistogramAxis

  const M: nat := 0x1_0000_0000_0000_0000

  /** Bucket counts of the axes, outermost first, and bucket tuples. */
  type Dims = seq<nat>
  type Tuple = seq<nat>

  ghost predicate Positive(dims: Dims) { forall i :: 0 <= i < |dims| ==> dims[i] > 0 }

  ghost predicate Fits(dims: Dims, t: Tuple) {
    |t| == |dims| && forall i :: 0 <= i < |t| ==> t[i] < dims[i]
  }

  function Size(dims: Dims): nat {
    if dims == [] then 1 else dims[0] * Size(dims[1..])
  }

  /** The flattened index, accumulated from the outermost axis. */
  function RawIndex(dims: Dims, t: Tuple, start: nat): nat
    requires |t| == |dims|
  {
    if dims == [] then start else RawIndex(dims[1..], t[1..], dims[0] * start + t[0])
  }

  /** The tuple that an index stands for. */
  function TupleAt(dims: Dims, index: nat): Tuple
    requires Positive(dims)
  {
    if dims == [] then []
    else
      var size := Size(dims[1..]);
      SizePositive(dims[1..]);
      [index / size % dims[0]] + TupleAt(dims[1..], index)
  }

  lemma {:induction false} SizePositive(dims: Dims)
    requires Positive(dims)
    ensures Size(dims) > 0
  {
    if dims != [] {
      SizePositive(dims[1..]);
      assert dims[0] * Size(dims[1..]) >= 1 * 1;
    }
  }

  lemma IndexStep(dims: Dims, t: Tuple, i: nat, start: nat)
    requires |t| == |dims| && i < |dims|
    ensures RawIndex(dims[i..], t[i..], start) == RawIndex(dims[i + 1..], t[i + 1..], dims[i] * start + t[i])
  {
    assert dims[i..][1..] == dims[i + 1..] && t[i..][1..] == t[i + 1..];
  }

  // ---------- The index is a bijection ----------

  lemma {:induction false} IndexBounds(dims: Dims, t: Tuple, start: nat)
    requires Fits(dims, t)
    ensures start * Size(dims) <= RawIndex(dims, t, start) < (start + 1) * Size(dims)
  {
    if dims != [] {
      var d, size, next := dims[0], Size(dims[1..]), dims[0] * start + t[0];
      IndexBounds(dims[1..], t[1..], next);
      NextLevel(d, size, start, t[0]);
    }
  }

  lemma NextLevel(d: nat, size: nat, start: nat, x: nat)
    requires x < d
    ensures start * (d * size) <= (d * start + x) * size
    ensures (d * start + x + 1) * size <= (start + 1) * (d * size)
  {
    DistributeSum(size, d * start, x);
    DistributeSum(size, d * start, x + 1);
    DistributeSum(d * size, start, 1);
    MulLe(size, 0, x);
    MulLe(size, x + 1, d);
    Reassociate(d, start, size);
  }

  lemma Reassociate(d: nat, start: nat, size: nat)
    ensures size * (d * start) == (d * size) * start
  {
  }

  /** Reading the tuple back from the index. */
  lemma {:induction false} TupleOfIndex(dims: Dims, t: Tuple, start: nat)
    requires Positive(dims) && Fits(dims, t)
    ensures TupleAt(dims, RawIndex(dims, t, start)) == t
  {
    if dims != [] {
      var size, next := Size(dims[1..]), dims[0] * start + t[0];
      var index := RawIndex(dims[1..], t[1..], next);
      SizePositive(dims[1..]);
      IndexBounds(dims[1..], t[1..], next);
      assert (next + 1) * size == next * size + size;
      Quotient(size, next, index - next * size, index);
      Quotient(dims[0], start, t[0], next);
      TupleOfIndex(dims[1..], t[1..], next);
      assert t == [t[0]] + t[1..];
    }
  }

  /** Every index below the size comes from the tuple it stands for. */
  lemma {:induction false} IndexOfTuple(dims: Dims, index: nat, start: nat)
    requires Positive(dims) && start * Size(dims) <= index < (start + 1) * Size(dims)
    ensures Fits(dims, TupleAt(dims, index)) && RawIndex(dims, TupleAt(dims, index), start) == index
  {
    if dims != [] {
      var d, size := dims[0], Size(dims[1..]);
      SizePositive(dims[1..]);
      var q := index / size;
      assert index == size * q + index % size;
      DigitInRange(d, size, start, index);
      Quotient(d, start, q - d * start, q);
      IndexOfTuple(dims[1..], index, q);
      var t := TupleAt(dims, index);
      assert t[0] == q % d && t[1..] == TupleAt(dims[1..], index);
      forall i | 0 <= i < |t|
        ensures t[i] < dims[i]
      {
        if i > 0 { assert t[i] == t[1..][i - 1]; }
      }
    }
  }

  lemma DigitInRange(d: nat, size: nat, start: nat, index: nat)
    requires d > 0 && size > 0 && start * (d * size) <= index < (start + 1) * (d * size)
    ensures d * start <= index / size < d * start + d
    ensures index / size * size <= index < (index / size + 1) * size
  {
    var q := index / size;
    assert index == size * q + index % size;
    assert (q + 1) * size == size * q + size;
    assert start * (d * size) == size * (d * start);
    assert (start + 1) * (d * size) == size * (d * start + d);
    LessCancel(size, d * start, q + 1);
    LessCancel(size, q, d * start + d);
  }

  /** The flattened index is a bijection between bucket tuples and 0 .. size - 1. */
  lemma IndexBijection(dims: Dims)
    requires Positive(dims)
    ensures forall t {:trigger RawIndex(dims, t, 0)} :: Fits(dims, t) ==>
              RawIndex(dims, t, 0) < Size(dims) && TupleAt(dims, RawIndex(dims, t, 0)) == t
    ensures forall i: nat {:trigger TupleAt(dims, i)} :: i < Size(dims) ==>
              Fits(dims, TupleAt(dims, i)) && RawIndex(dims, TupleAt(dims, i), 0) == i
  {
    forall t | Fits(dims, t)
      ensures RawIndex(dims, t, 0) < Size(dims) && TupleAt(dims, RawIndex(dims, t, 0)) == t
    {
      IndexBounds(dims, t, 0);
      TupleOfIndex(dims, t, 0);
    }
    forall i: nat | i < Size(dims)
      ensures Fits(dims, TupleAt(dims, i)) && RawIndex(dims, TupleAt(dims, i), 0) == i
    {
      IndexOfTuple(dims, i, 0);
    }
  }

  // ---------- The order of visits ----------

  /** A visited cell, with the position on each axis that the traversal has reached. */
  datatype Visit = Visit(path: Tuple, index: int)

  /** The cells visited below one position of the outer axes. */
  function Visits(dims: Dims, path: Tuple, start: nat): seq<Visit>
    decreases |dims|, 1, 0
  {
    if dims == [] then [Visit(path, start)] else VisitsFrom(dims, path, 0, dims[0] * start, dims[0])
  }

  function VisitsFrom(dims: Dims, path: Tuple, i: nat, start: nat, left: nat): seq<Visit>
    requires dims != []
    decreases |dims|, 0, left
  {
    if left == 0 then [] else Visits(dims[1..], path + [i], start) + VisitsFrom(dims, path, i + 1, start + 1, left - 1)
  }

  /** The visits `vs` are those of the cells from `from` on, `n` of them, in order. */
  ghost predicate InOrder(vs: seq<Visit>, from: nat, n: nat) {
    |vs| == n && forall k :: 0 <= k < n ==> vs[k].index == from + k
  }

  lemma {:induction false} VisitsInOrder(dims: Dims, path: Tuple, start: nat)
    ensures InOrder(Visits(dims, path, start), start * Size(dims), Size(dims))
    decreases |dims|, 1, 0
  {
    if dims != [] {
      VisitsFromInOrder(dims, path, 0, dims[0] * start, dims[0]);
      Reassociate(dims[0], start, Size(dims[1..]));
    }
  }

  lemma {:induction false} VisitsFromInOrder(dims: Dims, path: Tuple, i: nat, start: nat, left: nat)
    requires dims != []
    ensures InOrder(VisitsFrom(dims, path, i, start, left), start * Size(dims[1..]), left * Size(dims[1..]))
    decreases |dims|, 0, left
  {
    var size := Size(dims[1..]);
    if left > 0 {
      VisitsInOrder(dims[1..], path + [i], start);
      VisitsFromInOrder(dims, path, i + 1, start + 1, left - 1);
      Distribute(size, start);
      Distribute(size, left - 1);
    }
  }

  /** A path below `path` whose index, counted on from `start`, is the visited one. */
  ghost predicate RightPath(dims: Dims, path: Tuple, start: nat, v: Visit) {
    && |v.path| == |path| + |dims| && v.path[..|path|] == path
    && Fits(dims, v.path[|path|..]) && RawIndex(dims, v.path[|path|..], start) == v.index
  }

  ghost predicate AllRight(dims: Dims, path: Tuple, start: nat, vs: seq<Visit>) {
    forall k :: 0 <= k < |vs| ==> RightPath(dims, path, start, vs[k])
  }

  lemma {:induction false} PathsRight(dims: Dims, path: Tuple, start: nat)
    ensures AllRight(dims, path, start, Visits(dims, path, start))
    decreases |dims|, 1, 0
  {
    if dims == [] {
      assert path[..|path|] == path && path[|path|..] == [];
    } else {
      PathsRightFrom(dims, path, start, 0, dims[0]);
    }
  }

  lemma {:induction false} PathsRightFrom(dims: Dims, path: Tuple, start: nat, i: nat, left: nat)
    requires dims != [] && i + left == dims[0]
    ensures AllRight(dims, path, start, VisitsFrom(dims, path, i, dims[0] * start + i, left))
    decreases |dims|, 0, left
  {
    if left > 0 {
      var below := Visits(dims[1..], path + [i], dims[0] * start + i);
      PathsRight(dims[1..], path + [i], dims[0] * start + i);
      forall k | 0 <= k < |below|
        ensures RightPath(dims, path, start, below[k])
      {
        OneLevelUp(dims, path, start, i, below[k]);
      }
      PathsRightFrom(dims, path, start, i + 1, left - 1);
      BothRight(dims, path, start, below, VisitsFrom(dims, path, i + 1, dims[0] * start + (i + 1), left - 1));
    }
  }

  lemma BothRight(dims: Dims, path: Tuple, start: nat, a: seq<Visit>, b: seq<Visit>)
    requires AllRight(dims, path, start, a) && AllRight(dims, path, start, b)
    ensures AllRight(dims, path, start, a + b)
  {
  }

  lemma OneLevelUp(dims: Dims, path: Tuple, start: nat, i: nat, v: Visit)
    requires dims != [] && i < dims[0] && RightPath(dims[1..], path + [i], dims[0] * start + i, v)
    ensures RightPath(dims, path, start, v)
  {
    var t := v.path[|path|..];
    assert v.path[..|path| + 1][..|path|] == v.path[..|path|];
    assert v.path[..|path| + 1][|path|] == i;
    assert t[0] == i && t[1..] == v.path[|path| + 1..];
    assert forall k :: 0 < k < |t| ==> t[k] == t[1..][k - 1];
  }

  /** Every cell is visited exactly once, in increasing order of the index, and the traversal is
      then at the tuple that the index stands for. */
  lemma VisitsEveryCellOnce(dims: Dims)
    requires Positive(dims)
    ensures var vs := Visits(dims, [], 0);
            |vs| == Size(dims) && forall k :: 0 <= k < |vs| ==> vs[k] == Visit(TupleAt(dims, k), k)
  {
    VisitsInOrder(dims, [], 0);
    PathsRight(dims, [], 0);
    var vs := Visits(dims, [], 0);
    forall k | 0 <= k < |vs|
      ensures vs[k] == Visit(TupleAt(dims, k), k)
    {
      assert RightPath(dims, [], 0, vs[k]) && vs[k].path[0..] == vs[k].path;
      TupleOfIndex(dims, vs[k].path, 0);
    }
  }

  // ---------- Machine widths ----------

  lemma WrapMul(x: int, y: int)
    ensures Wrap(Wrap(x) * y) == Wrap(x * y)
  {
    var z := WrapOf(x);
    var w := 0x1_0000_0000_0000_0000;
    assert (x + w * z) * y == x * y + w * (z * y);
    WrapShift(x * y, z * y);
  }

  const U32: int := 0x1_0000_0000
  const MIN32: int := -0x8000_0000

  /** A 32-bit signed integer. */
  function Wrap32(x: int): int { (x - MIN32) % U32 + MIN32 }

  lemma Wrap32Shift(x: int, z: int)
    ensures Wrap32(x + U32 * z) == Wrap32(x)
  {
  }

  lemma Wrap32Ops(x: int, y: int)
    ensures Wrap32(Wrap32(x) * y) == Wrap32(x * y) && Wrap32(Wrap32(x) + y) == Wrap32(x + y)
  {
    var z := -((x - MIN32) / U32);
    assert Wrap32(x) == x + U32 * z;
    assert (x + U32 * z) * y == x * y + U32 * (z * y);
    Wrap32Shift(x * y, z * y);
    Wrap32Shift(x + y, z);
  }

  lemma FirstIndex(at: nat, n: nat)
    ensures Wrap32(Wrap32(at) * n) == Wrap32(n * at)
  {
    Wrap32Ops(at, n);
  }

  lemma NextIndex(x: nat)
    ensures Wrap32(Wrap32(x) + 1) == Wrap32(x + 1)
  {
  }

  /** The visits as made with a 32-bit index. */
  function Narrow(vs: seq<Visit>): seq<Visit> { seq(|vs|, i requires 0 <= i < |vs| => vs[i].(index := Wrap32(vs[i].index))) }

  lemma NarrowConcat(a: seq<Visit>, b: seq<Visit>)
    ensures Narrow(a + b) == Narrow(a) + Narrow(b)
  {
  }

  lemma NarrowStep(dims: Dims, path: Tuple, i: nat, start: nat, left: nat)
    requires dims != [] && left > 0
    ensures Narrow(VisitsFrom(dims, path, i, start, left))
         == Narrow(Visits(dims[1..], path + [i], start)) + Narrow(VisitsFrom(dims, path, i + 1, start + 1, left - 1))
  {
    NarrowConcat(Visits(dims[1..], path + [i], start), VisitsFrom(dims, path, i + 1, start + 1, left - 1));
  }

  /** With the 32-bit index the right cells are visited exactly if there are at most 2^31 of them. */
  lemma VisitsExactIff(dims: Dims)
    requires Positive(dims)
    ensures Narrow(Visits(dims, [], 0)) == Visits(dims, [], 0) <==> Size(dims) <= 0x8000_0000
  {
    var vs := Visits(dims, [], 0);
    VisitsEveryCellOnce(dims);
    if Size(dims) <= 0x8000_0000 {
      assert forall k :: 0 <= k < |vs| ==> Narrow(vs)[k] == vs[k];
    } else {
      var k := 0x8000_0000;
      assert vs[k].index == k && Narrow(vs)[k].index == Wrap32(k);
    }
  }

  // ---------- What the cells add up to ----------

  lemma {:induction false} SumZero(n: nat)
    ensures Sum(seq(n, _ => 0)) == 0
  {
    if n > 0 {
      assert seq(n, _ => 0)[1..] == seq(n - 1, _ => 0);
      SumZero(n - 1);
    }
  }

  lemma {:induction false} CellAtMostSum(cells: seq<nat>, i: nat)
    requires i < |cells|
    ensures cells[i] <= Sum(cells)
  {
    if i > 0 { CellAtMostSum(cells[1..], i - 1); }
  }

  datatype Op = IncAt(t: Tuple) | Reset

  ghost predicate LegalOps(dims: Dims, ops: seq<Op>) {
    forall i :: 0 <= i < |ops| && ops[i].IncAt? ==> Fits(dims, ops[i].t)
  }

  function Increment(cells: seq<nat>, i: nat): seq<nat>
    requires i < |cells|
  {
    cells[i := (cells[i] + 1) % M]
  }

  ghost function Cells(dims: Dims, ops: seq<Op>): seq<nat>
    requires LegalOps(dims, ops)
    ensures |Cells(dims, ops)| == Size(dims)
  {
    if ops == [] then seq(Size(dims), _ => 0)
    else
      var n := |ops| - 1;
      match ops[n]
      case Reset => seq(Size(dims), _ => 0)
      case IncAt(t) =>
        IndexBounds(dims, t, 0);
        Increment(Cells(dims, ops[..n]), RawIndex(dims, t, 0))
  }

  /** Increments since the last reset, all of them and those of one cell. */
  ghost function Incs(ops: seq<Op>): nat {
    if ops == [] || ops[|ops| - 1].Reset? then 0 else Incs(ops[..|ops| - 1]) + 1
  }

  ghost function IncsAt(ops: seq<Op>, t: Tuple): nat {
    if ops == [] || ops[|ops| - 1].Reset? then 0
    else IncsAt(ops[..|ops| - 1], t) + if ops[|ops| - 1].t == t then 1 else 0
  }

  /** After any run of increments and resets the cells sum to the increments since the last reset. */
  lemma {:induction false} CellsSum(dims: Dims, ops: seq<Op>)
    requires LegalOps(dims, ops) && Incs(ops) < M
    ensures Sum(Cells(dims, ops)) == Incs(ops)
  {
    if ops == [] || ops[|ops| - 1].Reset? {
      SumZero(Size(dims));
    } else {
      var n := |ops| - 1;
      var before, index := Cells(dims, ops[..n]), RawIndex(dims, ops[n].t, 0);
      CellsSum(dims, ops[..n]);
      IndexBounds(dims, ops[n].t, 0);
      CellAtMostSum(before, index);
      SumUpdate(before, index, before[index] + 1);
    }
  }

  lemma {:induction false} IncsAtMost(ops: seq<Op>, t: Tuple)
    ensures IncsAt(ops, t) <= Incs(ops)
  {
    if ops != [] { IncsAtMost(ops[..|ops| - 1], t); }
  }

  /** Each cell holds the number of increments of its own tuple since the last reset. */
  lemma {:induction false} CellsCount(dims: Dims, ops: seq<Op>, i: nat)
    requires Positive(dims) && LegalOps(dims, ops) && Incs(ops) < M && i < Size(dims)
    ensures Cells(dims, ops)[i] == IncsAt(ops, TupleAt(dims, i))
  {
    if ops != [] && !ops[|ops| - 1].Reset? {
      var n := |ops| - 1;
      var t := ops[n].t;
      CellsCount(dims, ops[..n], i);
      IncsAtMost(ops[..n], TupleAt(dims, i));
      SameCell(dims, t, i);
    }
  }

  lemma SameCell(dims: Dims, t: Tuple, i: nat)
    requires Positive(dims) && Fits(dims, t) && i < Size(dims)
    ensures RawIndex(dims, t, 0) < Size(dims) && (RawIndex(dims, t, 0) == i <==> TupleAt(dims, i) == t)
  {
    IndexBounds(dims, t, 0);
    TupleOfIndex(dims, t, 0);
    IndexOfTuple(dims, i, 0);
  }

  // ---------- The object ----------

  function DimsOf(axes: seq<Axis>): Dims { seq(|axes|, i requires 0 <= i < |axes| => axes[i].buckets) }

  /** The buckets of the values on each axis. */
  lemma TupleOf(axes: seq<Axis>, values: seq<int>) returns (t: Tuple)
    requires |values| == |axes| && forall i :: 0 <= i < |axes| ==> Valid(axes[i])
    requires forall i :: 0 <= i < |axes| ==> Int64(values[i]) && (NoOverflow(values[i], axes[i]) || Safe(axes[i]))
    ensures Fits(DimsOf(axes), t)
    ensures forall i :: 0 <= i < |axes| ==> Valid(axes[i]) && t[i] == Bucket(values[i], axes[i]) && InRange(values[i], axes[i], t[i])
  {
    forall i | 0 <= i < |axes|
      ensures InRange(values[i], axes[i], Bucket(values[i], axes[i]))
    {
      if Safe(axes[i]) { SafeIsRight(values[i], axes[i]); } else { BucketInItsRange(values[i], axes[i]); }
    }
    t := seq(|axes|, i requires 0 <= i < |axes| => Bucket(values[i], axes[i]));
  }

  lemma SizeStep(dims: Dims, i: nat, size: int)
    requires i < |dims|
    ensures size * Size(dims[i..]) == size * dims[i] * Size(dims[i + 1..])
  {
    assert dims[i..][1..] == dims[i + 1..];
    assert size * (dims[i] * Size(dims[i + 1..])) == size * dims[i] * Size(dims[i + 1..]);
  }

  lemma LevelDims(axes: seq<Axis>, level: nat)
    requires level < |axes|
    ensures var dims := DimsOf(axes)[level..]; dims != [] && dims[0] == axes[level].buckets && dims[1..] == DimsOf(axes)[level + 1..]
  {
  }

  class Histogram {
    const axes: seq<Axis>
    const rawData: array<nat>

    ghost predicate Valid()
      reads this
    {
      (forall i :: 0 <= i < |axes| ==> HistogramAxis.Valid(axes[i])) && rawData.Length == Size(DimsOf(axes))
    }

    constructor (axes: seq<Axis>)
      requires forall i :: 0 <= i < |axes| ==> HistogramAxis.Valid(axes[i])
      requires Size(DimsOf(axes)) <= MAX64
      ensures Valid() && this.axes == axes && rawData[..] == seq(Size(DimsOf(axes)), _ => 0)
    {
      var size := GetRawSize(axes);
      this.axes := axes;
      rawData := new nat[size](_ => 0);
    }

    /** The product of the bucket counts, in 64 bits. */
    static method GetRawSize(axes: seq<Axis>) returns (size: int)
      ensures size == Wrap(Size(DimsOf(axes)))
    {
      size := 1;
      var i := 0;
      var dims := DimsOf(axes);
      assert dims[0..] == dims;
      while i < |axes|
        invariant i <= |axes| && Int64(size) && Wrap(size * Size(dims[i..])) == Wrap(Size(dims))
      {
        ghost var rest := Size(dims[i + 1..]);
        SizeStep(dims, i, size);
        WrapMul(size * axes[i].buckets, rest);
        ghost var z := WrapOf(size * axes[i].buckets);
        size := Wrap(size * axes[i].buckets);
        i := i + 1;
      }
      assert dims[i..] == [];
    }

    method ResetAll()
      modifies rawData
      ensures rawData[..] == seq(rawData.Length, _ => 0)
    {
      var i := rawData.Length;
      while i > 0
        invariant 0 <= i <= rawData.Length && forall j :: i <= j < rawData.Length ==> rawData[j] == 0
      {
        i := i - 1;
        rawData[i] := 0;
      }
    }

    /** One more for the cell of the values' buckets `t`, each of which holds its value. */
    method Inc(values: seq<int>) returns (ghost t: Tuple)
      requires Valid() && |values| == |axes|
      requires forall i :: 0 <= i < |axes| ==> Int64(values[i]) && (NoOverflow(values[i], axes[i]) || Safe(axes[i]))
      modifies rawData
      ensures Fits(DimsOf(axes), t)
      ensures forall i :: 0 <= i < |axes| ==> t[i] == Bucket(values[i], axes[i]) && InRange(values[i], axes[i], t[i])
      ensures var index := RawIndex(DimsOf(axes), t, 0);
              index < rawData.Length && rawData[..] == Increment(old(rawData[..]), index)
    {
      ghost var dims := DimsOf(axes);
      t := TupleOf(axes, values);
      IndexBounds(dims, t, 0);
      var i, index: nat := 0, 0;
      while i < |axes|
        invariant i <= |axes| && RawIndex(dims[i..], t[i..], index) == RawIndex(dims, t, 0)
        invariant rawData[..] == old(rawData[..])
      {
        IndexStep(dims, t, i, index);
        var bucket := GetBucketForAxis(values[i], axes[i]);
        index := axes[i].buckets * index + bucket;
        i := i + 1;
      }
      assert dims[i..] == [] && index == RawIndex(dims, t, 0);
      rawData[index] := (rawData[index] + 1) % M;
    }

    /** The recursive visit; `seen` are the cells passed to the visitor, in order. The index `start`
        is a 32-bit integer; `at` is the one it stands for. */
    method VisitValues(level: nat, path: Tuple, start: int, ghost at: nat) returns (seen: seq<Visit>)
      requires level <= |axes| && start == Wrap32(at)
      ensures seen == Narrow(Visits(DimsOf(axes)[level..], path, at))
      decreases |axes| - level, 1
    {
      if level == |axes| { return [Visit(path, start)]; }
      LevelDims(axes, level);
      FirstIndex(at, axes[level].buckets);
      seen := VisitLevel(level, path, Wrap32(start * axes[level].buckets), axes[level].buckets * at);
    }

    /** The loop over the buckets of one axis. */
    method VisitLevel(level: nat, path: Tuple, first: int, ghost base: nat) returns (seen: seq<Visit>)
      requires level < |axes| && first == Wrap32(base)
      ensures DimsOf(axes)[level..] != []
      ensures seen == Narrow(VisitsFrom(DimsOf(axes)[level..], path, 0, base, axes[level].buckets))
      decreases |axes| - level, 0
    {
      ghost var dims := DimsOf(axes)[level..];
      var n := axes[level].buckets;
      LevelDims(axes, level);
      ghost var all := Narrow(VisitsFrom(dims, path, 0, base, n));
      seen := [];
      var i, index := 0, first;
      while i < n
        invariant i <= n && index == Wrap32(base + i) && seen + Narrow(VisitsFrom(dims, path, i, base + i, n - i)) == all
      {
        NarrowStep(dims, path, i, base + i, n - i);
        var below := VisitValues(level + 1, path + [i], index, base + i);
        Concat(seen, below, Narrow(VisitsFrom(dims, path, i + 1, base + i + 1, n - i - 1)));
        NextIndex(base + i);
        seen := seen + below;
        i, index := i + 1, Wrap32(index + 1);
      }
    }
  }
}
