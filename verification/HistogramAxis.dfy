/** One axis of a performance histogram: the bucket of a value, the published bucket ranges,
    and exactly when the two agree, with 64-bit wrap-around. */
module HistogramAxis {
  import opened Common

  const MIN64: int := -0x8000_0000_0000_0000
  const MAX64: int := 0x7fff_ffff_ffff_ffff

  datatype Scale = Linear | Log2
  datatype Axis = Axis(scale: Scale, min: int, quant: nat, buckets: nat)

  predicate Int64(x: int) { MIN64 <= x <= MAX64 }

  function Wrap(x: int): (r: int)
    ensures Int64(x) ==> r == x
  {
    (x - MIN64) % 0x1_0000_0000_0000_0000 + MIN64
  }

  /** Division that rounds towards zero. */
  function Truncated(a: int, b: int): int
    requires b > 0
  {
    if a >= 0 then a / b else -(-a / b)
  }

  function Pow2(n: nat): nat { if n == 0 then 1 else 2 * Pow2(n - 1) }

  function Quants(i: nat, scale: Scale): nat
    requires i > 0
  {
    match scale case Linear => i case Log2 => Pow2(i - 1)
  }

  function FirstAbove(value: int, buckets: nat, i: nat): int
    requires i > 0
    decreases buckets - i
  {
    if i >= buckets then buckets - 1 else if value < Quants(i, Log2) then i else FirstAbove(value, buckets, i + 1)
  }

  /** The bucket chosen for a value, every intermediate result wrapped to 64 bits. */
  function Bucket(value: int, a: Axis): int
    requires a.quant > 0
  {
    if value < a.min then 0
    else
      var v := Truncated(Wrap(value - a.min), a.quant);
      match a.scale
      case Linear => if Wrap(v + 1) < a.buckets - 1 then Wrap(v + 1) else a.buckets - 1
      case Log2 => FirstAbove(v, a.buckets, 1)
  }

  /** Where bucket i ends (exclusive), for the buckets that are neither first nor last. */
  function EndOf(a: Axis, i: nat): int
    requires i > 0
  {
    a.min + Quants(i, a.scale) * a.quant
  }

  function RangeOf(a: Axis, i: nat): (int, int)
    requires i < a.buckets
  {
    (if i == 0 then MIN64 else if i == 1 then a.min else EndOf(a, i - 1),
     if i == a.buckets - 1 then MAX64 else if i == 0 then a.min - 1 else EndOf(a, i) - 1)
  }

  /** Axes whose ranges can be computed without overflow; 64 buckets are the most for log2. */
  ghost predicate Valid(a: Axis) {
    && MIN64 < a.min <= MAX64 && 0 < a.quant <= MAX64 && 0 < a.buckets < 0x8000_0000
    && (a.scale == Log2 ==> a.buckets <= 64)
    && forall i :: 0 < i < a.buckets - 1 ==> Quants(i, a.scale) * a.quant <= MAX64 && EndOf(a, i) <= MAX64
  }

  /** What a caller may ask for; beyond 64 buckets a log2 axis shifts too far. */
  ghost predicate Proper(a: Axis) {
    Int64(a.min) && 0 < a.quant <= MAX64 && 0 < a.buckets < 0x8000_0000 && (a.scale == Log2 ==> a.buckets <= 64)
  }

  /** No bound of a range overflows. */
  ghost predicate Bounded(a: Axis) {
    && Proper(a) && (a.buckets > 1 ==> MIN64 < a.min)
    && forall i :: 0 < i < a.buckets - 1 ==> EndOf(a, i) <= MAX64
  }

  // ---------- The published ranges ----------

  /** Wrapping early or late makes no difference. */
  lemma WrapShift(x: int, z: int)
    ensures Wrap(x + 0x1_0000_0000_0000_0000 * z) == Wrap(x)
  {
  }

  lemma WrapOf(x: int) returns (z: int)
    ensures Int64(Wrap(x)) && Wrap(x) == x + 0x1_0000_0000_0000_0000 * z
  {
    z := -((x - MIN64) / 0x1_0000_0000_0000_0000);
  }

  lemma WrapAdd(x: int, y: int)
    ensures Wrap(Wrap(x) + y) == Wrap(x + y) && Wrap(Wrap(x)) == Wrap(x)
  {
    var z := WrapOf(x);
    WrapShift(x + y, z);
  }

  /** The published ranges, their bounds wrapped to 64 bits. */
  method GetAxisBucketRanges(a: Axis) returns (ranges: seq<(int, int)>)
    requires a.buckets > 0 && Int64(a.min)
    ensures |ranges| == a.buckets
    ensures forall i :: 0 <= i < a.buckets ==> ranges[i] == (Wrap(RangeOf(a, i).0), Wrap(RangeOf(a, i).1))
  {
    ranges := seq(a.buckets, _ => (0, 0));
    var min := a.min;
    var i := 1;
    while i < a.buckets - 1
      invariant 1 <= i && (a.buckets > 1 ==> i <= a.buckets - 1) && |ranges| == a.buckets
      invariant min == Wrap(if i == 1 then a.min else EndOf(a, i - 1))
      invariant forall j :: 0 < j < i && j < a.buckets - 1 ==> ranges[j] == (Wrap(RangeOf(a, j).0), Wrap(RangeOf(a, j).1))
    {
      var maxExclusive := Wrap(a.min + Quants(i, a.scale) * a.quant);
      WrapAdd(EndOf(a, i), -1);
      ranges := ranges[i := (min, Wrap(maxExclusive - 1))];
      min := maxExclusive;
      i := i + 1;
    }
    var last := a.buckets - 1;
    ranges := ranges[0 := (ranges[0].0, Wrap(a.min - 1))];
    ranges := ranges[last := (min, ranges[last].1)];
    ranges := ranges[0 := (MIN64, ranges[0].1)];
    ranges := ranges[last := (ranges[last].0, MAX64)];
  }

  /** On such an axis nothing wraps, so the ranges are published as they are meant. */
  lemma RangesUnwrapped(a: Axis)
    requires Bounded(a)
    ensures forall i :: 0 <= i < a.buckets ==> Int64(RangeOf(a, i).0) && Int64(RangeOf(a, i).1)
  {
    RangesTile(a);
    forall i | 0 <= i < a.buckets
      ensures MIN64 <= RangeOf(a, i).0 && RangeOf(a, i).1 <= MAX64
    {
      if 1 < i { EndsGrow(a, i - 1); }
    }
  }

  method GetBucketForAxis(value: int, a: Axis) returns (b: int)
    requires a.quant > 0 && a.buckets > 0
    ensures b == Bucket(value, a)
  {
    if value < a.min { return 0; }
    var v := Truncated(Wrap(value - a.min), a.quant);
    if a.scale == Linear {
      var next := Wrap(v + 1);
      return if next < a.buckets - 1 then next else a.buckets - 1;
    }
    var i := 1;
    while i < a.buckets
      invariant i >= 1 && FirstAbove(v, a.buckets, i) == FirstAbove(v, a.buckets, 1)
    {
      if v < Quants(i, Log2) { return i; }
      i := i + 1;
    }
    return a.buckets - 1;
  }

  // ---------- Tiling ----------

  lemma {:induction false} Pow2Positive(n: nat)
    ensures Pow2(n) > 0
  {
    if n > 0 { Pow2Positive(n - 1); }
  }

  lemma QuantsPositive(i: nat, scale: Scale)
    requires i > 0
    ensures Quants(i, scale) > 0
  {
    Pow2Positive(i - 1);
  }

  lemma QuantsGrow(i: nat, scale: Scale)
    requires i > 0
    ensures Quants(i, scale) < Quants(i + 1, scale)
  {
    Pow2Positive(i - 1);
  }

  lemma EndsGrow(a: Axis, i: nat)
    requires i > 0 && a.quant > 0
    ensures a.min < EndOf(a, i) < EndOf(a, i + 1)
  {
    QuantsPositive(i, a.scale);
    QuantsGrow(i, a.scale);
    ProductsGrow(a.quant, Quants(i, a.scale), Quants(i + 1, a.scale));
  }

  lemma ProductsGrow(q: nat, x: nat, y: nat)
    requires q > 0 && 0 < x < y
    ensures 0 < x * q < y * q
  {
    MulLe(q, x + 1, y);
    Distribute(q, x);
    MulLe(q, 1, x);
  }

  /** The ranges are non-empty, start at the least and end at the greatest 64-bit value,
      and each begins right after the one before. */
  lemma RangesTile(a: Axis)
    requires Bounded(a)
    ensures RangeOf(a, 0).0 == MIN64 && RangeOf(a, a.buckets - 1).1 == MAX64
    ensures forall i :: 0 <= i < a.buckets - 1 ==> RangeOf(a, i).1 + 1 == RangeOf(a, i + 1).0
    ensures forall i :: 0 <= i < a.buckets ==> RangeOf(a, i).0 <= RangeOf(a, i).1
  {
    forall i | 0 <= i < a.buckets
      ensures RangeOf(a, i).0 <= RangeOf(a, i).1
    {
      if 0 < i < a.buckets - 1 {
        EndsGrow(a, i);
        if i > 1 { EndsGrow(a, i - 1); }
      } else if i > 1 {
        assert EndOf(a, i - 1) <= MAX64;
      }
    }
  }

  /** Range `i` as published. */
  ghost function Published(a: Axis, i: nat): (int, int)
    requires i < a.buckets
  {
    (Wrap(RangeOf(a, i).0), Wrap(RangeOf(a, i).1))
  }

  ghost predicate Meets(a: Axis, i: nat)
    requires i < a.buckets
  {
    && Published(a, i).0 <= Published(a, i).1
    && (i + 1 < a.buckets ==> Published(a, i).1 + 1 == Published(a, i + 1).0)
  }

  /** The published ranges are non-empty and without gap, from the least to the greatest 64-bit value. */
  ghost predicate PublishedTile(a: Axis)
    requires a.buckets > 0
  {
    && Published(a, 0).0 == MIN64 && Published(a, a.buckets - 1).1 == MAX64
    && forall i :: 0 <= i < a.buckets ==> Meets(a, i)
  }

  /** The condition on an axis: where its last inner bucket ends. */
  predicate EndsInside(a: Axis) {
    a.buckets == 1 || (MIN64 < a.min && (a.buckets > 2 ==> EndOf(a, a.buckets - 2) <= MAX64))
  }

  lemma {:induction false} EndsBelow(a: Axis, i: nat, j: nat)
    requires 0 < i <= j && a.quant > 0
    ensures EndOf(a, i) <= EndOf(a, j)
    decreases j
  {
    if i < j {
      EndsBelow(a, i, j - 1);
      EndsGrow(a, j - 1);
    }
  }

  /** One bucket is never so wide that the next bound comes round to where it was. */
  lemma NextEnd(a: Axis, i: nat)
    requires Proper(a) && 0 < i && (i > 1 ==> EndOf(a, i - 1) <= MAX64)
    ensures var e := if i == 1 then a.min else EndOf(a, i - 1); e < EndOf(a, i) < e + 0x1_0000_0000_0000_0000
  {
    if i > 1 {
      EndsGrow(a, i - 1);
      Widens(a, i);
    } else {
      EndsGrow(a, 1);
    }
  }

  lemma Widens(a: Axis, i: nat)
    requires i > 1
    ensures EndOf(a, i) - EndOf(a, i - 1) == match a.scale case Linear => a.quant case Log2 => EndOf(a, i - 1) - a.min
  {
    if a.scale == Linear {
      assert (i - 1) * a.quant + a.quant == i * a.quant;
    } else {
      assert Quants(i, Log2) == 2 * Quants(i - 1, Log2);
      assert Quants(i, Log2) * a.quant == 2 * (Quants(i - 1, Log2) * a.quant);
    }
  }

  /** Where bucket `i` starts, for the buckets behind the first. */
  ghost function StartOf(a: Axis, i: nat): int
    requires i > 0
  {
    if i == 1 then a.min else EndOf(a, i - 1)
  }

  lemma TiledNext(a: Axis, i: nat)
    requires Proper(a) && PublishedTile(a) && 0 < i < a.buckets - 1 && Int64(StartOf(a, i))
    ensures StartOf(a, i) < Wrap(EndOf(a, i))
  {
    assert Meets(a, i);
    assert RangeOf(a, i).0 == StartOf(a, i) && RangeOf(a, i + 1).0 == EndOf(a, i);
  }

  /** A bound that overflows comes out below the one before. */
  lemma NoOverflowAbove(e: int, x: int)
    requires Int64(e) && e < x < e + 0x1_0000_0000_0000_0000 && e < Wrap(x)
    ensures x <= MAX64
  {
    assert MAX64 < x < MAX64 + 0x1_0000_0000_0000_0000 ==> Wrap(x) == x - 0x1_0000_0000_0000_0000;
  }

  lemma {:induction false} TiledEnds(a: Axis, i: nat)
    requires Proper(a) && PublishedTile(a) && 0 < i < a.buckets - 1
    ensures EndOf(a, i) <= MAX64
  {
    if i > 1 {
      TiledEnds(a, i - 1);
      EndsGrow(a, i - 1);
    }
    NextEnd(a, i);
    TiledNext(a, i);
    NoOverflowAbove(StartOf(a, i), EndOf(a, i));
  }

  /** The published ranges tile the 64-bit values exactly if the last inner bucket ends among them and
      there is room below the first. */
  lemma PublishedTileIff(a: Axis)
    requires Proper(a)
    ensures PublishedTile(a) <==> EndsInside(a)
  {
    if EndsInside(a) {
      forall i | 0 < i < a.buckets - 1
        ensures EndOf(a, i) <= MAX64
      {
        EndsBelow(a, i, a.buckets - 2);
      }
      BoundedPublished(a);
    }
    if PublishedTile(a) {
      if a.buckets > 2 { TiledEnds(a, a.buckets - 2); }
      if a.buckets > 1 { TiledStart(a); }
    }
  }

  lemma TiledStart(a: Axis)
    requires Proper(a) && PublishedTile(a) && a.buckets > 1
    ensures MIN64 < a.min
  {
    assert Meets(a, 0);
    assert Wrap(MIN64 - 1) == MAX64;
  }

  lemma BoundedPublished(a: Axis)
    requires Bounded(a)
    ensures PublishedTile(a)
  {
    RangesTile(a);
    RangesUnwrapped(a);
    assert forall i :: 0 <= i < a.buckets ==> Published(a, i) == RangeOf(a, i);
  }

  /** Twice `x`, `n` times over. */
  function Doubled(x: nat, n: nat): nat
    decreases n
  {
    if n == 0 then x else Doubled(2 * x, n - 1)
  }

  lemma {:induction false} DoubledIs(x: nat, n: nat)
    ensures Doubled(x, n) == Pow2(n) * x
    decreases n
  {
    if n > 0 {
      DoubledIs(2 * x, n - 1);
      assert Pow2(n - 1) * (2 * x) == Pow2(n) * x;
    }
  }

  /** What the inner ranges are: the first starts at the minimum and is one quantum wide; on the linear scale
      so are all others; on the log2 scale the second is as wide as the first, and each further one twice
      as wide as the one before. */
  lemma RangeWidths(a: Axis, i: nat)
    requires Bounded(a) && 0 < i < a.buckets - 1
    ensures i == 1 ==> Published(a, i) == (a.min, a.min + a.quant - 1)
    ensures Published(a, i).1 - Published(a, i).0 + 1
         == if a.scale == Linear || i == 1 then a.quant else Doubled(a.quant, i - 2)
  {
    RangesUnwrapped(a);
    assert Int64(RangeOf(a, i).0) && Int64(RangeOf(a, i).1);
    if i == 1 {
      assert Quants(1, a.scale) == 1;
    } else if a.scale == Linear {
      Widens(a, i);
    } else {
      Widens(a, i);
      DoubledIs(a.quant, i - 2);
    }
  }

  ghost predicate InRange(value: int, a: Axis, i: int) {
    0 <= i < a.buckets && RangeOf(a, i).0 <= value <= RangeOf(a, i).1
  }

  lemma {:induction false} RangesOrdered(a: Axis, i: nat, j: nat)
    requires Valid(a) && i < j < a.buckets
    ensures RangeOf(a, i).1 < RangeOf(a, j).0
    decreases j - i
  {
    RangesTile(a);
    assert RangeOf(a, i).1 + 1 == RangeOf(a, i + 1).0;
    if i + 1 < j {
      RangesOrdered(a, i + 1, j);
      assert RangeOf(a, i + 1).0 <= RangeOf(a, i + 1).1;
    }
  }

  /** No value is in two ranges. */
  lemma RangeUnique(a: Axis, value: int, i: int, j: int)
    requires Valid(a) && InRange(value, a, i) && InRange(value, a, j)
    ensures i == j
  {
    if i < j { RangesOrdered(a, i, j); }
    if j < i { RangesOrdered(a, j, i); }
  }

  // ---------- The bucket of a value ----------

  /** Neither the subtraction nor the increment in the bucket computation overflows. */
  predicate NoOverflow(value: int, a: Axis) {
    value - a.min <= MAX64 && !(a.scale == Linear && a.quant == 1 && value - a.min == MAX64)
  }

  lemma QuotientBounds(d: nat, q: nat, k: nat)
    requires q > 0
    ensures d / q < k <==> d < k * q
  {
    assert d == q * (d / q) + d % q;
    if d / q < k {
      assert q * (d / q + 1) <= q * k;
    } else {
      assert q * k <= q * (d / q);
    }
  }

  lemma {:induction false} FirstAboveIs(value: int, buckets: nat, i: nat)
    requires 0 < i <= buckets && buckets > 1 && (i > 1 ==> value >= Quants(i - 1, Log2))
    ensures var b := FirstAbove(value, buckets, i);
            && 1 <= b < buckets && b >= i - 1
            && (b > 1 ==> value >= Quants(b - 1, Log2)) && (b < buckets - 1 ==> value < Quants(b, Log2))
    decreases buckets - i
  {
    if i < buckets && value >= Quants(i, Log2) { FirstAboveIs(value, buckets, i + 1); }
    if i == buckets { QuantsGrow2(buckets, value); }
  }

  lemma QuantsGrow2(buckets: nat, value: int)
    requires buckets > 1 && value >= Quants(buckets - 1, Log2)
    ensures buckets > 2 ==> value >= Quants(buckets - 2, Log2)
  {
    if buckets > 2 { QuantsGrow(buckets - 2, Log2); }
  }

  /** A value above the minimum is in bucket b when its quantum is. */
  lemma InBucket(value: int, a: Axis, b: int)
    requires Valid(a) && a.min <= value <= MAX64 && 1 <= b < a.buckets
    requires var v := (value - a.min) / a.quant;
             (b > 1 ==> v >= Quants(b - 1, a.scale)) && (b < a.buckets - 1 ==> v < Quants(b, a.scale))
    ensures InRange(value, a, b)
  {
    var d := value - a.min;
    if b > 1 { QuotientBounds(d, a.quant, Quants(b - 1, a.scale)); }
    if b < a.buckets - 1 { QuotientBounds(d, a.quant, Quants(b, a.scale)); }
  }

  lemma SmallQuotient(value: int, a: Axis)
    requires Valid(a) && a.min <= value && NoOverflow(value, a)
    ensures var v := (value - a.min) / a.quant;
            0 <= v && (a.scale == Linear ==> v < MAX64) && Wrap(value - a.min) == value - a.min
            && Truncated(value - a.min, a.quant) == v
  {
    var d := value - a.min;
    assert Wrap(d) == d;
    QuotientAtMost(d, a.quant);
    if a.quant > 1 { QuotientSmaller(d, a.quant); }
  }

  lemma QuotientAtMost(d: nat, q: nat)
    requires q > 0
    ensures 0 <= d / q && (q == 1 ==> d / q == d)
  {
  }

  lemma QuotientSmaller(d: nat, q: nat)
    requires q > 1
    ensures d > 0 ==> d / q < d
    ensures d == 0 ==> d / q == 0
  {
    DivMod(d, q);
    MulLe(d / q, 2, q);
  }

  /** The bucket chosen for a value is the one whose published range contains it. */
  lemma BucketInItsRange(value: int, a: Axis)
    requires Valid(a) && Int64(value) && NoOverflow(value, a)
    ensures InRange(value, a, Bucket(value, a))
  {
    if value >= a.min && a.buckets > 1 {
      SmallQuotient(value, a);
      var v := (value - a.min) / a.quant;
      if a.scale == Log2 { FirstAboveIs(v, a.buckets, 1); }
      InBucket(value, a, Bucket(value, a));
    } else if value >= a.min {
      SmallQuotient(value, a);
    }
  }

  // ---------- Axes on which every value is bucketed correctly ----------

  /** For a log2 axis with at most two buckets, and a linear one with a single huge bucket, overflow does no harm. */
  predicate Safe(a: Axis) {
    match a.scale
    case Linear => if a.quant == 1 then a.min >= 1 else a.min >= 0 || (a.buckets == 1 && a.quant > 0x4000_0000_0000_0000)
    case Log2 => a.min >= 0 || a.buckets <= 2
  }

  lemma SafeIsRight(value: int, a: Axis)
    requires Valid(a) && Safe(a) && Int64(value)
    ensures InRange(value, a, Bucket(value, a))
  {
    if NoOverflow(value, a) {
      BucketInItsRange(value, a);
    } else {
      OverflowHarmless(value, a);
    }
  }

  lemma OverflowHarmless(value: int, a: Axis)
    requires Valid(a) && Safe(a) && Int64(value) && !NoOverflow(value, a)
    ensures InRange(value, a, Bucket(value, a))
  {
    var w := Wrap(value - a.min);
    assert value >= a.min && a.min < 0;
    assert w == value - a.min - 0x1_0000_0000_0000_0000 && MIN64 <= w < 0;
    if a.scale == Linear {
      QuotientBounds(-w, a.quant, 2);
      assert Truncated(w, a.quant) >= -1;
    } else {
      assert FirstAbove(Truncated(w, a.quant), a.buckets, 1) == a.buckets - 1;
    }
  }

  /** On an axis that is not safe some value gets a bucket that is not its own. */
  lemma UnsafeIsWrong(a: Axis) returns (value: int)
    requires Valid(a) && !Safe(a)
    ensures Int64(value) && !InRange(value, a, Bucket(value, a))
  {
    if a.scale == Linear && a.quant == 1 {
      value := a.min + MAX64;
      IncrementOverflows(a, value);
    } else {
      value := a.min - MIN64;
      SubtractionOverflows(a, value);
    }
  }

  lemma IncrementOverflows(a: Axis, value: int)
    requires Valid(a) && a.scale == Linear && a.quant == 1 && a.min <= 0 && value == a.min + MAX64
    ensures Int64(value) && Bucket(value, a) == MIN64
  {
    assert Truncated(MAX64, 1) == MAX64 && Wrap(MAX64 + 1) == MIN64;
  }

  lemma SubtractionOverflows(a: Axis, value: int)
    requires Valid(a) && !Safe(a) && !(a.scale == Linear && a.quant == 1) && value == a.min - MIN64
    ensures Int64(value) && !InRange(value, a, Bucket(value, a))
  {
    assert Wrap(value - a.min) == MIN64;
    var v := Truncated(MIN64, a.quant);
    QuotientBounds(-MIN64, a.quant, 1);
    QuotientBounds(-MIN64, a.quant, 2);
    assert v <= -1;
    if a.scale == Linear {
      assert Bucket(value, a) == (if Wrap(v + 1) < a.buckets - 1 then Wrap(v + 1) else a.buckets - 1);
      assert Wrap(v + 1) == v + 1;
      LastHasIt(a, value);
    } else {
      assert FirstAbove(v, a.buckets, 1) == 1;
      LastHasIt(a, value);
    }
  }

  /** So far above the minimum only the last bucket is right. */
  lemma LastHasIt(a: Axis, value: int)
    requires Valid(a) && value == a.min - MIN64 && Int64(value)
    ensures forall b :: InRange(value, a, b) ==> b == a.buckets - 1
  {
    assert forall i :: 0 < i < a.buckets - 1 ==> EndOf(a, i) <= a.min + MAX64;
  }

  /** Bucket and ranges agree on every 64-bit value exactly if the axis is safe. */
  lemma AgreeIffSafe(a: Axis)
    requires Valid(a)
    ensures (forall value :: Int64(value) ==> InRange(value, a, Bucket(value, a))) <==> Safe(a)
  {
    if Safe(a) {
      forall value | Int64(value)
        ensures InRange(value, a, Bucket(value, a))
      {
        SafeIsRight(value, a);
      }
    } else {
      var value := UnsafeIsWrong(a);
    }
  }
}
