/** Definitions shared by the other modules. */
module Common {

  datatype Option<T> = None | Some(value: T)

  ghost predicate NoDup<T>(s: seq<T>) {
    forall i, j :: 0 <= i < j < |s| ==> s[i] != s[j]
  }

  // ---------- Concatenation

  lemma Concat<T>(a: seq<T>, b: seq<T>, c: seq<T>)
    ensures a + b + c == a + (b + c)
  {
  }

  lemma ConcatFour<T>(a: seq<T>, b: seq<T>, c: seq<T>, d: seq<T>)
    ensures a + b + c + d == a + (b + (c + d))
  {
    Concat(a + b, c, d);
    Concat(a, b, c + d);
  }

  lemma ConcatFive<T>(a: seq<T>, b: seq<T>, c: seq<T>, d: seq<T>, e: seq<T>)
    ensures a + b + c + d + e == a + (b + c + (d + e))
  {
    Concat(a + b + c, d, e);
    Concat(a, b, c);
    Concat(a, b + c, d + e);
  }

  // ---------- Sums

  ghost function Sum(xs: seq<nat>): nat {
    if xs == [] then 0 else xs[0] + Sum(xs[1..])
  }

  lemma {:induction false} SumUpdate(xs: seq<nat>, i: nat, x: nat)
    requires i < |xs|
    ensures Sum(xs[i := x]) == Sum(xs) - xs[i] + x
  {
    if i == 0 {
      assert xs[i := x][1..] == xs[1..];
    } else {
      assert xs[i := x][1..] == xs[1..][i - 1 := x];
      SumUpdate(xs[1..], i - 1, x);
    }
  }

  // ---------- Products and quotients ----------

  lemma Distribute(b: nat, x: int)
    ensures b * (x + 1) == b * x + b
  {
  }

  lemma LessCancel(b: nat, x: nat, y: nat)
    requires b * x < b * y
    ensures x < y
  {
  }

  lemma DivMod(x: nat, b: nat)
    requires b > 0
    ensures x == b * (x / b) + x % b
  {
  }

  /** Quotient and remainder are the only ones. */
  lemma Quotient(b: nat, q: nat, r: nat, x: nat)
    requires r < b && x == b * q + r
    ensures x / b == q && x % b == r
  {
    DivMod(x, b);
    Distribute(b, x / b);
    LessCancel(b, q, x / b + 1);
    Distribute(b, q);
    LessCancel(b, x / b, q + 1);
  }

  lemma DistributeSum(b: int, x: int, y: int)
    ensures b * (x + y) == b * x + b * y
  {
  }

  lemma MulLe(b: nat, x: int, y: int)
    requires x <= y
    ensures b * x <= b * y
  {
  }

  lemma LeCancel(b: nat, x: nat, y: nat)
    requires b > 0 && b * x <= b * y
    ensures x <= y
  {
    Distribute(b, y);
    LessCancel(b, x, y + 1);
  }

  /** Filling a window of `limit` bytes up with units of `size`, when `n` of them or more were seen in it. */
  lemma WindowFits(size: nat, limit: nat, seen: int, n: nat)
    requires size > 0 && size * n <= seen <= limit
    ensures var k := (limit - seen) / size; k >= 0 && n + k <= limit / size && size * n + k * size == size * (n + k)
  {
    var k := (limit - seen) / size;
    DivMod(limit - seen, size);
    DistributeSum(size, n, k);
    DivMod(limit, size);
    Distribute(size, limit / size);
    LessCancel(size, n + k, limit / size + 1);
  }
}
