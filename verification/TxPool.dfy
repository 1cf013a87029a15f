/** The transmit chunk allocator: a cluster of equal buffers, a stack of free chunks, and the
    loop that fills the chunks of one request. */
module TxPool {
  import opened Common

  /** Chunks are numbered by their place in the cluster; `offsets[i]` is how far chunk i is filled. */
  datatype Pool = Pool(buffer: nat, free: seq<nat>, offsets: seq<nat>)

  /** Free chunks are distinct and empty, and no chunk is filled beyond its buffer. */
  ghost predicate Inv(p: Pool) {
    && p.buffer > 0 && NoDup(p.free)
    && (forall c :: c in p.free ==> c < |p.offsets| && p.offsets[c] == 0)
    && (forall c :: 0 <= c < |p.offsets| ==> p.offsets[c] <= p.buffer)
  }

  ghost predicate Outstanding(p: Pool, cs: seq<nat>) {
    NoDup(cs) && Within(cs, |p.offsets|) && forall i :: 0 <= i < |cs| ==> cs[i] !in p.free
  }

  ghost predicate Within(cs: seq<nat>, n: nat) { forall i :: 0 <= i < |cs| ==> cs[i] < n }

  ghost predicate Empty(p: Pool, cs: seq<nat>) {
    Within(cs, |p.offsets|) && forall i :: 0 <= i < |cs| ==> p.offsets[cs[i]] == 0
  }

  // ---------- Operations ----------

  const U32: nat := 0x1_0000_0000
  const U64: nat := 0x1_0000_0000_0000_0000

  /** The 32-bit size of the cluster, and where the creation loop is after `k` chunks. */
  function Bytes(buffer: nat, num: nat): nat { buffer * num % U32 }

  function Start(buffer: nat, k: nat): nat { buffer * k % U32 }

  /** How many chunks the loop makes: it goes on while its 32-bit offset is below the size. */
  function CreatedFrom(buffer: nat, num: nat, k: nat): (n: nat)
    requires k <= num
    ensures k <= n <= num && Start(buffer, n) >= Bytes(buffer, num)
    ensures forall j :: k <= j < n ==> Start(buffer, j) < Bytes(buffer, num)
    decreases num - k
  {
    if Start(buffer, k) >= Bytes(buffer, num) then k else CreatedFrom(buffer, num, k + 1)
  }

  function Created(buffer: nat, num: nat): nat { CreatedFrom(buffer, num, 0) }

  function Filled(buffer: nat, n: nat): Pool {
    Pool(buffer, seq(n, i => i), seq(n, i => 0))
  }

  /** The last `k` free chunks, last first; `None` is the abort of an empty pool. */
  function Get(p: Pool, k: nat): Option<(Pool, seq<nat>)> {
    if k > |p.free| then None
    else Some((p.(free := p.free[..|p.free| - k]), Popped(p.free, k)))
  }

  function Popped(free: seq<nat>, k: nat): seq<nat>
    requires k <= |free|
  {
    seq(k, i requires 0 <= i < k => free[|free| - 1 - i])
  }

  function ChunksFor(buffer: nat, n: nat): nat
    requires buffer > 0
  {
    (n + buffer - 1) / buffer
  }

  /** The same as the code computes it, the sum in 64 and the result in 32 bits. */
  function CutChunks(buffer: nat, n: nat): nat
    requires buffer > 0
  {
    (n + buffer - 1) % U64 / buffer % U32
  }

  function ZeroFill(p: Pool, c: nat, len: nat): (Pool, nat)
    requires c < |p.offsets| && p.offsets[c] <= p.buffer
  {
    var w := if p.buffer - p.offsets[c] <= len then p.buffer - p.offsets[c] else len;
    (p.(offsets := p.offsets[c := p.offsets[c] + w]), w)
  }

  /** The fill loop for a request of `n` bytes; `None` is one of its failed assertions:
      out of chunks, or chunks left over. */
  function FillAll(p: Pool, cs: seq<nat>, n: nat): Option<Pool>
    decreases |cs|
  {
    if n == 0 then if cs == [] then Some(p) else None
    else if cs == [] || cs[0] >= |p.offsets| || p.offsets[cs[0]] > p.buffer then None
    else FillAll(ZeroFill(p, cs[0], n).0, cs[1..], n - ZeroFill(p, cs[0], n).1)
  }

  function TakeBack(p: Pool, cs: seq<nat>): Pool
    requires Within(cs, |p.offsets|)
    decreases |cs|
  {
    if cs == [] then p
    else TakeBack(p.(offsets := p.offsets[cs[0] := 0], free := p.free + [cs[0]]), cs[1..])
  }

  // ---------- Creation ----------

  lemma FilledInv(buffer: nat, n: nat)
    requires buffer > 0
    ensures Inv(Filled(buffer, n)) && |Filled(buffer, n).free| == n
  {
  }

  /** All the chunks asked for are made, each with its buffer inside the cluster. */
  ghost predicate WellFilled(buffer: nat, num: nat) {
    Created(buffer, num) == num && forall k :: 0 <= k < num ==> Start(buffer, k) + buffer <= Bytes(buffer, num)
  }

  lemma NoWrap(buffer: nat, num: nat, k: nat)
    requires 0 < buffer && buffer * num < U32 && k <= num
    ensures Start(buffer, k) == buffer * k <= buffer * num == Bytes(buffer, num)
    ensures k < num ==> Start(buffer, k) + buffer <= Bytes(buffer, num)
  {
    MulLe(buffer, k, num);
    if k < num {
      Distribute(buffer, k);
      MulLe(buffer, k + 1, num);
    }
  }

  /** The last chunk before the offset wraps. */
  lemma {:induction false} LastBeforeWrap(buffer: nat, num: nat) returns (k: nat)
    requires 0 < buffer && buffer * num >= U32
    ensures k < num && buffer * k < U32 <= buffer * k + buffer
  {
    Distribute(buffer, num - 1);
    if buffer * (num - 1) < U32 {
      k := num - 1;
    } else {
      k := LastBeforeWrap(buffer, num - 1);
    }
  }

  /** The creation loop always ends, and the cluster is filled as intended exactly if it is smaller
      than 4 GiB; from there on sizes and offsets wrap. */
  lemma WellFilledIff(buffer: nat, num: nat)
    requires 0 < buffer
    ensures WellFilled(buffer, num) <==> buffer * num < 0x1_0000_0000
  {
    if buffer * num < U32 {
      forall k | 0 <= k <= num
        ensures Start(buffer, k) == buffer * k
        ensures k < num ==> Start(buffer, k) + buffer <= Bytes(buffer, num)
      {
        NoWrap(buffer, num, k);
      }
      NoWrap(buffer, num, Created(buffer, num));
    } else {
      var k := LastBeforeWrap(buffer, num);
      assert Start(buffer, k) == buffer * k;
    }
  }

  /** Above that the number of chunks alone says nothing: here it comes out right, with 8 GiB asked for
      and half of that there. */
  lemma CountAloneMisleads()
    ensures Created(7, 1227133513) == 1227133513 && !WellFilled(7, 1227133513)
  {
    var n := Created(7, 1227133513);
    assert Bytes(7, 1227133513) == U32 - 1;
    assert n < 1227133513 ==> 7 * n < 2 * U32 - 1;
    WellFilledIff(7, 1227133513);
  }

  // ---------- Allocation and return ----------

  lemma PoppedDistinct(free: seq<nat>, k: nat)
    requires NoDup(free) && k <= |free|
    ensures NoDup(Popped(free, k)) && (forall i :: 0 <= i < k ==> Popped(free, k)[i] !in free[..|free| - k])
    ensures multiset(free[..|free| - k]) + multiset(Popped(free, k)) == multiset(free)
  {
    var n, cs := |free| - k, Popped(free, k);
    assert forall i :: 0 <= i < k ==> cs[i] == free[|free| - 1 - i];
    assert free == free[..n] + free[n..];
    ReversedSame(free[n..], cs);
  }

  /** Allocating hands out distinct, empty chunks that were free and no longer are. */
  lemma GetEffect(p: Pool, k: nat)
    requires Inv(p)
    ensures Get(p, k).Some? <==> k <= |p.free|
    ensures Get(p, k).Some? ==>
              var (p', cs) := Get(p, k).value;
              && Inv(p') && |cs| == k && Outstanding(p', cs) && Empty(p', cs)
              && p'.offsets == p.offsets && p'.buffer == p.buffer
              && multiset(p'.free) + multiset(cs) == multiset(p.free)
  {
    if k <= |p.free| {
      PoppedDistinct(p.free, k);
      var cs := Popped(p.free, k);
      assert forall i :: 0 <= i < k ==> cs[i] in p.free;
    }
  }

  lemma {:induction false} ReversedSame(s: seq<nat>, r: seq<nat>)
    requires |s| == |r| && forall i :: 0 <= i < |s| ==> r[i] == s[|s| - 1 - i]
    ensures multiset(s) == multiset(r)
  {
    if s != [] {
      assert s == s[..|s| - 1] + [s[|s| - 1]] && r == [r[0]] + r[1..];
      ReversedSame(s[..|s| - 1], r[1..]);
    }
  }

  /** Returned chunks are empty and free again. */
  lemma {:induction false} TakeBackEffect(p: Pool, cs: seq<nat>)
    requires Inv(p) && Outstanding(p, cs)
    ensures var p' := TakeBack(p, cs);
            && Inv(p') && |p'.offsets| == |p.offsets| && p'.buffer == p.buffer && p'.free == p.free + cs
    decreases |cs|
  {
    if cs == [] {
      assert p.free + [] == p.free;
    } else {
      assert cs[0] in cs;
      var p1 := p.(offsets := p.offsets[cs[0] := 0], free := p.free + [cs[0]]);
      assert forall i :: 0 <= i < |cs[1..]| ==> cs[1..][i] == cs[i + 1];
      assert Outstanding(p1, cs[1..]);
      TakeBackEffect(p1, cs[1..]);
      assert p.free + [cs[0]] + cs[1..] == p.free + cs;
    }
  }

  // ---------- One request ----------

  /** How far the i-th chunk of a request of n bytes is filled. */
  function Share(buffer: nat, n: nat, i: nat): nat {
    if n <= buffer * i then 0 else if n - buffer * i <= buffer then n - buffer * i else buffer
  }

  lemma ChunksForStep(buffer: nat, n: nat)
    requires buffer > 0
    ensures n == 0 ==> ChunksFor(buffer, n) == 0
    ensures 0 < n <= buffer ==> ChunksFor(buffer, n) == 1
    ensures n > buffer ==> ChunksFor(buffer, n) == 1 + ChunksFor(buffer, n - buffer)
  {
    if n == 0 {
      Quotient(buffer, 0, buffer - 1, buffer - 1);
    } else if n <= buffer {
      Quotient(buffer, 1, n - 1, n + buffer - 1);
    } else {
      var x := n - 1;
      assert x == buffer * (x / buffer) + x % buffer;
      Quotient(buffer, x / buffer + 1, x % buffer, n + buffer - 1);
    }
  }

  lemma ShareStep(buffer: nat, n: nat, i: nat)
    requires buffer > 0 && n > buffer
    ensures Share(buffer, n, i + 1) == Share(buffer, n - buffer, i)
  {
    assert buffer * (i + 1) == buffer * i + buffer;
  }

  /** Each chunk of the request has its share and no other chunk has changed. */
  ghost predicate FilledFor(p: Pool, p': Pool, cs: seq<nat>, n: nat)
    requires Within(cs, |p.offsets|)
  {
    && p'.buffer == p.buffer && p'.free == p.free && |p'.offsets| == |p.offsets|
    && (forall i :: 0 <= i < |cs| ==> p'.offsets[cs[i]] == Share(p.buffer, n, i))
    && (forall c :: 0 <= c < |p.offsets| && c !in cs ==> p'.offsets[c] == p.offsets[c])
  }

  /** The loop uses exactly all chunks of the request, fills all but the last completely and the
      last with the rest, and touches no other chunk: its assertions hold. */
  lemma {:induction false} FillExact(p: Pool, cs: seq<nat>, n: nat)
    requires p.buffer > 0 && NoDup(cs) && Empty(p, cs)
    requires |cs| == ChunksFor(p.buffer, n)
    ensures FillAll(p, cs, n).Some?
    ensures FilledFor(p, FillAll(p, cs, n).value, cs, n)
    decreases |cs|
  {
    ChunksForStep(p.buffer, n);
    if n > p.buffer {
      var p1 := ZeroFill(p, cs[0], n).0;
      assert Empty(p1, cs[1..]);
      FillExact(p1, cs[1..], n - p.buffer);
      FillCons(p, p1, FillAll(p1, cs[1..], n - p.buffer).value, cs, n);
    } else if n > 0 {
      assert cs[1..] == [];
      LastShare(p.buffer, n);
    }
  }

  lemma LastShare(buffer: nat, n: nat)
    requires 0 < n <= buffer
    ensures Share(buffer, n, 0) == n
  {
    assert buffer * 0 == 0;
  }

  lemma FillCons(p: Pool, p1: Pool, p2: Pool, cs: seq<nat>, n: nat)
    requires cs != [] && NoDup(cs) && Empty(p, cs) && n > p.buffer > 0
    requires p1 == p.(offsets := p.offsets[cs[0] := p.buffer]) && FilledFor(p1, p2, cs[1..], n - p.buffer)
    ensures FilledFor(p, p2, cs, n)
  {
    assert cs == [cs[0]] + cs[1..] && cs[0] !in cs[1..];
    forall i | 0 <= i < |cs|
      ensures p2.offsets[cs[i]] == Share(p.buffer, n, i)
    {
      if i > 0 {
        ShareStep(p.buffer, n, i - 1);
        assert cs[i] == cs[1..][i - 1];
      } else {
        assert p.buffer * 0 == 0;
      }
    }
  }

  ghost function SumShares(buffer: nat, n: nat, k: nat): nat {
    if k == 0 then 0 else SumShares(buffer, n, k - 1) + Share(buffer, n, k - 1)
  }

  lemma {:induction false} SharesAddUp(buffer: nat, n: nat, k: nat)
    requires buffer > 0
    ensures SumShares(buffer, n, k) == if n <= buffer * k then n else buffer * k
  {
    if k > 0 {
      SharesAddUp(buffer, n, k - 1);
      assert buffer * k == buffer * (k - 1) + buffer;
    }
  }

  lemma ChunksCover(buffer: nat, n: nat)
    requires buffer > 0
    ensures n <= buffer * ChunksFor(buffer, n) < n + buffer
  {
    var x := n + buffer - 1;
    assert x == buffer * (x / buffer) + x % buffer;
  }

  lemma SharesOfRequest(buffer: nat, n: nat)
    requires buffer > 0
    ensures var k := ChunksFor(buffer, n);
            && SumShares(buffer, n, k) == n
            && (forall i :: 0 <= i < k - 1 ==> Share(buffer, n, i) == buffer)
            && (k > 0 ==> Share(buffer, n, k - 1) > 0)
  {
    var k := ChunksFor(buffer, n);
    ChunksCover(buffer, n);
    SharesAddUp(buffer, n, k);
    forall i | 0 <= i < k
      ensures i < k - 1 ==> Share(buffer, n, i) == buffer
      ensures Share(buffer, n, i) > 0
    {
      FullBefore(buffer, n, k, i);
    }
  }

  /** A request of n bytes from a pool that has enough gets ceil(n / buffer) distinct chunks, and
      the fill loop uses them all, all but the last full, with offsets summing to n. */
  lemma RequestServed(p: Pool, n: nat)
    requires Inv(p) && ChunksFor(p.buffer, n) <= |p.free|
    ensures Get(p, ChunksFor(p.buffer, n)).Some?
    ensures var k := ChunksFor(p.buffer, n);
            var (p1, cs) := Get(p, k).value;
            var p2 := FillAll(p1, cs, n);
            && |cs| == k && Outstanding(p1, cs) && p2.Some? && FilledFor(p1, p2.value, cs, n)
            && SumShares(p.buffer, n, k) == n
            && (forall i :: 0 <= i < k - 1 ==> p2.value.offsets[cs[i]] == p.buffer)
            && (k > 0 ==> p2.value.offsets[cs[k - 1]] > 0)
  {
    var k := ChunksFor(p.buffer, n);
    GetEffect(p, k);
    var (p1, cs) := Get(p, k).value;
    FillExact(p1, cs, n);
    SharesOfRequest(p.buffer, n);
  }

  /** With any other number of chunks one of the loop's assertions fails. */
  lemma {:induction false} FillWrong(p: Pool, cs: seq<nat>, n: nat)
    requires p.buffer > 0 && NoDup(cs) && Empty(p, cs)
    requires |cs| != ChunksFor(p.buffer, n)
    ensures FillAll(p, cs, n).None?
    decreases |cs|
  {
    ChunksForStep(p.buffer, n);
    if cs != [] && n > p.buffer {
      var p1 := ZeroFill(p, cs[0], n).0;
      assert Empty(p1, cs[1..]);
      FillWrong(p1, cs[1..], n - p.buffer);
    } else if cs != [] && n > 0 {
      assert cs[1..] != [];
    }
  }

  lemma UncutIff(buffer: nat, n: nat)
    requires 0 < buffer < U32 && n < U64
    ensures CutChunks(buffer, n) == ChunksFor(buffer, n) <==> n + buffer - 1 < U64 && ChunksFor(buffer, n) < U32
  {
    var x := n + buffer - 1;
    if x >= U64 {
      Quotient(U64, 1, x - U64, x);
      Quotient(buffer, 0, x - U64, x - U64);
      ChunksCover(buffer, n);
      assert CutChunks(buffer, n) == 0;
    }
  }

  /** A request that the pool can serve is filled exactly if the number of its chunks is not cut. */
  lemma ServedIffUncut(p: Pool, n: nat)
    requires Inv(p) && p.buffer < U32 && n < U64 && CutChunks(p.buffer, n) <= |p.free|
    ensures Get(p, CutChunks(p.buffer, n)).Some?
    ensures var (p1, cs) := Get(p, CutChunks(p.buffer, n)).value;
            FillAll(p1, cs, n).Some? <==> n + p.buffer - 1 < U64 && ChunksFor(p.buffer, n) < U32
  {
    var k := CutChunks(p.buffer, n);
    GetEffect(p, k);
    UncutIff(p.buffer, n);
    var (p1, cs) := Get(p, k).value;
    if k == ChunksFor(p.buffer, n) { FillExact(p1, cs, n); } else { FillWrong(p1, cs, n); }
  }

  /** The free chunks are a stack: those that come back last are handed out first. */
  lemma LastInFirstOut(p: Pool, cs: seq<nat>)
    requires Inv(p) && Outstanding(p, cs)
    ensures Get(TakeBack(p, cs), |cs|).Some?
    ensures var (p', out) := Get(TakeBack(p, cs), |cs|).value;
            p'.free == p.free && |out| == |cs| && forall i :: 0 <= i < |cs| ==> out[i] == cs[|cs| - 1 - i]
  {
    TakeBackEffect(p, cs);
    assert (p.free + cs)[..|p.free|] == p.free;
  }

  /** Returning the chunks of a served request restores the free chunks. */
  lemma RequestReturned(p: Pool, n: nat)
    requires Inv(p) && ChunksFor(p.buffer, n) <= |p.free|
    ensures Get(p, ChunksFor(p.buffer, n)).Some?
    ensures var (p1, cs) := Get(p, ChunksFor(p.buffer, n)).value;
            var p2 := FillAll(p1, cs, n);
            && p2.Some? && Inv(p2.value) && Outstanding(p2.value, cs)
            && Inv(TakeBack(p2.value, cs)) && multiset(TakeBack(p2.value, cs).free) == multiset(p.free)
  {
    GetEffect(p, ChunksFor(p.buffer, n));
    var (p1, cs) := Get(p, ChunksFor(p.buffer, n)).value;
    FillExact(p1, cs, n);
    FilledInvariant(p1, FillAll(p1, cs, n).value, cs, n);
    TakeBackEffect(FillAll(p1, cs, n).value, cs);
  }

  lemma FullBefore(buffer: nat, n: nat, k: nat, i: nat)
    requires buffer > 0 && i < k && buffer * k < n + buffer
    ensures Share(buffer, n, i) > 0 && (i < k - 1 ==> Share(buffer, n, i) == buffer)
  {
    assert buffer * (k - 1) == buffer * k - buffer;
    assert buffer * i <= buffer * (k - 1);
    if i < k - 1 {
      assert buffer * (i + 1) == buffer * i + buffer;
      assert buffer * (i + 1) <= buffer * (k - 1);
    }
  }

  lemma FilledInvariant(p1: Pool, p2: Pool, cs: seq<nat>, n: nat)
    requires Inv(p1) && Outstanding(p1, cs) && FilledFor(p1, p2, cs, n)
    ensures Inv(p2) && Outstanding(p2, cs)
  {
    forall c | 0 <= c < |p2.offsets|
      ensures p2.offsets[c] <= p2.buffer
    {
      if c in cs { var i :| 0 <= i < |cs| && cs[i] == c; }
    }
  }

  // ---------- Every run ----------

  /** Clients fill and give back only chunks they hold. */
  datatype Op = Allocate(k: nat) | Fill(c: nat, len: nat) | Return(cs: seq<nat>)

  ghost predicate Allowed(p: Pool, op: Op) {
    match op
    case Allocate(k) => k <= |p.free|
    case Fill(c, _) => c < |p.offsets| && c !in p.free && p.offsets[c] <= p.buffer
    case Return(cs) => Outstanding(p, cs)
  }

  ghost function Apply(p: Pool, op: Op): Pool
    requires Allowed(p, op)
  {
    match op
    case Allocate(k) => Get(p, k).value.0
    case Fill(c, len) => ZeroFill(p, c, len).0
    case Return(cs) => TakeBack(p, cs)
  }

  ghost predicate LegalRun(p: Pool, ops: seq<Op>)
    decreases |ops|
  {
    ops == [] || (Allowed(p, ops[0]) && LegalRun(Apply(p, ops[0]), ops[1..]))
  }

  ghost function RunFrom(p: Pool, ops: seq<Op>): Pool
    requires LegalRun(p, ops)
    decreases |ops|
  {
    if ops == [] then p else RunFrom(Apply(p, ops[0]), ops[1..])
  }

  lemma {:induction false} RunInv(p: Pool, ops: seq<Op>)
    requires Inv(p) && LegalRun(p, ops)
    ensures var p' := RunFrom(p, ops); Inv(p') && |p'.offsets| == |p.offsets| && p'.buffer == p.buffer
    decreases |ops|
  {
    if ops != [] {
      match ops[0] {
        case Allocate(k) => GetEffect(p, k);
        case Fill(c, len) =>
        case Return(cs) => TakeBackEffect(p, cs);
      }
      RunInv(Apply(p, ops[0]), ops[1..]);
    }
  }

  ghost function Range(n: nat): set<nat> { if n == 0 then {} else Range(n - 1) + {n - 1} }

  lemma {:induction false} RangeSize(n: nat)
    ensures |Range(n)| == n && forall c: nat :: c in Range(n) <==> c < n
  {
    if n > 0 { RangeSize(n - 1); }
  }

  ghost function Members(s: seq<nat>): set<nat> { set c | c in s }

  lemma {:induction false} DistinctSize(s: seq<nat>)
    requires NoDup(s)
    ensures |Members(s)| == |s|
  {
    if s != [] {
      var rest, last := s[..|s| - 1], s[|s| - 1];
      assert s == rest + [last];
      DistinctSize(rest);
      assert last !in rest;
      assert Members(s) == Members(rest) + {last};
    }
  }

  /** In every run from a filled cluster, free and outstanding chunks partition the cluster and
      every free chunk is empty. */
  lemma PoolPartition(buffer: nat, n: nat, ops: seq<Op>)
    requires buffer > 0 && LegalRun(Filled(buffer, n), ops)
    ensures var p := RunFrom(Filled(buffer, n), ops);
            var out := Range(n) - Members(p.free);
            && NoDup(p.free) && |p.offsets| == n && Members(p.free) <= Range(n) && |p.free| + |out| == n
            && Empty(p, p.free)
  {
    FilledInv(buffer, n);
    RunInv(Filled(buffer, n), ops);
    var p := RunFrom(Filled(buffer, n), ops);
    RangeSize(n);
    DistinctSize(p.free);
    assert Members(p.free) <= Range(n);
    assert (Range(n) - Members(p.free)) + Members(p.free) == Range(n);
    assert forall i :: 0 <= i < |p.free| ==> p.free[i] in p.free;
  }

  // ---------- Addresses ----------

  function ChunkByBuffer(base: nat, buffer: nat, address: nat): nat
    requires buffer > 0 && address >= base
  {
    (address - base) / buffer % U32
  }

  /** An address leads back to chunk i exactly if it lies in chunk i's buffer. */
  lemma AddressRoundTrip(base: nat, buffer: nat, num: nat, i: nat, address: nat)
    requires 0 < buffer && num <= U32 && i < num && base <= address < base + buffer * num
    ensures ChunkByBuffer(base, buffer, address) == i <==> base + buffer * i <= address < base + buffer * (i + 1)
  {
    var d := address - base;
    var q := d / buffer;
    DivMod(d, buffer);
    LessCancel(buffer, q, num);
    Distribute(buffer, q);
    Distribute(buffer, i);
    if buffer * i <= d < buffer * i + buffer { Quotient(buffer, i, d - buffer * i, d); }
  }

  // ---------- The object ----------

  function Starts(buffer: nat, n: nat): seq<nat> { seq(n, i requires 0 <= i < n => Start(buffer, i)) }

  lemma AddWraps(x: nat, y: nat)
    ensures (x % U32 + y) % U32 == (x + y) % U32
  {
  }

  lemma NextStart(buffer: nat, k: nat)
    ensures (Start(buffer, k) + buffer) % U32 == Start(buffer, k + 1)
  {
    Distribute(buffer, k);
    AddWraps(buffer * k, buffer);
  }

  class Cluster {
    const bufferSize: nat
    var freeChunks: seq<nat>
    const offset: array<nat>
    /** Where each chunk's buffer begins in the cluster. */
    var starts: seq<nat>

    function View(): Pool
      reads this, offset
    {
      Pool(bufferSize, freeChunks, offset[..])
    }

    /** `fill`: the loop over the cluster's bytes, with 32-bit sizes and offsets. */
    constructor (buffer: nat, num: nat)
      requires 0 < buffer
      ensures bufferSize == buffer && freeChunks == seq(Created(buffer, num), i => i)
      ensures starts == Starts(buffer, Created(buffer, num)) && offset[..] == seq(num, i => 0)
      ensures buffer * num < U32 ==> View() == Filled(buffer, num)
    {
      bufferSize := buffer;
      offset := new nat[num](i => 0);
      freeChunks, starts := [], [];
      new;
      WellFilledIff(buffer, num);
      var at, chunk := 0, 0;
      while at < buffer * num % U32
        invariant chunk <= num && at == Start(buffer, chunk) && CreatedFrom(buffer, num, chunk) == Created(buffer, num)
        invariant freeChunks == seq(chunk, i => i) && starts == Starts(buffer, chunk)
        invariant offset[..] == seq(num, i => 0)
        decreases num - chunk
      {
        NextStart(buffer, chunk);
        freeChunks := freeChunks + [chunk];
        starts := starts + [at];
        chunk := chunk + 1;
        at := (at + buffer) % U32;
      }
    }

    method GetChunks(num: nat) returns (ok: bool, chunks: seq<nat>)
      modifies this`freeChunks
      ensures ok == Get(old(View()), num).Some?
      ensures ok ==> (View(), chunks) == Get(old(View()), num).value
    {
      chunks := [];
      if num > |freeChunks| { return false, []; }
      ghost var n := |freeChunks|;
      while |chunks| < num
        invariant |chunks| <= num && freeChunks == old(freeChunks)[..n - |chunks|]
        invariant forall i :: 0 <= i < |chunks| ==> chunks[i] == old(freeChunks)[n - 1 - i]
        decreases num - |chunks|
      {
        chunks := chunks + [freeChunks[|freeChunks| - 1]];
        freeChunks := freeChunks[..|freeChunks| - 1];
      }
      assert chunks == Popped(old(freeChunks), num);
      ok := true;
    }

    method GetBuffers(blockSize: nat) returns (ok: bool, chunks: seq<nat>)
      requires bufferSize > 0
      modifies this`freeChunks
      ensures var k := CutChunks(bufferSize, blockSize);
              ok == Get(old(View()), k).Some? && (ok ==> (View(), chunks) == Get(old(View()), k).value)
    {
      ok, chunks := GetChunks((blockSize + bufferSize - 1) % U64 / bufferSize % U32);
    }

    method TakeBackChunks(cs: seq<nat>)
      requires Within(cs, offset.Length)
      modifies this`freeChunks, offset
      ensures View() == TakeBack(old(View()), cs)
    {
      var i := 0;
      assert cs[0..] == cs;
      while i < |cs|
        invariant i <= |cs|
        invariant TakeBack(View(), cs[i..]) == TakeBack(old(View()), cs)
      {
        assert cs[i..][0] == cs[i] && cs[i..][1..] == cs[i + 1..];
        ghost var p := View();
        offset[cs[i]] := 0;
        freeChunks := freeChunks + [cs[i]];
        assert View() == p.(offsets := p.offsets[cs[i] := 0], free := p.free + [cs[i]]);
        i := i + 1;
      }
    }

    method ZeroFillChunk(c: nat, len: nat) returns (w: nat)
      requires c < offset.Length && offset[c] <= bufferSize
      modifies offset
      ensures (View(), w) == ZeroFill(old(View()), c, len)
    {
      w := if bufferSize - offset[c] <= len then bufferSize - offset[c] else len;
      ghost var p := View();
      offset[c] := offset[c] + w;
      assert View() == p.(offsets := p.offsets[c := p.offsets[c] + w]);
    }

    /** The fill loop of a request; `ok` is false when one of its two assertions fails. */
    method FillRequest(chunks: seq<nat>, size: nat) returns (ok: bool)
      modifies offset
      ensures ok == FillAll(old(View()), chunks, size).Some?
      ensures ok ==> View() == FillAll(old(View()), chunks, size).value
    {
      var i, remaining := 0, size;
      while remaining > 0
        invariant i <= |chunks| && freeChunks == old(freeChunks)
        invariant FillAll(View(), chunks[i..], remaining) == FillAll(old(View()), chunks, size)
        decreases |chunks| - i
      {
        if i == |chunks| || chunks[i] >= offset.Length || offset[chunks[i]] > bufferSize { return false; }
        assert chunks[i..][0] == chunks[i] && chunks[i..][1..] == chunks[i + 1..];
        var w := ZeroFillChunk(chunks[i], remaining);
        remaining := remaining - w;
        i := i + 1;
      }
      ok := i == |chunks|;
    }
  }
}
