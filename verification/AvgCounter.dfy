/** The lock-free (sum, count) pair of a long-run average: any number of writers and readers,
    interleaved at the grain of single atomic accesses, with 64-bit wrap-around. */
module AvgCounter {

  const M: nat := 0x1_0000_0000_0000_0000

  /** `inc` and `tinc` add, `set` overwrites. */
  datatype Update = Add(amount: nat) | Set(amount: nat)

  datatype Writer = NotWriting | Begun(u: Update) | Applied

  /** A reader with what it has read, and when (positions in the run). */
  datatype Reader =
    | NotReading
    | Counted(count: nat, t1: nat)
    | Summed(count: nat, sum: nat, t1: nat, t2: nat)
    | Returned(count: nat, sum: nat, t1: nat, t2: nat, t3: nat)

  /** `avgcount`, `u64` and `avgcount2` are the shared words; `started`, `applied` and `completed`
      are history. */
  datatype State = State(
    now: nat, avgcount: nat, u64: nat, avgcount2: nat, writers: seq<Writer>, readers: seq<Reader>,
    started: nat, applied: seq<Update>, completed: nat)

  datatype Event =
    | Begin(w: nat, u: Update)
    | ApplyUpdate(w: nat)
    | Complete(w: nat)
    | ReadCount(r: nat)
    | ReadSum(r: nat)
    | Compare(r: nat)

  function Total(us: seq<Update>): nat {
    if us == [] then 0
    else
      var u := us[|us| - 1];
      match u case Add(a) => Total(us[..|us| - 1]) + a case Set(a) => a
  }

  /** The sum of the amounts. */
  function Amounts(us: seq<Update>): nat { if us == [] then 0 else us[0].amount + Amounts(us[1..]) }

  /** The total is what the last `set` wrote and what has been added since. */
  lemma {:induction false} TotalSinceSet(us: seq<Update>, a: nat, adds: seq<Update>)
    requires forall i :: 0 <= i < |adds| ==> adds[i].Add?
    ensures Total(us + [Set(a)] + adds) == a + Amounts(adds) && Total(adds) == Amounts(adds)
    decreases |adds|
  {
    if adds == [] {
      assert us + [Set(a)] + [] == us + [Set(a)];
    } else {
      var n := |adds| - 1;
      TotalSinceSet(us, a, adds[..n]);
      assert (us + [Set(a)] + adds)[..|us| + 1 + n] == us + [Set(a)] + adds[..n];
      assert adds == adds[..n] + [adds[n]];
      AmountsMore(adds[..n], adds[n]);
    }
  }

  lemma {:induction false} AmountsMore(us: seq<Update>, u: Update)
    ensures Amounts(us + [u]) == Amounts(us) + u.amount
  {
    if us == [] {
      assert [u][1..] == [] && [] + [u] == [u];
    } else {
      assert (us + [u])[1..] == us[1..] + [u];
      AmountsMore(us[1..], u);
    }
  }

  predicate Enabled(s: State, e: Event) {
    match e
    case Begin(w, _) => w < |s.writers| && s.writers[w] == NotWriting
    case ApplyUpdate(w) => w < |s.writers| && s.writers[w].Begun?
    case Complete(w) => w < |s.writers| && s.writers[w] == Applied
    case ReadCount(r) => r < |s.readers| && (s.readers[r].NotReading? || s.readers[r].Returned?)
    case ReadSum(r) => r < |s.readers| && s.readers[r].Counted?
    case Compare(r) => r < |s.readers| && s.readers[r].Summed?
  }

  function NewSum(old64: nat, u: Update): nat {
    match u case Add(a) => (old64 + a) % M case Set(a) => a % M
  }

  /** A reader whose comparison fails starts its loop again. */
  function Step(s0: State, e: Event): State
    requires Enabled(s0, e)
  {
    var s := s0.(now := s0.now + 1);
    match e
    case Begin(w, u) => s.(avgcount := (s.avgcount + 1) % M, writers := s.writers[w := Begun(u)], started := s.started + 1)
    case ApplyUpdate(w) =>
      var u := s.writers[w].u;
      s.(u64 := NewSum(s.u64, u), writers := s.writers[w := Applied], applied := s.applied + [u])
    case Complete(w) =>
      s.(avgcount2 := (s.avgcount2 + 1) % M, writers := s.writers[w := NotWriting], completed := s.completed + 1)
    case ReadCount(r) => s.(readers := s.readers[r := Counted(s.avgcount2, s0.now)])
    case ReadSum(r) =>
      var x := s.readers[r];
      s.(readers := s.readers[r := Summed(x.count, s.u64, x.t1, s0.now)])
    case Compare(r) =>
      var x := s.readers[r];
      s.(readers := s.readers[r := if s.avgcount == x.count then Returned(x.count, x.sum, x.t1, x.t2, s0.now) else NotReading])
  }

  // ---------- The words and their history ----------

  ghost function Begunners(ws: seq<Writer>): nat {
    if ws == [] then 0 else (if ws[0].Begun? then 1 else 0) + Begunners(ws[1..])
  }

  ghost function Appliers(ws: seq<Writer>): nat {
    if ws == [] then 0 else (if ws[0].Applied? then 1 else 0) + Appliers(ws[1..])
  }

  lemma {:induction false} WriterChanges(ws: seq<Writer>, w: nat, x: Writer)
    requires w < |ws|
    ensures Begunners(ws[w := x]) == Begunners(ws) - (if ws[w].Begun? then 1 else 0) + (if x.Begun? then 1 else 0)
    ensures Appliers(ws[w := x]) == Appliers(ws) - (if ws[w].Applied? then 1 else 0) + (if x.Applied? then 1 else 0)
  {
    if w == 0 {
      assert ws[w := x][1..] == ws[1..];
    } else {
      assert ws[w := x][1..] == ws[1..][w - 1 := x];
      WriterChanges(ws[1..], w - 1, x);
    }
  }

  /** The words are the history modulo 2^64, and every update begins, is applied, and completes in that order. */
  ghost predicate Words(s: State) {
    && s.avgcount == s.started % M && s.avgcount2 == s.completed % M && s.u64 == Total(s.applied) % M
    && s.started == |s.applied| + Begunners(s.writers)
    && |s.applied| == s.completed + Appliers(s.writers)
  }

  lemma NewSumWraps(us: seq<Update>, u: Update)
    ensures NewSum(Total(us) % M, u) == Total(us + [u]) % M
  {
    assert (us + [u])[..|us|] == us;
  }

  lemma IncrementWraps(x: nat)
    ensures (x % M + 1) % M == (x + 1) % M
  {
  }

  lemma BeginWords(s: State, w: nat, u: Update)
    requires Words(s) && Enabled(s, Begin(w, u))
    ensures Words(Step(s, Begin(w, u)))
  {
    WriterChanges(s.writers, w, Begun(u));
    IncrementWraps(s.started);
  }

  lemma ApplyWords(s: State, w: nat)
    requires Words(s) && Enabled(s, ApplyUpdate(w))
    ensures Words(Step(s, ApplyUpdate(w)))
  {
    WriterChanges(s.writers, w, Applied);
    NewSumWraps(s.applied, s.writers[w].u);
  }

  lemma CompleteWords(s: State, w: nat)
    requires Words(s) && Enabled(s, Complete(w))
    ensures Words(Step(s, Complete(w)))
  {
    WriterChanges(s.writers, w, NotWriting);
    IncrementWraps(s.completed);
  }

  lemma StepWords(s: State, e: Event)
    requires Words(s) && Enabled(s, e)
    ensures Words(Step(s, e))
  {
    match e {
      case Begin(w, u) => BeginWords(s, w, u);
      case ApplyUpdate(w) => ApplyWords(s, w);
      case Complete(w) => CompleteWords(s, w);
      case _ =>
    }
  }

  // ---------- Runs ----------

  function Start(writers: nat, readers: nat): State {
    State(0, 0, 0, 0, seq(writers, i => NotWriting), seq(readers, i => NotReading), 0, [], 0)
  }

  ghost predicate Follows(s: State, s': State) {
    exists e :: Enabled(s, e) && s' == Step(s, e)
  }

  ghost predicate StepsAt(t: seq<State>, i: int) {
    0 < i < |t| && Follows(t[i - 1], t[i])
  }

  ghost predicate Run(t: seq<State>) {
    |t| > 0 && (exists w: nat, r: nat :: t[0] == Start(w, r)) && forall i :: 0 < i < |t| ==> StepsAt(t, i)
  }

  lemma {:induction false} Idle(n: nat)
    ensures var ws := seq(n, (i: int) => NotWriting); Begunners(ws) == 0 && Appliers(ws) == 0
  {
    if n > 0 {
      assert seq(n, (i: int) => NotWriting)[1..] == seq(n - 1, (i: int) => NotWriting);
      Idle(n - 1);
    }
  }

  lemma {:induction false} RunWords(t: seq<State>, n: nat)
    requires Run(t) && n < |t|
    ensures Words(t[n]) && t[n].now == n
  {
    if n == 0 {
      var w: nat, r: nat :| t[0] == Start(w, r);
      Idle(w);
      assert t[0].writers == seq(w, (i: int) => NotWriting);
    } else {
      RunWords(t, n - 1);
      assert StepsAt(t, n);
      var e :| Enabled(t[n - 1], e) && t[n] == Step(t[n - 1], e);
      StepWords(t[n - 1], e);
    }
  }

  /** History only grows. */
  lemma {:induction false} Grows(t: seq<State>, i: nat, j: nat)
    requires Run(t) && i <= j < |t|
    ensures t[i].started <= t[j].started && |t[i].applied| <= |t[j].applied| && t[i].completed <= t[j].completed
    decreases j
  {
    if i < j {
      Grows(t, i, j - 1);
      assert StepsAt(t, j);
    }
  }

  /** What a reader has in hand was in memory at the instants it remembers. */
  ghost predicate TrueReading(t: seq<State>, n: nat, x: Reader) {
    match x
    case NotReading => true
    case Counted(c, t1) => t1 < n < |t| && c == t[t1].avgcount2
    case Summed(c, s, t1, t2) => t1 < t2 < n < |t| && c == t[t1].avgcount2 && s == t[t2].u64
    case Returned(c, s, t1, t2, t3) =>
      t1 < t2 < t3 < n < |t| && c == t[t1].avgcount2 && s == t[t2].u64 && c == t[t3].avgcount
  }

  lemma {:induction false} ReadersRemember(t: seq<State>, n: nat, r: nat)
    requires Run(t) && n < |t| && r < |t[n].readers|
    ensures TrueReading(t, n, t[n].readers[r])
  {
    if n > 0 {
      assert StepsAt(t, n);
      RunWords(t, n - 1);
      ReadersRemember(t, n - 1, r);
    }
  }

  /** The sum and the count returned by any reader belong together: at the instant of its second
      read no update was in progress, the count is the number of updates completed then and the
      sum is their total, both modulo 2^64. Only an interval in which 2^64 updates or more are
      outstanding is left out. */
  lemma ConsistentRead(t: seq<State>, n: nat, r: nat)
    requires Run(t) && n < |t| && r < |t[n].readers| && t[n].readers[r].Returned?
    requires var x := t[n].readers[r];
             x.t1 < |t| && x.t3 < |t| && t[x.t3].started < t[x.t1].completed + M
    ensures var x := t[n].readers[r];
            && x.t1 < x.t2 < x.t3 < n
            && t[x.t2].started == |t[x.t2].applied| == t[x.t2].completed
            && x.count == |t[x.t2].applied| % M
            && x.sum == Total(t[x.t2].applied) % M
  {
    var x := t[n].readers[r];
    ReadersRemember(t, n, r);
    RunWords(t, x.t1);
    RunWords(t, x.t2);
    RunWords(t, x.t3);
    Grows(t, x.t1, x.t2);
    Grows(t, x.t2, x.t3);
    SameModulo(t[x.t1].completed, t[x.t3].started);
  }

  lemma SameModulo(a: nat, b: nat)
    requires a <= b < a + M && a % M == b % M
    ensures a == b
  {
  }

  /** A comparison succeeds exactly if no update was in progress or begun during the three reads. */
  lemma ReturnsWhenQuiet(t: seq<State>, n: nat, r: nat)
    requires Run(t) && n < |t| && r < |t[n].readers| && t[n].readers[r].Summed?
    requires t[n].readers[r].t1 < |t| && t[n].started < t[t[n].readers[r].t1].completed + M
    ensures Step(t[n], Compare(r)).readers[r].Returned?
       <==> t[n].started == t[t[n].readers[r].t1].completed
  {
    var x := t[n].readers[r];
    ReadersRemember(t, n, r);
    RunWords(t, x.t1);
    RunWords(t, n);
    Grows(t, x.t1, n);
    if t[n].avgcount == x.count { SameModulo(t[x.t1].completed, t[n].started); }
  }

  // ---------- The object ----------

  class AvgData {
    var u64: nat
    var avgcount: nat
    var avgcount2: nat
    ghost var applied: seq<Update>

    ghost predicate Valid()
      reads this
    {
      avgcount == |applied| % M && avgcount2 == |applied| % M && u64 == Total(applied) % M
    }

    constructor ()
      ensures Valid() && applied == []
    {
      u64, avgcount, avgcount2, applied := 0, 0, 0, [];
    }

    method Update(u: Update)
      requires Valid()
      modifies this
      ensures Valid() && applied == old(applied) + [u]
    {
      NewSumWraps(applied, u);
      avgcount := (avgcount + 1) % M;
      u64 := match u case Add(a) => (u64 + a) % M case Set(a) => a % M;
      avgcount2 := (avgcount2 + 1) % M;
      applied := applied + [u];
    }

    /** With no writer about, the retry loop ends in its first round. */
    method ReadAvg() returns (sum: nat, count: nat)
      requires Valid()
      ensures count == |applied| % M && sum == Total(applied) % M
    {
      sum, count := 0, 0;
      var again := true;
      while again
        invariant !again ==> count == avgcount2 && sum == u64
        decreases again
      {
        count := avgcount2;
        sum := u64;
        again := avgcount != count;
      }
    }
  }
}
