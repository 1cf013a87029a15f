/** The fan-out client: requests go to every replica, and a ring of 128 counters decides when
    all replicas have acknowledged a request. */
module AckRing {
  import opened Common

  const SLOTS: nat := 128

  /** `size` is the size of a request; at most `limit` bytes may be in flight, and the sender
      waits while more than `threshold` are. */
  datatype Config = Config(replicas: nat, size: nat, limit: nat, threshold: nat)

  ghost predicate Legal(c: Config) { c.replicas > 0 && c.size > 0 && c.threshold <= c.limit }

  /** How many requests may be outstanding. */
  function Window(c: Config): nat
    requires c.size > 0
  {
    c.limit / c.size
  }

  datatype Pc = Loading | Loaded(seen: int) | Sending

  /** Per replica, how many requests were sent and how many of these have completed; request
      number i (from 0) has id i + 1. `reports` lists the ids reported complete. */
  datatype State = State(
    inflight: int, ring: seq<nat>, sent: seq<nat>, acked: seq<nat>, reserved: nat, reports: seq<nat>, pc: Pc)

  datatype Event =
    | Load
    | Reserve
    | SendOne(r: nat)
    | AllSent
    | CompletePart(r: nat, offset: nat)
    | Complete(r: nat, offset: nat)

  // ---------- The ring ----------

  function Slot(id: nat): nat { id % SLOTS }

  /** The ring and the answer of `Increase`. */
  function Increase(ring: seq<nat>, replicas: nat, id: nat): (seq<nat>, bool)
    requires |ring| == SLOTS
  {
    var n := ring[Slot(id)] + 1;
    if n == replicas then (ring[Slot(id) := 0], true) else (ring[Slot(id) := n], false)
  }

  class RequestAckCounter {
    const requestAckedNum: array<nat>
    const numReplicas: nat

    constructor (replicas: nat)
      ensures requestAckedNum.Length == SLOTS && requestAckedNum[..] == seq(SLOTS, i => 0) && numReplicas == replicas
      ensures fresh(requestAckedNum)
    {
      var a := new nat[SLOTS];
      numReplicas := replicas;
      requestAckedNum := a;
      new;
      var i := 0;
      while i < SLOTS
        invariant i <= SLOTS && forall j :: 0 <= j < i ==> a[j] == 0
      {
        a[i] := 0;
        i := i + 1;
      }
    }

    method IncreaseSlot(id: nat) returns (r: bool)
      requires requestAckedNum.Length == SLOTS
      modifies requestAckedNum
      ensures (requestAckedNum[..], r) == Increase(old(requestAckedNum[..]), numReplicas, id)
    {
      requestAckedNum[id % SLOTS] := requestAckedNum[id % SLOTS] + 1;
      if requestAckedNum[id % SLOTS] == numReplicas {
        requestAckedNum[id % SLOTS] := 0;
        r := true;
      } else {
        r := false;
      }
      ghost var was := old(requestAckedNum[..]);
      assert requestAckedNum[..] == was[id % SLOTS := requestAckedNum[id % SLOTS]];
    }
  }

  // ---------- The client ----------

  function Start(c: Config): State {
    State(0, seq(SLOTS, i => 0), seq(c.replicas, i => 0), seq(c.replicas, i => 0), 0, [], Loading)
  }

  predicate Shape(c: Config, s: State) {
    |s.ring| == SLOTS && |s.sent| == c.replicas && |s.acked| == c.replicas && c.size > 0
  }

  predicate Enabled(c: Config, s: State, e: Event) {
    Shape(c, s) &&
    match e
    case Load => s.pc == Loading
    case Reserve => s.pc.Loaded? && s.pc.seen <= c.limit
    case SendOne(r) => s.pc == Sending && r < c.replicas && s.sent[r] < s.reserved
    case AllSent => s.pc == Sending && forall r :: 0 <= r < c.replicas ==> s.sent[r] == s.reserved
    case CompletePart(r, offset) => r < c.replicas && s.acked[r] < s.sent[r] && offset <= c.size
    case Complete(r, offset) => r < c.replicas && s.acked[r] < s.sent[r] && offset <= c.size
  }

  /** `None` is the failed completion assertion. */
  function Step(c: Config, s: State, e: Event): Option<State>
    requires Enabled(c, s, e)
  {
    match e
    case Load => Some(if s.inflight <= c.threshold then s.(pc := Loaded(s.inflight)) else s)
    case Reserve =>
      var num := (c.limit - s.pc.seen) / c.size;
      Some(s.(inflight := s.inflight + num * c.size, reserved := s.reserved + num, pc := Sending))
    case SendOne(r) => Some(s.(sent := s.sent[r := s.sent[r] + 1]))
    case AllSent => Some(s.(pc := Loading))
    case CompletePart(r, offset) => if s.inflight < offset then None else Some(s)
    case Complete(r, offset) =>
      if s.inflight < offset then None
      else
        var id := s.acked[r] + 1;
        var (ring, done) := Increase(s.ring, c.replicas, id);
        var s1 := s.(ring := ring, acked := s.acked[r := s.acked[r] + 1]);
        Some(if done then s1.(reports := s.reports + [id], inflight := s.inflight - c.size) else s1)
  }

  // ---------- The exact account ----------

  /** How many replicas have completed request number `i`. */
  ghost function Acks(acked: seq<nat>, i: nat): nat {
    if acked == [] then 0 else (if acked[0] > i then 1 else 0) + Acks(acked[1..], i)
  }

  ghost predicate AckedByAll(acked: seq<nat>, i: nat) {
    forall r :: 0 <= r < |acked| ==> acked[r] > i
  }

  lemma {:induction false} AcksUpdate(acked: seq<nat>, r: nat, x: nat, i: nat)
    requires r < |acked|
    ensures Acks(acked[r := x], i) == Acks(acked, i) - (if acked[r] > i then 1 else 0) + (if x > i then 1 else 0)
  {
    if r == 0 {
      assert acked[r := x][1..] == acked[1..];
    } else {
      assert acked[r := x][1..] == acked[1..][r - 1 := x];
      AcksUpdate(acked[1..], r - 1, x, i);
    }
  }

  lemma {:induction false} AcksMeaning(acked: seq<nat>, i: nat)
    ensures Acks(acked, i) <= |acked|
    ensures Acks(acked, i) == |acked| <==> AckedByAll(acked, i)
    ensures Acks(acked, i) == 0 <==> forall r :: 0 <= r < |acked| ==> acked[r] <= i
  {
    if acked != [] {
      AcksMeaning(acked[1..], i);
      assert forall r :: 0 < r < |acked| ==> acked[r] == acked[1..][r - 1];
      assert AckedByAll(acked, i) <==> acked[0] > i && AckedByAll(acked[1..], i);
    }
  }

  /** Each slot holds the exact count of the one request in the window that uses it. */
  ghost predicate RingOk(s: State) {
    |s.ring| == SLOTS && forall i: nat :: |s.reports| <= i < |s.reports| + SLOTS ==> s.ring[Slot(i + 1)] == Acks(s.acked, i)
  }

  ghost predicate Order(c: Config, s: State)
    requires Shape(c, s)
  {
    && (forall r :: 0 <= r < c.replicas ==> |s.reports| <= s.acked[r] <= s.sent[r] <= s.reserved)
    && !AckedByAll(s.acked, |s.reports|)
    && (forall i :: 0 <= i < |s.reports| ==> s.reports[i] == i + 1)
  }

  ghost predicate Flow(c: Config, s: State)
    requires Shape(c, s)
  {
    && s.inflight == c.size * (s.reserved - |s.reports|)
    && |s.reports| <= s.reserved <= |s.reports| + Window(c)
    && (s.pc.Loaded? ==> s.inflight <= s.pc.seen <= c.limit)
    && (!s.pc.Sending? ==> forall r :: 0 <= r < c.replicas ==> s.sent[r] == s.reserved)
  }

  ghost predicate Inv(c: Config, s: State) {
    Legal(c) && Shape(c, s) && RingOk(s) && Order(c, s) && Flow(c, s)
  }

  /** When the ring is large enough, or there is nothing to count. */
  ghost predicate RingSuffices(c: Config)
    requires c.size > 0
  {
    Window(c) <= 128 || c.replicas == 1
  }

  // ---------- Completions ----------

  lemma OutstandingFits(c: Config, s: State, r: nat)
    requires Inv(c, s) && RingSuffices(c) && r < c.replicas && s.acked[r] < s.sent[r]
    ensures |s.reports| <= s.acked[r] < |s.reports| + SLOTS && s.acked[r] < s.reserved
    ensures s.inflight >= c.size
  {
    if c.replicas == 1 { assert s.acked[0] <= |s.reports|; }
    MulLe(c.size, 1, s.reserved - |s.reports|);
  }

  /** A completion is the last one for its request exactly if it is the oldest request and every
      other replica has completed it. */
  lemma LastOfOldest(c: Config, s: State, r: nat)
    requires Legal(c) && Shape(c, s) && Order(c, s) && r < c.replicas && s.acked[r] < s.sent[r]
    ensures var i, acked := s.acked[r], s.acked[r := s.acked[r] + 1];
            && (AckedByAll(acked, i) ==> i == |s.reports|)
            && Acks(acked, i) == Acks(s.acked, i) + 1
            && (Acks(acked, i) == c.replicas <==> AckedByAll(acked, i))
            && (forall k: nat :: k != i ==> Acks(acked, k) == Acks(s.acked, k))
  {
    var i, acked := s.acked[r], s.acked[r := s.acked[r] + 1];
    AcksUpdate(s.acked, r, i + 1, i);
    AcksMeaning(acked, i);
    forall k: nat | k != i
      ensures Acks(acked, k) == Acks(s.acked, k)
    {
      AcksUpdate(s.acked, r, i + 1, k);
    }
    assert forall x :: 0 <= x < c.replicas && x != r ==> s.acked[x] == acked[x];
    assert forall n: nat :: n < i && AckedByAll(acked, i) ==> AckedByAll(s.acked, n);
  }

  lemma SlotsDiffer(i: nat, k: nat)
    requires i < k < i + SLOTS
    ensures Slot(i + 1) != Slot(k + 1)
  {
  }

  lemma SlotAgain(i: nat)
    ensures Slot(i + SLOTS + 1) == Slot(i + 1)
  {
  }

  /** The answer of the ring is the exact one. */
  lemma AnswerIsExact(c: Config, s: State, r: nat)
    requires Inv(c, s) && RingSuffices(c) && r < c.replicas && s.acked[r] < s.sent[r]
    ensures s.ring[Slot(s.acked[r] + 1)] + 1 == Acks(s.acked[r := s.acked[r] + 1], s.acked[r])
    ensures Increase(s.ring, c.replicas, s.acked[r] + 1).1 == AckedByAll(s.acked[r := s.acked[r] + 1], s.acked[r])
  {
    OutstandingFits(c, s, r);
    LastOfOldest(c, s, r);
  }

  /** The other slots of the window keep their counts. */
  lemma OtherSlots(c: Config, s: State, r: nat, k: nat)
    requires Inv(c, s) && RingSuffices(c) && r < c.replicas && s.acked[r] < s.sent[r]
    requires |s.reports| <= k < |s.reports| + SLOTS && k != s.acked[r]
    ensures Slot(k + 1) != Slot(s.acked[r] + 1) && s.ring[Slot(k + 1)] == Acks(s.acked[r := s.acked[r] + 1], k)
  {
    OutstandingFits(c, s, r);
    LastOfOldest(c, s, r);
    if k < s.acked[r] { SlotsDiffer(k, s.acked[r]); } else { SlotsDiffer(s.acked[r], k); }
  }

  /** The slot of the completed request, which after a report belongs to the request a round further on. */
  lemma RingAfter(c: Config, s: State, r: nat, k: nat)
    requires Inv(c, s) && RingSuffices(c) && r < c.replicas && s.acked[r] < s.sent[r]
    requires var done := Increase(s.ring, c.replicas, s.acked[r] + 1).1;
             var n := |s.reports| + if done then 1 else 0;
             n <= k < n + SLOTS
    ensures Increase(s.ring, c.replicas, s.acked[r] + 1).0[Slot(k + 1)] == Acks(s.acked[r := s.acked[r] + 1], k)
  {
    AnswerIsExact(c, s, r);
    if k == |s.reports| + SLOTS {
      OrderWhenDone(c, s, r);
      SlotAgain(|s.reports|);
      NobodyThatFar(c, s, r);
    } else if k != s.acked[r] {
      OtherSlots(c, s, r, k);
    } else if AckedByAll(s.acked[r := s.acked[r] + 1], s.acked[r]) {
      OrderWhenDone(c, s, r);
    }
  }

  lemma AfterCompletion(c: Config, s: State, r: nat)
    requires Inv(c, s) && RingSuffices(c) && r < c.replicas && s.acked[r] < s.sent[r] && s.inflight >= 0
    ensures RingOk(Step(c, s, Complete(r, 0)).value)
  {
    var s' := Step(c, s, Complete(r, 0)).value;
    forall k: nat | |s'.reports| <= k < |s'.reports| + SLOTS
      ensures s'.ring[Slot(k + 1)] == Acks(s'.acked, k)
    {
      RingAfter(c, s, r, k);
    }
  }

  /** Nobody has completed the request one round further on. */
  lemma NobodyThatFar(c: Config, s: State, r: nat)
    requires Inv(c, s) && RingSuffices(c) && r < c.replicas && s.acked[r] < s.sent[r]
    ensures Acks(s.acked[r := s.acked[r] + 1], |s.reports| + SLOTS) == 0
  {
    var acked, n := s.acked[r := s.acked[r] + 1], |s.reports|;
    AcksMeaning(acked, n + SLOTS);
    if c.replicas == 1 {
      assert s.acked[0] <= n;
    } else {
      assert forall x :: 0 <= x < c.replicas ==> acked[x] <= s.reserved <= n + SLOTS;
    }
  }

  lemma OrderWhenOpen(c: Config, s: State, r: nat)
    requires Legal(c) && Shape(c, s) && Order(c, s) && r < c.replicas && s.acked[r] < s.sent[r]
    requires !AckedByAll(s.acked[r := s.acked[r] + 1], s.acked[r])
    ensures !AckedByAll(s.acked[r := s.acked[r] + 1], |s.reports|)
  {
    var acked, n := s.acked[r := s.acked[r] + 1], |s.reports|;
    if s.acked[r] > n {
      var x :| 0 <= x < c.replicas && s.acked[x] <= n;
      assert acked[x] <= n;
    }
  }

  lemma OrderWhenDone(c: Config, s: State, r: nat)
    requires Legal(c) && Shape(c, s) && Order(c, s) && r < c.replicas && s.acked[r] < s.sent[r]
    requires AckedByAll(s.acked[r := s.acked[r] + 1], s.acked[r])
    ensures s.acked[r] == |s.reports| && !AckedByAll(s.acked[r := s.acked[r] + 1], |s.reports| + 1)
  {
    LastOfOldest(c, s, r);
    assert s.acked[r := s.acked[r] + 1][r] == |s.reports| + 1;
  }

  /** The state after a completion, reported or not. */
  ghost function Completed(s: State, r: nat, ring: seq<nat>, inflight: int, done: bool): State
    requires r < |s.acked|
  {
    var s1 := s.(ring := ring, inflight := inflight, acked := s.acked[r := s.acked[r] + 1]);
    if done then s1.(reports := s.reports + [s.acked[r] + 1]) else s1
  }

  lemma CompletedOrder(c: Config, s: State, r: nat, ring: seq<nat>, inflight: int)
    requires Legal(c) && Shape(c, s) && Order(c, s) && r < c.replicas && s.acked[r] < s.sent[r] && |ring| == SLOTS
    ensures var s' := Completed(s, r, ring, inflight, AckedByAll(s.acked[r := s.acked[r] + 1], s.acked[r]));
            Shape(c, s') && Order(c, s')
  {
    if AckedByAll(s.acked[r := s.acked[r] + 1], s.acked[r]) {
      OrderWhenDone(c, s, r);
    } else {
      OrderWhenOpen(c, s, r);
    }
  }

  lemma CompletionOrder(c: Config, s: State, r: nat)
    requires Inv(c, s) && RingSuffices(c) && r < c.replicas && s.acked[r] < s.sent[r]
    ensures Order(c, Step(c, s, Complete(r, 0)).value)
  {
    OutstandingFits(c, s, r);
    AnswerIsExact(c, s, r);
    var (ring, done) := Increase(s.ring, c.replicas, s.acked[r] + 1);
    CompletedOrder(c, s, r, ring, if done then s.inflight - c.size else s.inflight);
  }

  lemma CompletionFlow(c: Config, s: State, r: nat)
    requires Inv(c, s) && RingSuffices(c) && r < c.replicas && s.acked[r] < s.sent[r]
    ensures Flow(c, Step(c, s, Complete(r, 0)).value)
  {
    Distribute(c.size, s.reserved - |s.reports| - 1);
    OutstandingFits(c, s, r);
  }

  // ---------- The sender ----------

  lemma ReserveKeeps(c: Config, s: State)
    requires Inv(c, s) && Enabled(c, s, Reserve)
    ensures Inv(c, Step(c, s, Reserve).value)
  {
    WindowFits(c.size, c.limit, s.pc.seen, s.reserved - |s.reports|);
    var s' := Step(c, s, Reserve).value;
    assert s'.reserved - |s'.reports| == (s.reserved - |s.reports|) + (c.limit - s.pc.seen) / c.size;
  }

  /** The sender waits exactly while more than the threshold is in flight. */
  lemma WaitsAboveThreshold(c: Config, s: State)
    requires Enabled(c, s, Load)
    ensures Step(c, s, Load).Some?
    ensures if s.inflight > c.threshold then Step(c, s, Load).value == s else Step(c, s, Load).value == s.(pc := Loaded(s.inflight))
  {
  }

  /** A reservation fills the window: no further request would fit in what was seen free. */
  lemma ReserveFills(c: Config, s: State)
    requires Enabled(c, s, Reserve)
    ensures var s' := Step(c, s, Reserve).value;
            var num := s'.reserved - s.reserved;
            && s.pc.seen + num * c.size <= c.limit < s.pc.seen + num * c.size + c.size
            && s'.inflight == s.inflight + num * c.size
  {
    DivMod(c.limit - s.pc.seen, c.size);
  }

  lemma CompleteKeeps(c: Config, s: State, r: nat, offset: nat)
    requires Inv(c, s) && RingSuffices(c) && Enabled(c, s, Complete(r, offset))
    ensures Step(c, s, Complete(r, offset)).Some? && Inv(c, Step(c, s, Complete(r, offset)).value)
  {
    OutstandingFits(c, s, r);
    assert Step(c, s, Complete(r, offset)) == Step(c, s, Complete(r, 0));
    AfterCompletion(c, s, r);
    CompletionOrder(c, s, r);
    CompletionFlow(c, s, r);
  }

  lemma SendingKeeps(c: Config, s: State, e: Event)
    requires Inv(c, s) && Enabled(c, s, e) && (e.SendOne? || e.AllSent? || e.Load?)
    ensures Step(c, s, e).Some? && Inv(c, Step(c, s, e).value)
  {
  }

  lemma StepInv(c: Config, s: State, e: Event)
    requires Inv(c, s) && RingSuffices(c) && Enabled(c, s, e)
    ensures Step(c, s, e).Some? && Inv(c, Step(c, s, e).value)
  {
    match e {
      case Complete(r, offset) => CompleteKeeps(c, s, r, offset);
      case CompletePart(r, offset) => OutstandingFits(c, s, r);
      case Reserve => ReserveKeeps(c, s);
      case _ => SendingKeeps(c, s, e);
    }
  }

  // ---------- Runs ----------

  ghost predicate Follows(c: Config, s: State, s': State) {
    exists e :: Enabled(c, s, e) && Step(c, s, e) == Some(s')
  }

  ghost predicate StepsAt(c: Config, t: seq<State>, i: int) {
    0 < i < |t| && Follows(c, t[i - 1], t[i])
  }

  ghost predicate Run(c: Config, t: seq<State>) {
    |t| > 0 && t[0] == Start(c) && forall i :: 0 < i < |t| ==> StepsAt(c, t, i)
  }

  lemma StartInv(c: Config)
    requires Legal(c)
    ensures Inv(c, Start(c))
  {
    var s := Start(c);
    forall i: nat
      ensures Acks(s.acked, i) == 0
    {
      AcksMeaning(s.acked, i);
    }
    assert s.acked[0] == 0;
  }

  lemma {:induction false} RunInv(c: Config, t: seq<State>, n: nat)
    requires Legal(c) && RingSuffices(c) && Run(c, t) && n < |t|
    ensures Inv(c, t[n])
  {
    if n == 0 {
      StartInv(c);
    } else {
      RunInv(c, t, n - 1);
      assert StepsAt(c, t, n);
      var e :| Enabled(c, t[n - 1], e) && Step(c, t[n - 1], e) == Some(t[n]);
      StepInv(c, t[n - 1], e);
    }
  }

  /** If the window fits the ring, or there is only one replica, then in every run requests are
      reported once each and in id order, each exactly when its last replica completes it; the
      bytes in flight are those of the reserved and unreported requests; no assertion fails. */
  lemma AcksAreExact(c: Config, t: seq<State>, n: nat)
    requires Legal(c) && RingSuffices(c) && Run(c, t) && n < |t|
    ensures var s := t[n];
            && s.reports == seq(|s.reports|, i => i + 1)
            && s.inflight == c.size * (s.reserved - |s.reports|) && s.inflight <= c.limit
            && (forall e :: Enabled(c, s, e) ==> Step(c, s, e).Some?)
            && (forall i: nat :: i < |s.reports| <==> AckedByAll(s.acked, i))
            && (s.pc == Loading ==> forall r, q :: 0 <= r < |s.sent| && 0 <= q < |s.sent| ==> s.sent[r] == s.sent[q])
  {
    RunInv(c, t, n);
    var s := t[n];
    forall e | Enabled(c, s, e)
      ensures Step(c, s, e).Some?
    {
      StepInv(c, s, e);
    }
    forall i: nat
      ensures i < |s.reports| <==> AckedByAll(s.acked, i)
    {
      assert AckedByAll(s.acked, i) && i >= |s.reports| ==> AckedByAll(s.acked, |s.reports|);
    }
    WindowBytes(c.size, s.reserved - |s.reports|, c.limit);
  }

  lemma WindowBytes(size: nat, k: nat, limit: nat)
    requires size > 0 && k <= limit / size
    ensures size * k <= limit
  {
    assert size * k <= size * (limit / size);
  }

  // ---------- When the ring is too small ----------

  ghost predicate Reachable(c: Config, s: State) {
    exists t :: Run(c, t) && t[|t| - 1] == s
  }

  lemma StartReachable(c: Config)
    ensures Reachable(c, Start(c))
  {
    assert Run(c, [Start(c)]);
  }

  lemma Onward(c: Config, s: State, e: Event)
    requires Reachable(c, s) && Enabled(c, s, e) && Step(c, s, e).Some?
    ensures Reachable(c, Step(c, s, e).value)
  {
    var t :| Run(c, t) && t[|t| - 1] == s;
    var t' := t + [Step(c, s, e).value];
    forall i | 0 < i < |t'|
      ensures StepsAt(c, t', i)
    {
      if i < |t| {
        assert StepsAt(c, t, i);
        assert t'[i - 1] == t[i - 1] && t'[i] == t[i];
      } else {
        assert t'[i - 1] == s;
      }
    }
    assert Run(c, t');
  }

  /** A full window reserved and sent as far as `sent` says. */
  ghost function FullWindow(c: Config, sent: seq<nat>): State
    requires c.size > 0
  {
    Start(c).(inflight := Window(c) * c.size, reserved := Window(c), sent := sent, pc := Sending)
  }

  lemma {:induction false} SendsReachable(c: Config, sent: seq<nat>, total: nat)
    requires Legal(c) && |sent| == c.replicas && (forall r :: 0 <= r < |sent| ==> sent[r] <= Window(c)) && total == Sum(sent)
    ensures Reachable(c, FullWindow(c, sent))
    decreases total
  {
    if r :| 0 <= r < |sent| && sent[r] > 0 {
      var before := sent[r := sent[r] - 1];
      SumUpdate(sent, r, sent[r] - 1);
      SendsReachable(c, before, total - 1);
      Onward(c, FullWindow(c, before), SendOne(r));
      assert before[r := before[r] + 1] == sent;
    } else {
      assert sent == Start(c).sent;
      StartReachable(c);
      Onward(c, Start(c), Load);
      var s := Start(c).(pc := Loaded(0));
      Onward(c, s, Reserve);
      assert Step(c, s, Reserve).value == FullWindow(c, sent);
    }
  }

  /** Everything sent; replica 0 has completed `k` requests, replicas 1 to m the first one, the last replica none. */
  ghost function Lagging(c: Config, m: nat, k: nat): State
    requires c.size > 0 && k <= SLOTS
  {
    var first := m + if k > 0 then 1 else 0;
    FullWindow(c, seq(c.replicas, _ => Window(c)))
      .(acked := seq(c.replicas, r => if r == 0 then k else if r <= m then 1 else 0),
        ring := seq(SLOTS, j => if j == Slot(1) then first else if 2 <= j <= k || (j == 0 && k == SLOTS) then 1 else 0))
  }

  lemma {:induction false} LaggingReachable(c: Config, m: nat, k: nat)
    requires Legal(c) && c.replicas >= 2 && Window(c) > SLOTS && m <= c.replicas - 2 && k <= SLOTS && (k > 0 ==> m == c.replicas - 2)
    ensures Reachable(c, Lagging(c, m, k))
    decreases k, m
  {
    if k > 0 {
      LaggingReachable(c, m, k - 1);
      FirstReplicaAcks(c, k);
      Onward(c, Lagging(c, m, k - 1), Complete(0, 0));
    } else if m > 0 {
      LaggingReachable(c, m - 1, 0);
      NextReplicaAcks(c, m);
      Onward(c, Lagging(c, m - 1, 0), Complete(m, 0));
    } else {
      var sent := seq(c.replicas, (_: int) => Window(c));
      SendsReachable(c, sent, Sum(sent));
      assert Lagging(c, 0, 0) == FullWindow(c, sent);
    }
  }

  lemma NextReplicaAcks(c: Config, m: nat)
    requires Legal(c) && c.replicas >= 2 && Window(c) > SLOTS && 0 < m <= c.replicas - 2
    ensures var s := Lagging(c, m - 1, 0);
            Enabled(c, s, Complete(m, 0)) && Step(c, s, Complete(m, 0)) == Some(Lagging(c, m, 0))
  {
    var s, s' := Lagging(c, m - 1, 0), Lagging(c, m, 0);
    assert s.acked[m := 1] == s'.acked;
    assert s.ring[Slot(1) := m] == s'.ring;
    WindowPositive(c);
  }

  lemma FirstReplicaAcks(c: Config, k: nat)
    requires Legal(c) && c.replicas >= 2 && Window(c) > SLOTS && 0 < k <= SLOTS
    ensures var s := Lagging(c, c.replicas - 2, k - 1);
            Enabled(c, s, Complete(0, 0)) && Step(c, s, Complete(0, 0)) == Some(Lagging(c, c.replicas - 2, k))
  {
    var s, s' := Lagging(c, c.replicas - 2, k - 1), Lagging(c, c.replicas - 2, k);
    assert s.acked[0 := k] == s'.acked;
    assert s.ring[Slot(k) := s.ring[Slot(k)] + 1] == s'.ring;
    WindowPositive(c);
  }

  lemma WindowPositive(c: Config)
    requires Legal(c)
    ensures Window(c) * c.size >= 0
  {
  }

  /** Every reported request has been completed by every replica. */
  ghost predicate ReportsTrue(s: State) {
    forall i :: 0 <= i < |s.reports| ==> s.reports[i] > 0 && AckedByAll(s.acked, s.reports[i] - 1)
  }

  /** With more than 128 requests outstanding and two or more replicas, some run reports a request
      that only one replica has completed, while an older one is still open. */
  lemma RingTooSmall(c: Config)
    requires Legal(c) && !RingSuffices(c)
    ensures exists s :: Reachable(c, s) && !ReportsTrue(s)
  {
    var s := Lagging(c, c.replicas - 2, SLOTS);
    LaggingReachable(c, c.replicas - 2, SLOTS);
    LaggingReports(c);
    Onward(c, s, Complete(0, 0));
    FalseReport(Step(c, s, Complete(0, 0)).value, c.replicas - 1);
  }

  /** One round further on the first replica's acknowledgement completes a slot that is not its own. */
  lemma LaggingReports(c: Config)
    requires Legal(c) && c.replicas >= 2 && Window(c) > SLOTS
    ensures var s, e := Lagging(c, c.replicas - 2, SLOTS), Complete(0, 0);
            && Enabled(c, s, e) && Step(c, s, e).Some? && Step(c, s, e).value.reports == [SLOTS + 1]
            && |Step(c, s, e).value.acked| == c.replicas && Step(c, s, e).value.acked[c.replicas - 1] == 0
  {
    WindowPositive(c);
    var s := Lagging(c, c.replicas - 2, SLOTS);
    assert s.ring[Slot(SLOTS + 1)] == c.replicas - 1;
    assert [] + [SLOTS + 1] == [SLOTS + 1];
  }

  lemma FalseReport(s: State, r: nat)
    requires s.reports == [SLOTS + 1] && r < |s.acked| && s.acked[r] == 0
    ensures !ReportsTrue(s)
  {
    assert s.reports[0] > 0 && !AckedByAll(s.acked, s.reports[0] - 1);
  }

  /** The ring tells the truth in every run exactly if the window fits it or there is one replica. */
  lemma RingExactIff(c: Config)
    requires Legal(c)
    ensures (forall s :: Reachable(c, s) ==> ReportsTrue(s)) <==> RingSuffices(c)
  {
    if RingSuffices(c) {
      forall s | Reachable(c, s)
        ensures ReportsTrue(s)
      {
        var t :| Run(c, t) && t[|t| - 1] == s;
        RunInv(c, t, |t| - 1);
        assert forall i :: 0 <= i < |s.reports| ==> s.reports[i] == i + 1 && AckedByAll(s.acked, i);
      }
    } else {
      RingTooSmall(c);
    }
  }

  // ---------- The client as an object ----------

  function Consecutive(first: nat, num: nat): seq<nat> { seq(num, i => first + i) }

  ghost predicate AllEqual(ids: seq<nat>) {
    forall i, j :: 0 <= i < |ids| && 0 <= j < |ids| ==> ids[i] == ids[j]
  }

  /** Every replica's next id, `n` requests later. */
  ghost function Raised(ids: seq<nat>, n: nat): seq<nat> { seq(|ids|, i requires 0 <= i < |ids| => ids[i] + n) }

  lemma RaisedTwice(ids: seq<nat>, n: nat)
    ensures Raised(Raised(ids, n), 1) == Raised(ids, n + 1)
    ensures forall r :: 0 <= r < |ids| ==> Consecutive(ids[r], n) + [Raised(ids, n)[r]] == Consecutive(ids[r], n + 1)
  {
  }

  lemma RaisedEqual(ids: seq<nat>, n: nat)
    ensures AllEqual(Raised(ids, n)) <==> AllEqual(ids)
  {
    assert forall i :: 0 <= i < |ids| ==> Raised(ids, n)[i] == ids[i] + n;
    if AllEqual(Raised(ids, n)) {
      forall i, j | 0 <= i < |ids| && 0 <= j < |ids|
        ensures ids[i] == ids[j]
      {
        assert Raised(ids, n)[i] == Raised(ids, n)[j];
      }
    }
  }

  class UnicastClient {
    const c: Config
    const counter: RequestAckCounter
    const requestId: array<nat>
    var inflight: int

    ghost predicate Valid()
      reads this, counter, requestId, counter.requestAckedNum
    {
      && c.size > 0 && requestId.Length == c.replicas && requestId != counter.requestAckedNum
      && counter.requestAckedNum.Length == SLOTS && counter.numReplicas == c.replicas
    }

    constructor (c: Config)
      requires c.size > 0
      ensures Valid() && this.c == c && inflight == 0
      ensures requestId[..] == seq(c.replicas, i => 1) && counter.requestAckedNum[..] == Start(c).ring
    {
      var ids := new nat[c.replicas](i => 1);
      var a := new RequestAckCounter(c.replicas);
      this.c, requestId, counter, inflight := c, ids, a, 0;
    }

    /** Ids for the requests to one replica. */
    method TakeIds(r: nat, num: nat) returns (ids: seq<nat>)
      requires r < requestId.Length
      modifies requestId
      ensures requestId[..] == old(requestId[..])[r := old(requestId[r]) + num]
      ensures ids == Consecutive(old(requestId[r]), num)
    {
      ids := [];
      while |ids| < num
        invariant |ids| <= num && ids == Consecutive(old(requestId[r]), |ids|)
        invariant requestId[..] == old(requestId[..])[r := old(requestId[r]) + |ids|]
        decreases num - |ids|
      {
        assert requestId[..][r] == requestId[r];
        ids := ids + [requestId[r]];
        requestId[r] := requestId[r] + 1;
      }
    }

    /** Whether the replicas' next ids agree. */
    method Consistent() returns (ok: bool)
      ensures ok <==> AllEqual(requestId[..])
    {
      var i := 0;
      while i < requestId.Length
        invariant i <= requestId.Length && forall j :: 0 <= j < i ==> requestId[j] == requestId[0]
      {
        if requestId[0] != requestId[i] {
          assert requestId[..][0] != requestId[..][i];
          return false;
        }
        i := i + 1;
      }
      ok := true;
    }

    /** The next request to every replica. */
    method SendToEach(posts: seq<seq<nat>>) returns (posts': seq<seq<nat>>)
      requires |posts| == requestId.Length
      modifies requestId
      ensures requestId[..] == Raised(old(requestId[..]), 1) && |posts'| == |posts|
      ensures forall r :: 0 <= r < |posts| ==> posts'[r] == posts[r] + [old(requestId[..])[r]]
    {
      posts' := posts;
      var r := 0;
      ghost var was := requestId[..];
      while r < requestId.Length
        invariant r <= requestId.Length && |posts'| == |posts|
        invariant forall x :: 0 <= x < r ==> requestId[x] == was[x] + 1 && posts'[x] == posts[x] + [was[x]]
        invariant forall x :: r <= x < requestId.Length ==> requestId[x] == was[x] && posts'[x] == posts[x]
      {
        posts' := posts'[r := posts'[r] + [requestId[r]]];
        requestId[r] := requestId[r] + 1;
        r := r + 1;
      }
      assert requestId[..] == Raised(was, 1);
    }

    /** One turn of the sending loop for big requests, request by request: `ok` is false when the check
        before some request finds that the replicas' ids differ. */
    method SendBig(seen: int) returns (ok: bool, posts: seq<seq<nat>>)
      requires Valid() && seen <= c.limit
      modifies this`inflight, requestId
      ensures var num := (c.limit - seen) / c.size;
              && inflight == old(inflight) + num * c.size && |posts| == c.replicas
              && (ok <==> num == 0 || AllEqual(old(requestId[..])))
              && requestId[..] == (if ok then Raised(old(requestId[..]), num) else old(requestId[..]))
              && forall r :: 0 <= r < c.replicas ==> posts[r] == Consecutive(old(requestId[..])[r], if ok then num else 0)
    {
      var num := (c.limit - seen) / c.size;
      inflight := inflight + num * c.size;
      posts := seq(c.replicas, i => []);
      ghost var was := requestId[..];
      assert Raised(was, 0) == was;
      var j := 0;
      while j < num
        invariant j <= num && |posts| == c.replicas && inflight == old(inflight) + num * c.size
        invariant requestId[..] == Raised(was, j) && (j > 0 ==> AllEqual(was))
        invariant forall r :: 0 <= r < c.replicas ==> posts[r] == Consecutive(was[r], j)
      {
        ok := Consistent();
        RaisedEqual(was, j);
        if !ok { return; }
        posts := SendToEach(posts);
        RaisedTwice(was, j);
        j := j + 1;
      }
      ok := true;
    }

    /** One turn of the sending loop for small requests: `posts[r]` are the ids sent to replica r; `ok` is
        false when the check at its start finds that the replicas' ids differ. */
    method SendSmall(seen: int) returns (ok: bool, posts: seq<seq<nat>>)
      requires Valid() && seen <= c.limit
      modifies this`inflight, requestId
      ensures ok <==> AllEqual(old(requestId[..]))
      ensures !ok ==> inflight == old(inflight) && requestId[..] == old(requestId[..]) && posts == []
      ensures ok ==> var num := (c.limit - seen) / c.size;
              && inflight == old(inflight) + num * c.size && |posts| == c.replicas
              && requestId[..] == Raised(old(requestId[..]), num)
              && forall r :: 0 <= r < c.replicas ==> posts[r] == Consecutive(old(requestId[..])[r], num)
    {
      ok := Consistent();
      if !ok { return false, []; }
      var num := (c.limit - seen) / c.size;
      inflight := inflight + num * c.size;
      posts := [];
      ghost var was := requestId[..];
      while |posts| < c.replicas
        invariant |posts| <= c.replicas && inflight == old(inflight) + num * c.size
        invariant forall x :: 0 <= x < |posts| ==> requestId[..][x] == was[x] + num && posts[x] == Consecutive(was[x], num)
        invariant forall x :: |posts| <= x < c.replicas ==> requestId[..][x] == was[x]
        decreases c.replicas - |posts|
      {
        var ids := TakeIds(|posts|, num);
        posts := posts + [ids];
      }
      assert requestId[..] == Raised(was, num);
    }

    /** A send completion for request `id`, or for a part of one if `id` is 0;
        `ok` is false when the assertion fails. */
    method OnSendCompletion(id: nat, offset: nat) returns (ok: bool)
      requires Valid()
      modifies this`inflight, counter.requestAckedNum
      ensures ok == (old(inflight) >= offset)
      ensures var ring := old(counter.requestAckedNum[..]);
              if !ok || id == 0 then inflight == old(inflight) && counter.requestAckedNum[..] == ring
              else counter.requestAckedNum[..] == Increase(ring, c.replicas, id).0
                   && inflight == old(inflight) - if Increase(ring, c.replicas, id).1 then c.size else 0
    {
      if inflight < offset { return false; }
      if id != 0 {
        var r := counter.IncreaseSlot(id);
        if r { inflight := inflight - c.size; }
      }
      ok := true;
    }
  }
}
