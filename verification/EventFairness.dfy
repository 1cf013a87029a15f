/** Execution of dispatched callbacks on every fair schedule, with dispatches, time-outs and changes of
    pollers going on for ever; and a schedule that is not fair. */
module EventFairness {
  import opened EventLoop

  ghost predicate StepAt(c: Setup, f: nat -> State, i: nat) { Follows(c, f(i), f(i + 1)) }

  /** An infinite schedule of steps of any kind. */
  ghost predicate Schedule(c: Setup, f: nat -> State) {
    forall i {:trigger StepAt(c, f, i)} :: StepAt(c, f, i)
  }

  /** The loop goes one step further through `process_events`. */
  predicate Advances(e: Event) { LoopEvent(e) && !e.SetPollers? }

  ghost predicate LoopStepAt(c: Setup, f: nat -> State, i: nat) {
    exists e :: Advances(e) && Enabled(c, f(i), e) && f(i + 1) == Step(c, f(i), e)
  }

  /** Waiting for a notification that is not there, or for a lock that is taken. */
  ghost predicate Blocked(c: Setup, s: State) {
    (s.pc == Waiting(true) && !Ready(c, s)) || (s.pc == Locking && s.holder != Nobody)
  }

  /** The loop is not suspended for ever: every callback returns. */
  ghost predicate FairLoop(c: Setup, f: nat -> State) {
    forall i: nat {:trigger LoopActs(c, f, i)} :: LoopActs(c, f, i)
  }

  ghost predicate LoopActs(c: Setup, f: nat -> State, i: nat) {
    exists j :: i <= j && (LoopStepAt(c, f, j) || Blocked(c, f(j)))
  }

  /** Between its lock and its pipe write. */
  predicate Inside(p: Pc) { !p.Outside? && !p.Wanting? }

  ghost predicate Moves(f: nat -> State, i: nat, t: nat) {
    exists j :: i <= j && t < |f(j).threads| && t < |f(i).threads| && f(j).threads[t] != f(i).threads[t]
  }

  /** No dispatching thread is suspended for ever between its lock and its pipe write. */
  ghost predicate FairThreads(f: nat -> State) {
    forall i: nat, t: nat {:trigger Moves(f, i, t)} :: t < |f(i).threads| && Inside(f(i).threads[t]) ==> Moves(f, i, t)
  }

  /** A lock that comes free again and again is not kept from the loop for ever. */
  ghost predicate FairLock(f: nat -> State) {
    forall i {:trigger GetsOn(f, i)} :: f(i).pc == Locking && (forall j :: i <= j ==> FreeAgain(f, j)) ==> GetsOn(f, i)
  }

  ghost predicate FreeAgain(f: nat -> State, i: nat) { exists j :: i <= j && f(j).holder == Nobody }

  ghost predicate GetsOn(f: nat -> State, i: nat) { exists j :: i <= j && f(j).pc != f(i).pc }

  ghost predicate Fair(c: Setup, f: nat -> State) {
    c.capacity > 0 && Schedule(c, f) && FairLoop(c, f) && FairThreads(f) && FairLock(f)
  }

  // ---------- What stays along a schedule ----------

  ghost predicate Grown(s: State, s': State) { s.pushed <= s'.pushed && |s'.threads| == |s.threads| }

  lemma StepGrows(c: Setup, s: State, s': State)
    requires c.capacity > 0 && Inv(c, s) && Follows(c, s, s')
    ensures Inv(c, s') && Grown(s, s')
  {
    var e :| Enabled(c, s, e) && s' == Step(c, s, e);
    StepInv(c, s, e);
    GrownBy(c, s, e);
  }

  lemma GrownBy(c: Setup, s: State, e: Event)
    requires Enabled(c, s, e)
    ensures Grown(s, Step(c, s, e))
  {
  }

  lemma {:induction false} ScheduleInv(c: Setup, f: nat -> State, i: nat, j: nat)
    requires c.capacity > 0 && Schedule(c, f) && i <= j && Inv(c, f(i))
    ensures Inv(c, f(j)) && Grown(f(i), f(j))
    decreases j
  {
    if i < j {
      var k := j - 1;
      ScheduleInv(c, f, i, k);
      NextInv(c, f, k);
      GrownOn(f(i), f(k), f(k + 1));
    }
  }

  lemma NextInv(c: Setup, f: nat -> State, k: nat)
    requires c.capacity > 0 && Schedule(c, f) && Inv(c, f(k))
    ensures Inv(c, f(k + 1)) && Grown(f(k), f(k + 1))
  {
    assert StepAt(c, f, k);
    StepGrows(c, f(k), f(k + 1));
  }

  lemma GrownOn(s: State, s1: State, s2: State)
    requires Grown(s, s1) && Grown(s1, s2)
    ensures Grown(s, s2)
  {
  }

  // ---------- A thread's next step ----------

  lemma OnlyItsOwn(c: Setup, s: State, e: Event, t: nat)
    requires Enabled(c, s, e) && t < |s.threads| && Step(c, s, e).threads[t] != s.threads[t]
    ensures !LoopEvent(e) && e.t == t
  {
  }

  /** The first step of thread `t` from `i` on. */
  lemma {:induction false} FirstMove(c: Setup, f: nat -> State, i: nat, j: nat, t: nat) returns (l: nat)
    requires c.capacity > 0 && Schedule(c, f) && Inv(c, f(i)) && i <= j && t < |f(i).threads| && t < |f(j).threads|
    requires f(j).threads[t] != f(i).threads[t]
    ensures i <= l && Inv(c, f(l)) && t < |f(l).threads| && f(l).threads[t] == f(i).threads[t]
    ensures t < |f(l + 1).threads| && f(l + 1).threads[t] != f(l).threads[t]
    ensures forall x :: i <= x <= l ==> t < |f(x).threads| && f(x).threads[t] == f(i).threads[t]
    decreases j - i
  {
    ScheduleInv(c, f, i, i + 1);
    if f(i + 1).threads[t] != f(i).threads[t] {
      l := i;
    } else {
      l := FirstMove(c, f, i + 1, j, t);
    }
  }

  lemma NextMove(c: Setup, f: nat -> State, i: nat, t: nat) returns (l: nat, e: Event)
    requires Fair(c, f) && Inv(c, f(i)) && t < |f(i).threads| && Inside(f(i).threads[t])
    ensures i <= l && Inv(c, f(l)) && Inv(c, f(l + 1))
    ensures forall x :: i <= x <= l ==> t < |f(x).threads| && f(x).threads[t] == f(i).threads[t]
    ensures Enabled(c, f(l), e) && f(l + 1) == Step(c, f(l), e) && !LoopEvent(e) && e.t == t
  {
    assert Moves(f, i, t);
    var j :| i <= j && t < |f(j).threads| && f(j).threads[t] != f(i).threads[t];
    l := FirstMove(c, f, i, j, t);
    assert StepAt(c, f, l);
    e :| Enabled(c, f(l), e) && f(l + 1) == Step(c, f(l), e);
    StepInv(c, f(l), e);
    OnlyItsOwn(c, f(l), e, t);
  }

  // ---------- The lock comes free ----------

  lemma HolderMoves(c: Setup, s: State, e: Event, t: nat)
    requires LockOk(s) && s.holder == Thread(t) && Enabled(c, s, e) && !LoopEvent(e) && e.t == t
    ensures var s' := Step(c, s, e);
            s'.holder == Nobody || (s'.holder == Thread(t) && t < |s.threads| && Weight(s'.threads[t]) < Weight(s.threads[t]))
  {
    assert HoldsLock(s.threads[t]);
  }

  lemma {:induction false} ThreadLetsGo(c: Setup, f: nat -> State, i: nat, t: nat)
    requires Fair(c, f) && Inv(c, f(i)) && f(i).holder == Thread(t) && t < |f(i).threads|
    ensures FreeAgain(f, i)
    decreases Weight(f(i).threads[t])
  {
    assert HoldsLock(f(i).threads[t]);
    var l, e := NextMove(c, f, i, t);
    assert HoldsLock(f(l).threads[t]);
    HolderMoves(c, f(l), e, t);
    if f(l + 1).holder != Nobody {
      ThreadLetsGo(c, f, l + 1, t);
      var j :| l + 1 <= j && f(j).holder == Nobody;
      assert i <= j;
    }
  }

  /** From a state in which the loop does not hold the lock, it comes free. */
  lemma ComesFree(c: Setup, f: nat -> State, i: nat)
    requires Fair(c, f) && Inv(c, f(i)) && f(i).pc == Locking
    ensures FreeAgain(f, i)
  {
    if f(i).holder != Nobody { ThreadLetsGo(c, f, i, f(i).holder.t); }
  }

  /** The loop gets past the lock. */
  lemma GetsLock(c: Setup, f: nat -> State, i: nat) returns (j: nat)
    requires Fair(c, f) && Inv(c, f(i)) && f(i).pc == Locking
    ensures i <= j && f(j).pc != Locking
  {
    if forall l :: i <= l ==> FreeAgain(f, l) {
      assert GetsOn(f, i);
      j :| i <= j && f(j).pc != f(i).pc;
    } else {
      j :| i <= j && !FreeAgain(f, j);
      ScheduleInv(c, f, i, j);
      if f(j).pc == Locking {
        ComesFree(c, f, j);
        assert false;
      }
    }
  }

  // ---------- The notification arrives ----------

  /** Thread `t` has its pipe write still ahead, the queue being counted. */
  ghost predicate OnWayToWrite(s: State, t: nat) {
    0 < t < |s.threads| && s.threads[t] in {Leaving(1), Left(1), Writing}
  }

  ghost predicate Waits(s: State) { s.pc == Waiting(true) && !s.pollers }

  lemma WriterMoves(c: Setup, s: State, e: Event, t: nat)
    requires c.capacity > 0 && PipeOk(c, s) && Waits(s) && OnWayToWrite(s, t) && Enabled(c, s, e) && !LoopEvent(e) && e.t == t
    ensures var s' := Step(c, s, e);
            Ready(c, s') || (OnWayToWrite(s', t) && Weight(s'.threads[t]) < Weight(s.threads[t]))
  {
  }

  lemma WaitsStill(c: Setup, s: State)
    requires WakeOk(c, s) && s.pc == Waiting(true)
    ensures Waits(s)
  {
  }

  lemma {:induction false} Unblocks(c: Setup, f: nat -> State, i: nat, t: nat) returns (j: nat)
    requires Fair(c, f) && Inv(c, f(i)) && f(i).pc == Waiting(true) && OnWayToWrite(f(i), t)
    ensures i <= j && (f(j).pc != Waiting(true) || Ready(c, f(j)))
    decreases Weight(f(i).threads[t])
  {
    var l, e := NextMove(c, f, i, t);
    if f(l).pc != Waiting(true) { return l; }
    assert f(l).threads[t] == f(i).threads[t];
    WaitsStill(c, f(l));
    WriterMoves(c, f(l), e, t);
    if Ready(c, f(l + 1)) || f(l + 1).pc != Waiting(true) { return l + 1; }
    j := Unblocks(c, f, l + 1, t);
  }

  // ---------- The loop's next step ----------

  lemma PcByLoop(c: Setup, s: State, e: Event)
    requires Enabled(c, s, e) && !Advances(e)
    ensures Step(c, s, e).pc == s.pc && (Ready(c, s) ==> Ready(c, Step(c, s, e)))
  {
  }

  /** The loop's place changes, or a notification is taken, only by a step of the loop. */
  lemma {:induction false} LoopStepBetween(c: Setup, f: nat -> State, i: nat, j: nat) returns (l: nat)
    requires Schedule(c, f) && i <= j && (f(j).pc != f(i).pc || (Ready(c, f(i)) && !Ready(c, f(j))))
    ensures i <= l < j && LoopStepAt(c, f, l)
    decreases j - i
  {
    assert i < j && StepAt(c, f, i);
    var e :| Enabled(c, f(i), e) && f(i + 1) == Step(c, f(i), e);
    if Advances(e) {
      l := i;
    } else {
      PcByLoop(c, f(i), e);
      l := LoopStepBetween(c, f, i + 1, j);
    }
  }

  /** Push number `k` is queued and counted, or already in the loop's hands. */
  lemma QueuedWriter(c: Setup, s: State, k: nat) returns (t: nat)
    requires Inv(c, s) && Due(s, k) && k >= |s.executed| && s.pc == Waiting(true) && !Ready(c, s)
    ensures OnWayToWrite(s, t)
  {
    assert s.queue != [] && s.counter > 0;
    t :| WillWrite(s, t);
  }

  /** A place at which the loop is not blocked. */
  lemma NotBlocked(c: Setup, f: nat -> State, i: nat, k: nat) returns (j: nat)
    requires Fair(c, f) && Inv(c, f(i)) && Due(f(i), k) && k >= |f(i).executed|
    ensures i <= j && (f(j).pc != f(i).pc || (!Blocked(c, f(j)) && f(j).pc != Locking))
  {
    j := i;
    if f(i).pc == Locking {
      j := GetsLock(c, f, i);
    } else if f(i).pc == Waiting(true) && !Ready(c, f(i)) {
      var t := QueuedWriter(c, f(i), k);
      j := Unblocks(c, f, i, t);
    }
  }

  /** While a callback is due the loop takes another step. */
  lemma NextLoopStep(c: Setup, f: nat -> State, i: nat, k: nat) returns (l: nat)
    requires Fair(c, f) && Inv(c, f(i)) && Due(f(i), k) && k >= |f(i).executed|
    ensures i <= l && LoopStepAt(c, f, l)
  {
    var j := NotBlocked(c, f, i, k);
    if f(j).pc != f(i).pc {
      l := LoopStepBetween(c, f, i, j);
    } else {
      assert LoopActs(c, f, j);
      l :| j <= l && (LoopStepAt(c, f, l) || Blocked(c, f(l)));
      if !LoopStepAt(c, f, l) { l := LoopStepBetween(c, f, j, l); }
    }
  }

  // ---------- Nearer to the execution ----------

  function WritesLater(p: Pc): nat { if p in {Leaving(1), Left(1), Writing} then 1 else 0 }

  function Writers(ps: seq<Pc>): nat {
    if ps == [] then 0 else WritesLater(ps[0]) + Writers(ps[1..])
  }

  lemma {:induction false} WritersUpdate(ps: seq<Pc>, t: nat, p: Pc)
    requires t < |ps|
    ensures Writers(ps[t := p]) == Writers(ps) - WritesLater(ps[t]) + WritesLater(p)
  {
    if t == 0 {
      assert ps[t := p][1..] == ps[1..];
    } else {
      assert ps[t := p][1..] == ps[1..][t - 1 := p];
      WritersUpdate(ps[1..], t - 1, p);
    }
  }

  /** What is left to do at the loop's place: callbacks to run, or bytes to read, those to come included. */
  function ToDo(s: State, k: nat): nat {
    if k < |s.executed| then 0
    else if k < |s.executed| + |s.batch| then k - |s.executed|
    else if s.pc == Running then |s.batch|
    else if s.pc == Fired(true) then s.bytes + Writers(s.threads)
    else 0
  }

  ghost predicate NotFurther(s': State, s: State, k: nat) {
    k < |s'.executed| || Stage(s', k) < Stage(s, k) || (Stage(s', k) == Stage(s, k) && ToDo(s', k) <= ToDo(s, k))
  }

  ghost predicate NearerBy(s': State, s: State, k: nat) {
    k < |s'.executed| || Stage(s', k) < Stage(s, k) || (Stage(s', k) == Stage(s, k) && ToDo(s', k) < ToDo(s, k))
  }

  lemma NotFurtherOn(s2: State, s1: State, s: State, k: nat)
    requires NotFurther(s2, s1, k) && NotFurther(s1, s, k) && |s1.executed| <= |s2.executed|
    ensures NotFurther(s2, s, k)
  {
  }

  /** A counted queue gets no new writers: bytes come only from those on their way. */
  lemma BytesBounded(c: Setup, s: State, e: Event)
    requires Enabled(c, s, e) && !LoopEvent(e) && s.counter > 0
    ensures var s' := Step(c, s, e); s'.bytes + Writers(s'.threads) <= s.bytes + Writers(s.threads)
  {
    WritersUpdate(s.threads, e.t, Step(c, s, e).threads[e.t]);
  }

  lemma PlaceKept(c: Setup, s: State, e: Event)
    requires Enabled(c, s, e) && !Advances(e)
    ensures var s' := Step(c, s, e);
            && s'.pc == s.pc && s'.executed == s.executed && s'.batch == s.batch
            && (LoopEvent(e) ==> s'.bytes == s.bytes && s'.threads == s.threads)
  {
  }

  lemma OthersKeep(c: Setup, s: State, e: Event, k: nat)
    requires Due(s, k) && k >= |s.executed| && Enabled(c, s, e) && !Advances(e)
    ensures NotFurther(Step(c, s, e), s, k)
  {
    PlaceKept(c, s, e);
    if !LoopEvent(e) && s.counter > 0 { BytesBounded(c, s, e); }
  }

  lemma LoopNearer(c: Setup, s: State, e: Event, k: nat)
    requires LockOk(s) && CountOk(s) && LogOk(s) && Due(s, k) && k >= |s.executed| && Enabled(c, s, e) && Advances(e)
    ensures NearerBy(Step(c, s, e), s, k)
  {
  }

  lemma ExecutedStays(c: Setup, s: State, e: Event)
    requires Enabled(c, s, e)
    ensures |s.executed| <= |Step(c, s, e).executed|
  {
  }

  /** What each step keeps of a due callback. */
  lemma DueStep(c: Setup, s: State, s': State, k: nat)
    requires Inv(c, s) && Due(s, k) && Follows(c, s, s')
    ensures Due(s', k) && NotFurther(s', s, k) && |s.executed| <= |s'.executed|
  {
    var e :| Enabled(c, s, e) && s' == Step(c, s, e);
    DueStays(c, s, e, k);
    ExecutedStays(c, s, e);
    if k >= |s.executed| {
      if Advances(e) { LoopNearer(c, s, e, k); } else { OthersKeep(c, s, e, k); }
    }
  }

  lemma {:induction false} DueAlong(c: Setup, f: nat -> State, i: nat, j: nat, k: nat)
    requires c.capacity > 0 && Schedule(c, f) && i <= j && Inv(c, f(i)) && Due(f(i), k)
    ensures Inv(c, f(j)) && Due(f(j), k) && NotFurther(f(j), f(i), k)
    decreases j
  {
    if i < j {
      DueAlong(c, f, i, j - 1, k);
      assert StepAt(c, f, j - 1);
      StepGrows(c, f(j - 1), f(j));
      DueStep(c, f(j - 1), f(j), k);
      NotFurtherOn(f(j), f(j - 1), f(i), k);
    }
  }

  lemma LoopStepNearer(c: Setup, f: nat -> State, i: nat, k: nat)
    requires Inv(c, f(i)) && Due(f(i), k) && k >= |f(i).executed| && LoopStepAt(c, f, i)
    ensures NearerBy(f(i + 1), f(i), k)
  {
    var e :| Advances(e) && Enabled(c, f(i), e) && f(i + 1) == Step(c, f(i), e);
    LoopNearer(c, f(i), e, k);
  }

  lemma NearerOn(s2: State, s1: State, s: State, k: nat)
    requires NearerBy(s2, s1, k) && NotFurther(s1, s, k) && k >= |s1.executed|
    ensures NearerBy(s2, s, k)
  {
  }

  /** The next step of the loop brings the callback nearer. */
  lemma ComesNearer(c: Setup, f: nat -> State, i: nat, k: nat) returns (j: nat)
    requires Fair(c, f) && Inv(c, f(i)) && Due(f(i), k) && k >= |f(i).executed|
    ensures i <= j && Inv(c, f(j)) && Due(f(j), k) && NearerBy(f(j), f(i), k)
  {
    var l := NextLoopStep(c, f, i, k);
    DueAlong(c, f, i, l, k);
    if k < |f(l).executed| { return l; }
    LoopStepNearer(c, f, l, k);
    DueAlong(c, f, l, l + 1, k);
    NearerOn(f(l + 1), f(l), f(i), k);
    j := l + 1;
  }

  lemma {:induction false} DueExecuted(c: Setup, f: nat -> State, i: nat, k: nat) returns (m: nat)
    requires Fair(c, f) && Inv(c, f(i)) && Due(f(i), k)
    ensures i <= m && k < |f(m).executed|
    decreases Stage(f(i), k), ToDo(f(i), k)
  {
    m := i;
    if k >= |f(i).executed| {
      m := ComesNearer(c, f, i, k);
      if k >= |f(m).executed| { m := DueExecuted(c, f, m, k); }
    }
  }

  // ---------- Pushed and not yet counted ----------

  lemma Uncounted(c: Setup, s: State, k: nat) returns (t: nat)
    requires Inv(c, s) && k < |s.pushed| && !Due(s, k)
    ensures t < |s.threads| && s.holder == Thread(t) && s.threads[t].Pushed?
  {
    assert s.holder.Thread?;
    t := s.holder.t;
  }

  lemma Counted(c: Setup, s: State, e: Event, t: nat)
    requires Enabled(c, s, e) && !LoopEvent(e) && e.t == t && s.threads[t].Pushed?
    ensures Step(c, s, e).counter > 0
  {
  }

  lemma BecomesDue(c: Setup, f: nat -> State, i: nat, k: nat) returns (j: nat)
    requires Fair(c, f) && Inv(c, f(i)) && k < |f(i).pushed|
    ensures i <= j && Inv(c, f(j)) && Due(f(j), k)
  {
    if Due(f(i), k) { return i; }
    var t := Uncounted(c, f(i), k);
    var l, e := NextMove(c, f, i, t);
    Counted(c, f(l), e, t);
    ScheduleInv(c, f, i, l + 1);
    j := l + 1;
  }

  /** Main result: on every fair schedule that continues any run, whatever is dispatched, times out or
      changes its pollers meanwhile, every dispatch made, collapsed or not, is followed by an execution
      of its callback. */
  lemma FairlyExecuted(c: Setup, t: seq<State>, f: nat -> State, n: nat, i: nat) returns (m: nat)
    requires Run(c, t) && f(0) == t[|t| - 1] && Fair(c, f) && i < |f(n).claims|
    ensures var x := f(n).claims[i]; n <= m && x.before <= x.at < |f(m).executed| && f(m).executed[x.at] == x.e
  {
    RunInv(c, t, |t| - 1);
    ScheduleInv(c, f, 0, n);
    var x := f(n).claims[i];
    assert Answered(f(n), x);
    var j := BecomesDue(c, f, n, x.at);
    m := DueExecuted(c, f, j, x.at);
    ScheduleInv(c, f, n, m);
    ExecutedAsPushed(c, f(m), x.at);
  }

  // ---------- A fair schedule ----------

  ghost predicate Quiet(s: State) { forall t :: 0 <= t < |s.threads| ==> s.threads[t] == Outside }

  function LoopNext(c: Setup, s: State): Event {
    match s.pc
    case Loading => Load
    case Waiting(_) => Wake(Ready(c, s))
    case Fired(notified) => if notified then ReadPipe else LoadAgain
    case Locking => Lock
    case Swapping => Swap
    case Storing => Store
    case Unlocking => Unlock
    case Running => if s.batch != [] then RunOne else Finish
  }

  ghost function Busy(s: State): nat {
    if t: nat :| t < |s.threads| && s.threads[t] != Outside then t else 0
  }

  /** Whoever holds the lock goes first, then threads inside a dispatch, then the loop. */
  ghost function Pick(c: Setup, s: State): Event {
    if s.holder.Thread? && s.holder.t < |s.threads| then ThreadEvent(s, s.holder.t)
    else if Quiet(s) || s.holder == TheLoop then LoopNext(c, s)
    else if Busy(s) < |s.threads| then ThreadEvent(s, Busy(s)) else LoopNext(c, s)
  }

  ghost function Picked(c: Setup, s: State): State {
    if Enabled(c, s, Pick(c, s)) then Step(c, s, Pick(c, s)) else s
  }

  ghost function Iterated(g: State -> State, s: State, n: nat): State {
    if n == 0 then s else g(Iterated(g, s, n - 1))
  }

  lemma {:induction false} IteratedKeeps(g: State -> State, p: State -> bool, s: State, n: nat)
    requires p(s) && forall x :: p(x) ==> p(g(x))
    ensures p(Iterated(g, s, n))
  {
    if n > 0 { IteratedKeeps(g, p, s, n - 1); }
  }

  ghost function PickedFrom(c: Setup, s: State, n: nat): State {
    Iterated(x => Picked(c, x), s, n)
  }

  lemma LoopNextEnabled(c: Setup, s: State)
    requires LockOk(s) && s.threads[0] == Outside && (s.pc == Locking ==> s.holder == Nobody)
    ensures Enabled(c, s, LoopNext(c, s)) && Advances(LoopNext(c, s))
  {
  }

  lemma ThreadEnabled(c: Setup, s: State, t: nat)
    requires LockOk(s) && t < |s.threads| && s.threads[t] != Outside && (s.holder == Thread(t) || s.holder == Nobody)
    ensures Enabled(c, s, ThreadEvent(s, t)) && Internal(c, s, ThreadEvent(s, t)) && !LoopEvent(ThreadEvent(s, t))
  {
  }

  lemma PickEnabled(c: Setup, s: State)
    requires LockOk(s)
    ensures Enabled(c, s, Pick(c, s)) && (Quiet(s) ==> Advances(Pick(c, s)))
  {
    if s.holder.Thread? {
      assert HoldsLock(s.threads[s.holder.t]);
      ThreadEnabled(c, s, s.holder.t);
    } else if Quiet(s) || s.holder == TheLoop {
      LoopNextEnabled(c, s);
    } else {
      ThreadEnabled(c, s, Busy(s));
    }
  }

  lemma PickedKeeps(c: Setup, s: State)
    requires c.capacity > 0 && Inv(c, s)
    ensures Inv(c, Picked(c, s))
  {
    PickEnabled(c, s);
    StepInv(c, s, Pick(c, s));
  }

  lemma PickedInv(c: Setup, s: State, n: nat)
    requires c.capacity > 0 && Inv(c, s)
    ensures Inv(c, PickedFrom(c, s, n))
  {
    forall x | Inv(c, x)
      ensures Inv(c, Picked(c, x))
    {
      PickedKeeps(c, x);
    }
    IteratedKeeps(x => Picked(c, x), x => Inv(c, x), s, n);
  }

  function LoopHold(s: State): nat {
    match s.pc
    case Swapping => 3
    case Storing => 2
    case Unlocking => 1
    case _ => 0
  }

  lemma PickSettles(c: Setup, s: State)
    requires LockOk(s) && !Quiet(s)
    ensures var s' := Picked(c, s);
            || Weights(s'.threads) < Weights(s.threads)
            || (s'.threads == s.threads && LoopHold(s') < LoopHold(s))
  {
    PickEnabled(c, s);
    if s.holder == TheLoop {
      LoopNextEnabled(c, s);
    } else {
      var t := if s.holder.Thread? then s.holder.t else Busy(s);
      assert s.holder.Thread? ==> HoldsLock(s.threads[t]);
      ThreadEnabled(c, s, t);
      DispatchDescends(c, s, ThreadEvent(s, t));
    }
  }

  lemma {:induction false} Settles(c: Setup, s: State, i: nat) returns (j: nat)
    requires c.capacity > 0 && Inv(c, s)
    ensures i <= j && Quiet(PickedFrom(c, s, j))
    decreases Weights(PickedFrom(c, s, i).threads), LoopHold(PickedFrom(c, s, i))
  {
    j := i;
    if !Quiet(PickedFrom(c, s, i)) {
      NextSettles(c, s, i);
      j := Settles(c, s, i + 1);
    }
  }

  lemma NextSettles(c: Setup, s: State, i: nat)
    requires c.capacity > 0 && Inv(c, s) && !Quiet(PickedFrom(c, s, i))
    ensures var x, x' := PickedFrom(c, s, i), PickedFrom(c, s, i + 1);
            Weights(x'.threads) < Weights(x.threads) || (x'.threads == x.threads && LoopHold(x') < LoopHold(x))
  {
    PickedInv(c, s, i);
    PickSettles(c, PickedFrom(c, s, i));
    assert PickedFrom(c, s, i + 1) == Picked(c, PickedFrom(c, s, i));
  }

  lemma QuietSteps(c: Setup, s: State, f: nat -> State, j: nat)
    requires c.capacity > 0 && Inv(c, s) && (forall n: nat :: f(n) == PickedFrom(c, s, n)) && Quiet(f(j))
    ensures LoopStepAt(c, f, j) && (f(j).pc == Locking ==> f(j + 1).pc == Swapping)
  {
    PickedInv(c, s, j);
    PickEnabled(c, f(j));
    assert f(j + 1) == Picked(c, f(j));
    if f(j).pc == Locking { assert Pick(c, f(j)) == Lock; }
  }

  lemma PickedSteps(c: Setup, s: State, f: nat -> State, i: nat)
    requires c.capacity > 0 && Inv(c, s) && (forall n: nat :: f(n) == PickedFrom(c, s, n))
    ensures StepAt(c, f, i)
  {
    PickedInv(c, s, i);
    PickEnabled(c, f(i));
    assert f(i + 1) == Picked(c, f(i));
  }

  lemma PickedFair(c: Setup, s: State, f: nat -> State, i: nat)
    requires c.capacity > 0 && Inv(c, s) && (forall n: nat :: f(n) == PickedFrom(c, s, n))
    ensures LoopActs(c, f, i)
    ensures f(i).pc == Locking ==> GetsOn(f, i)
    ensures forall t: nat :: t < |f(i).threads| && Inside(f(i).threads[t]) ==> Moves(f, i, t)
  {
    var j := Settles(c, s, i);
    QuietSteps(c, s, f, j);
    if f(i).pc == Locking {
      if f(j).pc == Locking { assert f(j + 1).pc != f(i).pc; } else { assert f(j).pc != f(i).pc; }
    }
    PickedInv(c, s, i);
    forall n: nat
      ensures StepAt(c, f, n)
    {
      PickedSteps(c, s, f, n);
    }
    ScheduleInv(c, f, i, j);
    forall t: nat | t < |f(i).threads| && Inside(f(i).threads[t])
      ensures Moves(f, i, t)
    {
      assert f(j).threads[t] == Outside;
    }
  }

  /** Every run goes on in a fair way. */
  lemma FairScheduleExists(c: Setup, t: seq<State>) returns (f: nat -> State)
    requires Run(c, t)
    ensures f(0) == t[|t| - 1] && Fair(c, f)
  {
    var s := t[|t| - 1];
    RunInv(c, t, |t| - 1);
    f := (n: nat) => PickedFrom(c, s, n);
    forall i: nat
      ensures StepAt(c, f, i)
    {
      PickedSteps(c, s, f, i);
    }
    forall i: nat
      ensures LoopActs(c, f, i) && (f(i).pc == Locking ==> GetsOn(f, i))
      ensures forall x: nat :: x < |f(i).threads| && Inside(f(i).threads[x]) ==> Moves(f, i, x)
    {
      PickedFair(c, s, f, i);
    }
  }

  // ---------- A schedule that is not fair ----------

  /** Thread 1 stands between its push and its count, and the loop spins. */
  function Spinning(pc: LoopPc): State {
    State([0], 0, Thread(1), [Outside, Pushed], 0, false, true, pc, [], [0], [], [Claim(0, 0, 0)])
  }

  function SpinPc(n: nat): LoopPc {
    if n % 3 == 0 then Fired(false) else if n % 3 == 1 then Loading else Waiting(false)
  }

  function SpinEvent(n: nat): Event {
    if n % 3 == 0 then LoadAgain else if n % 3 == 1 then Load else Wake(false)
  }

  lemma Spins(c: Setup, n: nat)
    ensures var s := Spinning(SpinPc(n));
            Internal(c, s, SpinEvent(n)) && Step(c, s, SpinEvent(n)) == Spinning(SpinPc(n + 1))
  {
  }

  lemma Onward(c: Setup, t: seq<State>, e: Event) returns (t': seq<State>)
    requires Run(c, t) && Enabled(c, t[|t| - 1], e)
    ensures Run(c, t') && t'[|t'| - 1] == Step(c, t[|t| - 1], e)
  {
    var s' := Step(c, t[|t| - 1], e);
    assert Follows(c, t[|t| - 1], s');
    t' := t + [s'];
    assert t'[0] == t[0];
    forall i | 0 < i < |t'|
      ensures StepsAt(c, t', i)
    {
      if i < |t| { assert StepsAt(c, t, i); }
    }
  }

  lemma RunToSpin(c: Setup) returns (t: seq<State>)
    requires c.capacity > 0
    ensures Run(c, t) && t[|t| - 1] == Spinning(Fired(false))
  {
    t := [Start(1)];
    assert Start(1).threads == [Outside, Outside];
    t := Onward(c, t, Load);
    t := Onward(c, t, Wake(false));
    t := Onward(c, t, SetPollers(true));
    t := Onward(c, t, Call(1, 0));
    assert [Outside, Outside][1 := Wanting(0)] == [Outside, Wanting(0)];
    t := Onward(c, t, Acquire(1));
    t := Onward(c, t, Check(1));
    assert t[|t| - 1].threads == [Outside, Pushed];
  }

  /** With pollers the loop can go on for ever beside a thread suspended in its critical section: the lock
      never comes free and the callback is not executed. */
  lemma PollersCanStarve(c: Setup) returns (t: seq<State>, f: nat -> State)
    requires c.capacity > 0
    ensures Run(c, t) && f(0) == t[|t| - 1] && f(0).pollers && 0 < |f(0).pushed| && EventLoop.Held(f(0), 0)
    ensures GoesOn(c, f, 0) && !LockComesFree(f) && forall m :: |f(m).executed| == 0
  {
    t := RunToSpin(c);
    f := (n: nat) => Spinning(SpinPc(n));
    forall i: nat
      ensures InternalAt(c, f, i)
    {
      Spins(c, i);
    }
  }
}
