/** Cross-thread dispatch into an event centre: any number of dispatching threads and the loop,
    interleaved at the grain of single shared accesses. */
module EventLoop {

  type Callback = nat

  /** Where a thread is inside `dispatch_event_external`. Thread 0 is the loop's own thread,
      which may dispatch from inside a callback. */
  datatype Pc =
    | Outside
    | Wanting(e: Callback)
    | Checking(e: Callback)
    | Pushed
    | Leaving(num: nat)
    | Left(num: nat)
    | Writing

  /** Where the loop is inside `process_events`. */
  datatype LoopPc =
    | Loading
    | Waiting(blocking: bool)
    | Fired(notified: bool)
    | Locking
    | Swapping
    | Storing
    | Unlocking
    | Running

  datatype Holder = Nobody | Thread(t: nat) | TheLoop

  /** A finished or collapsed dispatch: its callback, the queue position that answers it,
      and how many callbacks had been executed when it was made. */
  datatype Claim = Claim(e: Callback, at: int, before: nat)

  /** `queue` and `counter` are the shared fields; `bytes` are unread in the notify pipe and `edge`
      is the kernel's pending edge for it. `pushed`, `executed` and `claims` are history. */
  datatype State = State(
    queue: seq<Callback>, counter: nat, holder: Holder, threads: seq<Pc>,
    bytes: nat, edge: bool, pollers: bool,
    pc: LoopPc, batch: seq<Callback>,
    pushed: seq<Callback>, executed: seq<Callback>, claims: seq<Claim>)

  /** The pipe's capacity, and whether the driver is level triggered (select) or edge triggered (epoll). */
  datatype Setup = Setup(capacity: nat, level: bool)

  const READ_SIZE: nat := 256

  datatype Event =
    // dispatching threads
    | Call(t: nat, e: Callback)
    | Acquire(t: nat)
    | Check(t: nat)
    | Count(t: nat)
    | Release(t: nat)
    | Decide(t: nat)
    | Write(t: nat)
    // the loop
    | Load
    | Wake(notified: bool)
    | ReadPipe
    | SetPollers(on: bool)
    | LoadAgain
    | Lock
    | Swap
    | Store
    | Unlock
    | RunOne
    | Finish

  predicate InCallback(pc: LoopPc) { pc.Fired? || pc.Running? }

  /** What makes the driver report the notify pipe. */
  predicate Ready(c: Setup, s: State) { s.bytes > 0 && (c.level || s.edge) }

  /** The tail-duplicate check, made under the lock. */
  predicate Collapses(s: State, e: Callback) {
    s.counter > 0 && s.queue != [] && s.queue[|s.queue| - 1] == e
  }

  predicate LoopEvent(e: Event) {
    !e.Call? && !e.Acquire? && !e.Check? && !e.Count? && !e.Release? && !e.Decide? && !e.Write?
  }

  predicate Enabled(c: Setup, s: State, e: Event) {
    |s.threads| > 0 &&
    match e
    case Call(t, _) => t < |s.threads| && s.threads[t] == Outside && (t == 0 ==> InCallback(s.pc))
    case Acquire(t) => t < |s.threads| && s.threads[t].Wanting? && s.holder == Nobody
    case Check(t) => t < |s.threads| && s.threads[t].Checking?
    case Count(t) => t < |s.threads| && s.threads[t].Pushed?
    case Release(t) => t < |s.threads| && s.threads[t].Leaving?
    case Decide(t) => t < |s.threads| && s.threads[t].Left?
    case Write(t) => t < |s.threads| && s.threads[t].Writing?
    case _ =>
      s.threads[0] == Outside &&
      match e
      case Load => s.pc == Loading
      case Wake(notified) => s.pc.Waiting? && (notified ==> Ready(c, s))
      case ReadPipe => s.pc == Fired(true)
      case SetPollers(_) => InCallback(s.pc)
      case LoadAgain => s.pc == Fired(false)
      case Lock => s.pc == Locking && s.holder == Nobody
      case Swap => s.pc == Swapping
      case Store => s.pc == Storing
      case Unlock => s.pc == Unlocking
      case RunOne => s.pc == Running && s.batch != []
      case _ => s.pc == Running && s.batch == []
  }

  function At(s: State, t: nat, pc: Pc): State
    requires t < |s.threads|
  {
    s.(threads := s.threads[t := pc])
  }

  function DispatchStep(c: Setup, s: State, e: Event): State
    requires Enabled(c, s, e) && !LoopEvent(e)
  {
    match e
    case Call(t, cb) => At(s, t, Wanting(cb))
    case Acquire(t) => At(s, t, Checking(s.threads[t].e)).(holder := Thread(t))
    case Check(t) =>
      var cb := s.threads[t].e;
      if Collapses(s, cb) then
        At(s, t, Leaving(0)).(claims := s.claims + [Claim(cb, |s.pushed| - 1, |s.executed|)])
      else
        At(s, t, Pushed).(queue := s.queue + [cb], pushed := s.pushed + [cb],
                          claims := s.claims + [Claim(cb, |s.pushed|, |s.executed|)])
    case Count(t) => At(s, t, Leaving(s.counter + 1)).(counter := s.counter + 1)
    case Release(t) => At(s, t, Left(s.threads[t].num)).(holder := Nobody)
    case Decide(t) => At(s, t, if s.threads[t].num == 1 && t != 0 && !s.pollers then Writing else Outside)
    case Write(t) =>
      if s.bytes < c.capacity then At(s, t, Outside).(bytes := s.bytes + 1, edge := true)
      else At(s, t, Outside)
  }

  function LoopStep(c: Setup, s: State, e: Event): State
    requires Enabled(c, s, e) && LoopEvent(e)
  {
    match e
    case Load => s.(pc := Waiting(!s.pollers && s.counter == 0))
    case Wake(notified) => s.(pc := Fired(notified), edge := s.edge && !notified)
    case ReadPipe =>
      if s.bytes == 0 then s.(pc := Fired(false))
      else s.(bytes := if s.bytes <= READ_SIZE then 0 else s.bytes - READ_SIZE)
    case SetPollers(on) => s.(pollers := on)
    case LoadAgain => s.(pc := if s.counter > 0 then Locking else Loading)
    case Lock => s.(pc := Swapping, holder := TheLoop)
    case Swap => s.(pc := Storing, batch := s.queue, queue := [])
    case Store => s.(pc := Unlocking, counter := 0)
    case Unlock => s.(pc := Running, holder := Nobody)
    case RunOne => s.(executed := s.executed + [s.batch[0]], batch := s.batch[1..])
    case Finish => s.(pc := Loading)
  }

  function Step(c: Setup, s: State, e: Event): State
    requires Enabled(c, s, e)
  {
    if LoopEvent(e) then LoopStep(c, s, e) else DispatchStep(c, s, e)
  }

  // ---------- Invariant ----------

  ghost predicate HoldsLock(p: Pc) { p.Checking? || p.Pushed? || p.Leaving? }

  ghost predicate LockOk(s: State) {
    && (forall t :: 0 <= t < |s.threads| ==> (HoldsLock(s.threads[t]) <==> s.holder == Thread(t)))
    && (s.holder.Thread? ==> s.holder.t < |s.threads|)
    && (s.holder == TheLoop <==> s.pc in {Swapping, Storing, Unlocking})
    && |s.threads| > 0 && (s.threads[0] != Outside ==> InCallback(s.pc)) && s.threads[0] != Writing
  }

  /** The counter is the queue's length except inside a critical section. */
  ghost predicate CountOk(s: State) {
    match s.holder
    case Nobody => s.counter == |s.queue|
    case TheLoop =>
      if s.pc == Swapping then s.counter == |s.queue|
      else s.queue == [] && (s.pc == Unlocking ==> s.counter == 0)
    case Thread(t) =>
      t < |s.threads| &&
      if s.threads[t].Pushed? then s.counter + 1 == |s.queue|
      else s.counter == |s.queue| && (s.threads[t].Leaving? ==> s.threads[t].num in {0, s.counter})
  }

  ghost predicate PipeOk(c: Setup, s: State) {
    !c.level && s.bytes > 0 ==> s.edge || s.pc == Fired(true)
  }

  /** Nothing is dropped, duplicated or reordered between push and execution. */
  ghost predicate LogOk(s: State) {
    && s.pushed == s.executed + s.batch + s.queue
    && (s.batch != [] ==> s.pc in {Storing, Unlocking, Running})
    && forall i :: 0 <= i < |s.claims| ==> Answered(s, s.claims[i])
  }

  ghost predicate Answered(s: State, x: Claim) {
    0 <= x.at < |s.pushed| && s.pushed[x.at] == x.e && x.before <= x.at
  }

  /** A thread that has made the queue non-empty and has its pipe write still ahead. */
  ghost predicate WillWrite(s: State, t: nat) {
    && 0 < t < |s.threads|
    && (s.threads[t] in {Leaving(1), Left(1), Writing} || (s.threads[t].Pushed? && s.counter == 0))
  }

  ghost predicate WakeOk(c: Setup, s: State) {
    s.pc == Waiting(true) ==> !s.pollers && (s.queue == [] || Ready(c, s) || exists t :: WillWrite(s, t))
  }

  ghost predicate Inv(c: Setup, s: State) {
    LockOk(s) && CountOk(s) && PipeOk(c, s) && LogOk(s) && WakeOk(c, s)
  }

  lemma LoopStepLock(c: Setup, s: State, e: Event)
    requires LockOk(s) && Enabled(c, s, e) && LoopEvent(e)
    ensures LockOk(LoopStep(c, s, e))
  {
  }

  lemma DispatchStepLock(c: Setup, s: State, e: Event)
    requires LockOk(s) && Enabled(c, s, e) && !LoopEvent(e)
    ensures LockOk(DispatchStep(c, s, e))
  {
    var s' := DispatchStep(c, s, e);
    forall t | 0 <= t < |s.threads|
      ensures HoldsLock(s'.threads[t]) <==> s'.holder == Thread(t)
    {
      assert HoldsLock(s.threads[t]) <==> s.holder == Thread(t);
      assert HoldsLock(s.threads[e.t]) <==> s.holder == Thread(e.t);
    }
  }

  lemma LoopCount(c: Setup, s: State, e: Event)
    requires LockOk(s) && CountOk(s) && Enabled(c, s, e) && LoopEvent(e)
    ensures CountOk(LoopStep(c, s, e))
  {
  }

  lemma DispatchCount(c: Setup, s: State, e: Event)
    requires LockOk(s) && CountOk(s) && Enabled(c, s, e) && !LoopEvent(e)
    ensures CountOk(DispatchStep(c, s, e))
  {
  }

  lemma StepCount(c: Setup, s: State, e: Event)
    requires LockOk(s) && CountOk(s) && Enabled(c, s, e)
    ensures CountOk(Step(c, s, e))
  {
    if LoopEvent(e) { LoopCount(c, s, e); } else { DispatchCount(c, s, e); }
  }

  lemma StepPipe(c: Setup, s: State, e: Event)
    requires PipeOk(c, s) && Enabled(c, s, e)
    ensures PipeOk(c, Step(c, s, e))
  {
  }

  lemma PushLog(c: Setup, s: State, t: nat)
    requires LogOk(s) && Enabled(c, s, Check(t)) && !Collapses(s, s.threads[t].e)
    ensures LogOk(DispatchStep(c, s, Check(t)))
  {
    var s', e := DispatchStep(c, s, Check(t)), s.threads[t].e;
    assert s.executed + s.batch + (s.queue + [e]) == s.pushed + [e];
    forall i | 0 <= i < |s'.claims|
      ensures Answered(s', s'.claims[i])
    {
      if i < |s.claims| { assert Answered(s, s.claims[i]); }
    }
  }

  lemma CollapseLog(c: Setup, s: State, t: nat)
    requires LogOk(s) && Enabled(c, s, Check(t)) && Collapses(s, s.threads[t].e)
    ensures LogOk(DispatchStep(c, s, Check(t)))
  {
    var s' := DispatchStep(c, s, Check(t));
    assert s.pushed[|s.pushed| - 1] == s.queue[|s.queue| - 1];
    forall i | 0 <= i < |s'.claims|
      ensures Answered(s', s'.claims[i])
    {
      if i < |s.claims| { assert Answered(s, s.claims[i]); }
    }
  }

  lemma MoveLog(s: State, s': State)
    requires LogOk(s) && s'.pushed == s.pushed && s'.claims == s.claims
    requires s'.executed + s'.batch + s'.queue == s.executed + s.batch + s.queue
    requires s'.batch != [] ==> s'.pc in {Storing, Unlocking, Running}
    ensures LogOk(s')
  {
    forall i | 0 <= i < |s.claims|
      ensures Answered(s', s.claims[i])
    {
      assert Answered(s, s.claims[i]);
    }
  }

  lemma LoopLog(c: Setup, s: State, e: Event)
    requires LogOk(s) && Enabled(c, s, e) && LoopEvent(e)
    ensures LogOk(LoopStep(c, s, e))
  {
    if e.Swap? {
      assert s.batch == [];
      assert s.executed + [] + s.queue == s.executed + s.queue + [];
    } else if e.RunOne? {
      assert s.batch == [s.batch[0]] + s.batch[1..];
      assert s.executed + s.batch == s.executed + [s.batch[0]] + s.batch[1..];
    }
    MoveLog(s, LoopStep(c, s, e));
  }

  lemma StepLog(c: Setup, s: State, e: Event)
    requires LogOk(s) && Enabled(c, s, e)
    ensures LogOk(Step(c, s, e))
  {
    if LoopEvent(e) {
      LoopLog(c, s, e);
    } else if !e.Check? {
      MoveLog(s, DispatchStep(c, s, e));
    } else if Collapses(s, s.threads[e.t].e) {
      CollapseLog(c, s, e.t);
    } else {
      PushLog(c, s, e.t);
    }
  }

  lemma LoopWake(c: Setup, s: State, e: Event)
    requires LockOk(s) && CountOk(s) && WakeOk(c, s) && Enabled(c, s, e) && LoopEvent(e)
    ensures WakeOk(c, LoopStep(c, s, e))
  {
    if e.Load? && s.counter == 0 && s.queue != [] {
      assert s.holder.Thread?;
      assert WillWrite(LoopStep(c, s, e), s.holder.t);
    }
  }

  lemma DispatchWake(c: Setup, s: State, e: Event)
    requires LockOk(s) && CountOk(s) && PipeOk(c, s) && WakeOk(c, s) && c.capacity > 0 && Enabled(c, s, e) && !LoopEvent(e)
    ensures WakeOk(c, DispatchStep(c, s, e))
  {
    var s' := DispatchStep(c, s, e);
    if s'.pc == Waiting(true) && s'.queue != [] {
      if s.queue == [] {
        assert WillWrite(s', e.t);
      } else if !Ready(c, s) {
        var t :| WillWrite(s, t);
        if !e.Write? || e.t != t { assert WillWrite(s', t); }
      }
    }
  }

  lemma StepWake(c: Setup, s: State, e: Event)
    requires LockOk(s) && CountOk(s) && PipeOk(c, s) && WakeOk(c, s) && c.capacity > 0 && Enabled(c, s, e)
    ensures WakeOk(c, Step(c, s, e))
  {
    if LoopEvent(e) { LoopWake(c, s, e); } else { DispatchWake(c, s, e); }
  }

  lemma StepInv(c: Setup, s: State, e: Event)
    requires Inv(c, s) && c.capacity > 0 && Enabled(c, s, e)
    ensures Inv(c, Step(c, s, e))
  {
    if LoopEvent(e) { LoopStepLock(c, s, e); } else { DispatchStepLock(c, s, e); }
    StepCount(c, s, e);
    StepPipe(c, s, e);
    StepLog(c, s, e);
    StepWake(c, s, e);
  }

  // ---------- Runs ----------

  function Start(threads: nat): State {
    State([], 0, Nobody, seq(threads + 1, i => Outside), 0, false, false, Loading, [], [], [], [])
  }

  ghost predicate Follows(c: Setup, s: State, s': State) {
    exists e :: Enabled(c, s, e) && s' == Step(c, s, e)
  }

  ghost predicate StepsAt(c: Setup, t: seq<State>, i: int) {
    0 < i < |t| && Follows(c, t[i - 1], t[i])
  }

  ghost predicate Run(c: Setup, t: seq<State>) {
    c.capacity > 0 && |t| > 0 && (exists n: nat :: t[0] == Start(n)) && forall i :: 0 < i < |t| ==> StepsAt(c, t, i)
  }

  lemma {:induction false} RunInv(c: Setup, t: seq<State>, n: nat)
    requires Run(c, t) && n < |t|
    ensures Inv(c, t[n])
  {
    if n > 0 {
      RunInv(c, t, n - 1);
      assert StepsAt(c, t, n);
      var e :| Enabled(c, t[n - 1], e) && t[n] == Step(c, t[n - 1], e);
      StepInv(c, t[n - 1], e);
    }
  }

  /** No wake-up is lost: if the loop is blocked while a callback is queued, the notify pipe is
      readable or some dispatching thread is between its push and its pipe write. */
  lemma NoLostWakeup(c: Setup, t: seq<State>, n: nat)
    requires Run(c, t) && n < |t| && t[n].pc == Waiting(true) && t[n].queue != []
    ensures Ready(c, t[n]) || exists i :: WillWrite(t[n], i)
  {
    RunInv(c, t, n);
  }

  /** Whenever the lock is free the counter is the queue's length, and the tail is looked at
      only when there is one. */
  lemma CounterIsLength(c: Setup, t: seq<State>, n: nat)
    requires Run(c, t) && n < |t|
    ensures t[n].holder == Nobody ==> t[n].counter == |t[n].queue|
    ensures forall i :: 0 <= i < |t[n].threads| && t[n].threads[i].Checking? && t[n].counter > 0 ==> t[n].queue != []
  {
    RunInv(c, t, n);
  }

  /** Every dispatch, collapsed or not, has its callback executed after it or still waiting in order. */
  lemma EveryDispatchAnswered(c: Setup, t: seq<State>, n: nat, i: nat)
    requires Run(c, t) && n < |t| && i < |t[n].claims|
    ensures var x, s := t[n].claims[i], t[n];
            && x.before <= x.at
            && (x.at < |s.executed| ==> s.executed[x.at] == x.e)
            && (x.at >= |s.executed| ==> x.at - |s.executed| < |s.batch + s.queue| && (s.batch + s.queue)[x.at - |s.executed|] == x.e)
  {
    RunInv(c, t, n);
    var s := t[n];
    assert Answered(s, s.claims[i]);
    assert s.pushed == s.executed + (s.batch + s.queue);
  }

  /** No callback is queued twice in a row. */
  ghost predicate Separate(queue: seq<Callback>) {
    forall i :: 0 <= i < |queue| - 1 ==> queue[i] != queue[i + 1]
  }

  lemma StepSeparate(c: Setup, s: State, e: Event)
    requires LockOk(s) && CountOk(s) && Separate(s.queue) && Enabled(c, s, e)
    ensures Separate(Step(c, s, e).queue)
  {
    if e.Check? { assert HoldsLock(s.threads[e.t]); }
  }

  /** In every run repeated dispatches of the callback at the tail are collapsed, so that the queue never
      holds a callback twice in a row. */
  lemma {:induction false} RepeatsCollapse(c: Setup, t: seq<State>, n: nat)
    requires Run(c, t) && n < |t|
    ensures Separate(t[n].queue)
  {
    if n > 0 {
      RepeatsCollapse(c, t, n - 1);
      RunInv(c, t, n - 1);
      assert StepsAt(c, t, n);
      var e :| Enabled(c, t[n - 1], e) && t[n] == Step(c, t[n - 1], e);
      StepSeparate(c, t[n - 1], e);
    }
  }

  /** The loop goes to sleep exactly if there is nothing to do: no pollers and, the lock being free, nothing queued. */
  lemma SleepsIffNothingToDo(c: Setup, t: seq<State>, n: nat)
    requires Run(c, t) && n < |t| && Enabled(c, t[n], Load) && t[n].holder == Nobody
    ensures Step(c, t[n], Load).pc == Waiting(true) <==> !t[n].pollers && t[n].queue == []
  {
    RunInv(c, t, n);
  }

  // ---------- Execution follows ----------

  /** Push number `k` is taken out for execution, or it is queued and has been counted. */
  ghost predicate Due(s: State, k: nat) {
    k < |s.pushed| && (k < |s.executed| + |s.batch| || s.counter > 0)
  }

  /** Steps that need no new dispatch, no timeout and no other descriptor. */
  predicate Internal(c: Setup, s: State, e: Event) {
    Enabled(c, s, e) && !e.Call? && !e.SetPollers? && !(e == Wake(false) && s.pc == Waiting(true))
  }

  function Weight(p: Pc): nat {
    match p
    case Outside => 0
    case Writing => 1
    case Left(_) => 2
    case Leaving(_) => 3
    case Pushed => 4
    case Checking(_) => 5
    case Wanting(_) => 6
  }

  function Weights(ps: seq<Pc>): nat {
    if ps == [] then 0 else Weight(ps[0]) + Weights(ps[1..])
  }

  lemma {:induction false} WeightsUpdate(ps: seq<Pc>, t: nat, p: Pc)
    requires t < |ps|
    ensures Weights(ps[t := p]) == Weights(ps) - Weight(ps[t]) + Weight(p)
  {
    if t == 0 {
      assert ps[t := p][1..] == ps[1..];
    } else {
      assert ps[t := p][1..] == ps[1..][t - 1 := p];
      WeightsUpdate(ps[1..], t - 1, p);
    }
  }

  function Stage(s: State, k: nat): nat {
    if k < |s.executed| + |s.batch| then
      match s.pc case Storing => 2 case Unlocking => 1 case _ => 0
    else
      match s.pc
      case Running => 9
      case Loading => 8
      case Waiting(_) => 7
      case Fired(true) => 6
      case Fired(false) => 5
      case Locking => 4
      case _ => 3
  }

  function Sub(s: State, k: nat): nat {
    if k < |s.executed| then 0
    else if k < |s.executed| + |s.batch| then k - |s.executed|
    else if s.pc == Running then |s.batch|
    else s.bytes
  }

  ghost predicate Less(s': State, s: State, k: nat) {
    || Weights(s'.threads) < Weights(s.threads)
    || (Weights(s'.threads) == Weights(s.threads)
        && (Stage(s', k) < Stage(s, k) || (Stage(s', k) == Stage(s, k) && Sub(s', k) < Sub(s, k))))
  }

  lemma DueStays(c: Setup, s: State, e: Event, k: nat)
    requires LockOk(s) && CountOk(s) && LogOk(s) && Due(s, k) && Enabled(c, s, e)
    ensures Due(Step(c, s, e), k)
  {
  }

  lemma DispatchDescends(c: Setup, s: State, e: Event)
    requires Internal(c, s, e) && !LoopEvent(e)
    ensures Weights(DispatchStep(c, s, e).threads) < Weights(s.threads)
  {
    WeightsUpdate(s.threads, e.t, DispatchStep(c, s, e).threads[e.t]);
  }

  lemma LoopDescends(c: Setup, s: State, e: Event, k: nat)
    requires LockOk(s) && CountOk(s) && LogOk(s) && Due(s, k) && k >= |s.executed| && Internal(c, s, e) && LoopEvent(e)
    ensures k < |LoopStep(c, s, e).executed| || Less(LoopStep(c, s, e), s, k)
  {
  }

  /** Pushed but not yet counted: the pushing thread is inside its critical section. How often the
      loop can still come round to look at the counter before it blocks. */
  function Passes(s: State, k: nat): nat {
    var unread := if s.bytes > 0 then 1 else 0;
    if k < |s.executed| + |s.batch| || s.counter > 0 then 0
    else
      match s.pc
      case Fired(true) => 1
      case Fired(false) => 1 + unread
      case Waiting(false) => 1 + unread
      case _ => unread
  }

  lemma UncountedDescends(c: Setup, s: State, e: Event, k: nat)
    requires LockOk(s) && CountOk(s) && LogOk(s) && !Due(s, k) && |s.executed| <= k < |s.pushed| && !s.pollers
    requires Internal(c, s, e) && LoopEvent(e)
    ensures var s' := LoopStep(c, s, e);
            && s'.threads == s.threads && !s'.pollers
            && (Passes(s', k) < Passes(s, k)
                || (Passes(s', k) == Passes(s, k) && (Stage(s', k) < Stage(s, k) || (Stage(s', k) == Stage(s, k) && Sub(s', k) < Sub(s, k)))))
  {
    assert s.holder.Thread?;
  }

  /** A callback that is pushed and not executed is never stuck: some thread can always take a
      step on its own. */
  lemma NeverStuck(c: Setup, s: State, k: nat) returns (e: Event)
    requires Inv(c, s) && |s.executed| <= k < |s.pushed|
    ensures Internal(c, s, e)
  {
    if s.holder.Thread? {
      e := ThreadEvent(s, s.holder.t);
    } else if s.threads[0] != Outside {
      e := ThreadEvent(s, 0);
    } else if s.pc == Waiting(true) && !Ready(c, s) {
      assert s.queue != [];
      var t :| WillWrite(s, t);
      e := ThreadEvent(s, t);
    } else {
      e := match s.pc
      case Loading => Load
      case Waiting(b) => Wake(b)
      case Fired(n) => if n then ReadPipe else LoadAgain
      case Locking => Lock
      case Swapping => Swap
      case Storing => Store
      case Unlocking => Unlock
      case Running => if s.batch != [] then RunOne else Finish;
    }
  }

  function ThreadEvent(s: State, t: nat): Event
    requires t < |s.threads|
  {
    match s.threads[t]
    case Wanting(_) => Acquire(t)
    case Checking(_) => Check(t)
    case Pushed => Count(t)
    case Leaving(_) => Release(t)
    case Left(_) => Decide(t)
    case Writing => Write(t)
    case Outside => Call(t, 0)
  }

  ghost predicate InternalStep(c: Setup, s: State, s': State) {
    exists e :: Internal(c, s, e) && s' == Step(c, s, e)
  }

  ghost predicate InternalAt(c: Setup, f: nat -> State, n: nat) {
    InternalStep(c, f(n), f(n + 1))
  }

  /** As long as push number `k` has not been executed, the threads go on with steps of their own.
      Nothing is asked of the schedule otherwise. */
  ghost predicate GoesOn(c: Setup, f: nat -> State, k: nat) {
    forall i {:trigger InternalAt(c, f, i)} :: k >= |f(i).executed| ==> InternalAt(c, f, i)
  }

  lemma PushedStays(c: Setup, s: State, e: Event)
    requires Internal(c, s, e)
    ensures Step(c, s, e).pollers == s.pollers && s.pushed <= Step(c, s, e).pushed
  {
  }

  /** However the threads are scheduled, if nothing new is dispatched a pushed callback is executed
      after finitely many steps, without any timeout. With pollers, whose loop never blocks, it
      must have been counted. */
  lemma {:induction false} EventuallyExecuted(c: Setup, f: nat -> State, n: nat, k: nat) returns (m: nat)
    requires c.capacity > 0 && Inv(c, f(n)) && k < |f(n).pushed| && (Due(f(n), k) || !f(n).pollers) && GoesOn(c, f, k)
    ensures m >= n && k < |f(m).executed| && Inv(c, f(m)) && f(n).pushed <= f(m).pushed
    decreases Weights(f(n).threads), Passes(f(n), k), Stage(f(n), k), Sub(f(n), k)
  {
    if k < |f(n).executed| { return n; }
    assert InternalAt(c, f, n);
    var e :| Internal(c, f(n), e) && f(n + 1) == Step(c, f(n), e);
    StepInv(c, f(n), e);
    PushedStays(c, f(n), e);
    if Due(f(n), k) { DueStays(c, f(n), e, k); }
    if !LoopEvent(e) {
      DispatchDescends(c, f(n), e);
    } else if Due(f(n), k) {
      LoopDescends(c, f(n), e, k);
    } else {
      UncountedDescends(c, f(n), e, k);
    }
    if k < |f(n + 1).executed| { return n + 1; }
    m := EventuallyExecuted(c, f, n + 1, k);
  }

  lemma InternalKeeps(c: Setup, s: State, e: Event)
    requires c.capacity > 0 && Inv(c, s) && Internal(c, s, e)
    ensures Inv(c, Step(c, s, e)) && s.pushed <= Step(c, s, e).pushed
  {
    StepInv(c, s, e);
    PushedStays(c, s, e);
  }

  /** A later state of the same centre. */
  ghost predicate Later(c: Setup, s0: State, s: State) { Inv(c, s) && s0.pushed <= s.pushed }

  lemma NextIsLater(c: Setup, s0: State, s: State, s': State)
    requires c.capacity > 0 && Later(c, s0, s) && InternalStep(c, s, s')
    ensures Later(c, s0, s')
  {
    var e :| Internal(c, s, e) && s' == Step(c, s, e);
    InternalKeeps(c, s, e);
  }

  /** While it is not executed, a pushed callback stays pushed along the schedule. */
  lemma {:induction false} StaysPushed(c: Setup, f: nat -> State, i: nat, k: nat) returns (m: nat)
    requires c.capacity > 0 && Later(c, f(0), f(0)) && GoesOn(c, f, k)
    ensures m <= i && (k < |f(m).executed| || m == i) && Later(c, f(0), f(m))
  {
    if i == 0 { return 0; }
    m := StaysPushed(c, f, i - 1, k);
    if k >= |f(m).executed| {
      assert InternalAt(c, f, m);
      NextIsLater(c, f(0), f(m), f(m + 1));
      m := i;
    }
  }

  /** The pushing thread is not suspended for ever inside its critical section. */
  ghost predicate LockComesFree(f: nat -> State) {
    exists i :: f(i).holder == Nobody
  }

  lemma FreeMeansDue(c: Setup, s: State, k: nat)
    requires Inv(c, s) && s.holder == Nobody && |s.executed| <= k < |s.pushed|
    ensures Due(s, k)
  {
  }

  /** Main result. After any run and under any schedule that goes on, every dispatch made so far,
      collapsed or not, is followed by an execution of its callback. Only with pollers, where the
      loop spins, does this need the dispatching thread to be let out of its critical section. */
  lemma EveryDispatchExecuted(c: Setup, t: seq<State>, f: nat -> State, i: nat) returns (m: nat)
    requires Run(c, t) && f(0) == t[|t| - 1] && i < |f(0).claims| && f(0).claims[i].at >= 0
    requires GoesOn(c, f, f(0).claims[i].at) && (f(0).pollers ==> LockComesFree(f))
    ensures var x := f(0).claims[i]; x.before <= x.at < |f(m).executed| && f(m).executed[x.at] == x.e
  {
    var x := f(0).claims[i];
    RunInv(c, t, |t| - 1);
    assert Answered(f(0), x);
    if !f(0).pollers {
      m := EventuallyExecuted(c, f, 0, x.at);
    } else {
      var j: nat :| f(j).holder == Nobody;
      m := StaysPushed(c, f, j, x.at);
      if x.at >= |f(m).executed| {
        FreeMeansDue(c, f(j), x.at);
        m := EventuallyExecuted(c, f, j, x.at);
      }
    }
    ExecutedAsPushed(c, f(m), x.at);
  }

  lemma ExecutedAsPushed(c: Setup, s: State, k: nat)
    requires LogOk(s) && k < |s.executed|
    ensures k < |s.pushed| && s.executed[k] == s.pushed[k]
  {
  }

  /** A thread is inside its critical section and `k` is still queued. */
  ghost predicate Held(s: State, k: nat) { s.holder.Thread? && k >= |s.executed| + |s.batch| }

  lemma HeldStays(c: Setup, s: State, s': State, k: nat)
    requires LockOk(s) && Held(s, k) && InternalStep(c, s, s')
    ensures Held(s', k) || s'.holder == Nobody
  {
    var e :| Internal(c, s, e) && s' == Step(c, s, e);
    if LoopEvent(e) { HeldByLoop(c, s, e, k); } else { HeldByThread(c, s, e, k); }
  }

  lemma HeldByLoop(c: Setup, s: State, e: Event, k: nat)
    requires LockOk(s) && Held(s, k) && Enabled(c, s, e) && LoopEvent(e)
    ensures Held(LoopStep(c, s, e), k)
  {
  }

  lemma HeldByThread(c: Setup, s: State, e: Event, k: nat)
    requires Held(s, k) && Enabled(c, s, e) && !LoopEvent(e)
    ensures Held(DispatchStep(c, s, e), k) || DispatchStep(c, s, e).holder == Nobody
  {
  }

  lemma {:induction false} HeldUntilFree(c: Setup, f: nat -> State, i: nat, k: nat)
    requires c.capacity > 0 && Later(c, f(0), f(0)) && GoesOn(c, f, k) && Held(f(0), k) && forall j :: f(j).holder != Nobody
    ensures Held(f(i), k) && Later(c, f(0), f(i))
  {
    if i > 0 {
      HeldUntilFree(c, f, i - 1, k);
      assert InternalAt(c, f, i - 1);
      NextIsLater(c, f(0), f(i - 1), f(i));
      HeldStays(c, f(i - 1), f(i), k);
    }
  }

  /** A callback queued while a thread holds the lock is executed exactly if that thread is let out
      of its critical section at some time; without pollers it always is. */
  lemma ExecutedIffFree(c: Setup, t: seq<State>, f: nat -> State, k: nat)
    requires Run(c, t) && f(0) == t[|t| - 1] && k < |f(0).pushed| && Held(f(0), k) && GoesOn(c, f, k)
    ensures (exists m :: k < |f(m).executed|) <==> LockComesFree(f)
    ensures !f(0).pollers ==> LockComesFree(f)
  {
    RunInv(c, t, |t| - 1);
    if !f(0).pollers {
      var m := EventuallyExecuted(c, f, 0, k);
      if !LockComesFree(f) { HeldUntilFree(c, f, m, k); }
    }
    if LockComesFree(f) {
      var j: nat :| f(j).holder == Nobody;
      var m := StaysPushed(c, f, j, k);
      if k >= |f(m).executed| {
        FreeMeansDue(c, f(j), k);
        m := EventuallyExecuted(c, f, j, k);
      }
    } else {
      forall m: nat
        ensures k >= |f(m).executed|
      {
        HeldUntilFree(c, f, m, k);
      }
    }
  }

  /** One step of a schedule that goes on until `k` is executed. */
  ghost function Scheduled(c: Setup, s: State, k: nat): State {
    if exists e :: Internal(c, s, e) && k >= |s.executed| then
      var e :| Internal(c, s, e) && k >= |s.executed|;
      Step(c, s, e)
    else s
  }

  ghost function ScheduledFrom(c: Setup, s: State, k: nat, n: nat): State {
    if n == 0 then s else Scheduled(c, ScheduledFrom(c, s, k, n - 1), k)
  }

  ghost predicate Going(c: Setup, s: State, k: nat) { Inv(c, s) && k < |s.pushed| }

  lemma ScheduledKeeps(c: Setup, s: State, k: nat)
    requires c.capacity > 0 && Going(c, s, k)
    ensures Going(c, Scheduled(c, s, k), k)
  {
    if exists e :: Internal(c, s, e) && k >= |s.executed| {
      var e :| Internal(c, s, e) && k >= |s.executed| && Scheduled(c, s, k) == Step(c, s, e);
      InternalKeeps(c, s, e);
    }
  }

  lemma ScheduledSteps(c: Setup, s: State, k: nat)
    requires Inv(c, s) && |s.executed| <= k < |s.pushed|
    ensures InternalStep(c, s, Scheduled(c, s, k))
  {
    var e := NeverStuck(c, s, k);
  }

  lemma {:induction false} ScheduleInv(c: Setup, s: State, k: nat, n: nat)
    requires c.capacity > 0 && Going(c, s, k)
    ensures Going(c, ScheduledFrom(c, s, k, n), k)
  {
    if n > 0 {
      ScheduleInv(c, s, k, n - 1);
      ScheduledKeeps(c, ScheduledFrom(c, s, k, n - 1), k);
    }
  }

  lemma ScheduleStep(c: Setup, s: State, k: nat, n: nat)
    requires c.capacity > 0 && Going(c, s, k) && k >= |ScheduledFrom(c, s, k, n).executed|
    ensures InternalStep(c, ScheduledFrom(c, s, k, n), ScheduledFrom(c, s, k, n + 1))
  {
    ScheduleInv(c, s, k, n);
    ScheduledSteps(c, ScheduledFrom(c, s, k, n), k);
  }

  lemma ScheduleFrom(c: Setup, s: State, k: nat) returns (f: nat -> State)
    requires c.capacity > 0 && Going(c, s, k)
    ensures f(0) == s && GoesOn(c, f, k)
  {
    f := (n: nat) => ScheduledFrom(c, s, k, n);
    forall i: nat | k >= |f(i).executed|
      ensures InternalAt(c, f, i)
    {
      ScheduleStep(c, s, k, i);
    }
  }

  /** Such schedules exist from every state of every run. */
  lemma ScheduleExists(c: Setup, t: seq<State>, k: nat) returns (f: nat -> State)
    requires Run(c, t) && k < |t[|t| - 1].pushed|
    ensures f(0) == t[|t| - 1] && GoesOn(c, f, k)
  {
    RunInv(c, t, |t| - 1);
    f := ScheduleFrom(c, t[|t| - 1], k);
  }

  /** What is due before the loop's second look at the counter is executed when the loop next
      starts over, whatever the other threads do meanwhile. */
  lemma {:induction false} OneIterationExecutes(c: Setup, t: seq<State>, i: nat, j: nat, k: nat)
    requires Run(c, t) && i < j < |t| && Due(t[i], k)
    requires t[i].pc != Loading && t[j].pc == Loading && forall x :: i < x < j ==> t[x].pc != Loading
    requires t[i].pc == Running ==> k < |t[i].executed| + |t[i].batch|
    ensures k < |t[j].executed|
  {
    DueInIteration(c, t, i, j - 1, k);
    RunInv(c, t, j - 1);
    assert StepsAt(c, t, j);
    IterationEnds(c, t[j - 1], t[j], k);
  }

  lemma IterationEnds(c: Setup, s: State, s': State, k: nat)
    requires LogOk(s) && OnItsWay(s, k) && Follows(c, s, s') && s.pc != Loading && s'.pc == Loading
    ensures k < |s'.executed|
  {
    var e :| Enabled(c, s, e) && s' == Step(c, s, e);
    BackToLoading(c, s, e);
  }

  lemma BackToLoading(c: Setup, s: State, e: Event)
    requires Enabled(c, s, e) && s.pc != Loading && Step(c, s, e).pc == Loading
    ensures (e == LoadAgain && s.counter == 0 && s.pc == Fired(false)) || (e == Finish && s.pc == Running && s.batch == [])
    ensures Step(c, s, e).executed == s.executed
  {
  }

  /** Where a due callback is during the iteration. */
  ghost predicate OnItsWay(s: State, k: nat) {
    Due(s, k) && (s.pc == Running ==> k < |s.executed| + |s.batch|)
  }

  lemma {:induction false} DueInIteration(c: Setup, t: seq<State>, i: nat, j: nat, k: nat)
    requires Run(c, t) && i <= j < |t| && OnItsWay(t[i], k) && forall x :: i <= x <= j ==> t[x].pc != Loading
    ensures OnItsWay(t[j], k)
    decreases j
  {
    if j > i {
      DueInIteration(c, t, i, j - 1, k);
      IterationStep(c, t, j, k);
    }
  }

  lemma IterationStep(c: Setup, t: seq<State>, j: nat, k: nat)
    requires Run(c, t) && 0 < j < |t| && OnItsWay(t[j - 1], k) && t[j - 1].pc != Loading && t[j].pc != Loading
    ensures OnItsWay(t[j], k)
  {
    RunInv(c, t, j - 1);
    assert StepsAt(c, t, j);
    FollowsOnItsWay(c, t[j - 1], t[j], k);
  }

  lemma FollowsOnItsWay(c: Setup, s: State, s': State, k: nat)
    requires LockOk(s) && CountOk(s) && LogOk(s) && OnItsWay(s, k) && Follows(c, s, s') && s.pc != Loading && s'.pc != Loading
    ensures OnItsWay(s', k)
  {
    var e :| Enabled(c, s, e) && s' == Step(c, s, e);
    StaysOnItsWay(c, s, e, k);
  }

  lemma StaysOnItsWay(c: Setup, s: State, e: Event, k: nat)
    requires LockOk(s) && CountOk(s) && LogOk(s) && OnItsWay(s, k) && Enabled(c, s, e)
    requires s.pc != Loading && Step(c, s, e).pc != Loading
    ensures OnItsWay(Step(c, s, e), k)
  {
    DueStays(c, s, e, k);
  }

  // ---------- The critical sections as code ----------

  /** The queue after a dispatch: unchanged when its last callback is the same one. */
  function Enqueued(queue: seq<Callback>, e: Callback): seq<Callback> {
    if queue != [] && queue[|queue| - 1] == e then queue else queue + [e]
  }

  /** The steps between a thread's lock and unlock amount to one `Enqueued`. */
  lemma CriticalSection(c: Setup, s: State, t: nat)
    requires Inv(c, s) && t < |s.threads| && s.threads[t].Checking?
    ensures var s1 := Step(c, s, Check(t));
            var s2 := if s1.threads[t].Pushed? then Step(c, s1, Count(t)) else s1;
            && s2.queue == Enqueued(s.queue, s.threads[t].e) && s2.counter == |s2.queue|
            && s2.threads[t] == Leaving(if s2.queue == s.queue then 0 else |s2.queue|)
  {
    assert s.holder == Thread(t);
    assert |s.queue + [s.threads[t].e]| == |s.queue| + 1;
  }

  /** Undisturbed, a dispatch goes on to write to the pipe exactly if it found the queue empty, comes from
      another thread than the loop's, and there are no pollers. */
  lemma WakesIffFirst(c: Setup, s: State, t: nat)
    requires Inv(c, s) && t < |s.threads| && s.threads[t].Checking?
    ensures var s1 := Step(c, s, Check(t));
            var s2 := if s1.threads[t].Pushed? then Step(c, s1, Count(t)) else s1;
            && Enabled(c, s2, Release(t)) && Enabled(c, Step(c, s2, Release(t)), Decide(t))
            && (Step(c, Step(c, s2, Release(t)), Decide(t)).threads[t] == Writing <==> s.queue == [] && t != 0 && !s.pollers)
  {
    assert HoldsLock(s.threads[t]);
  }

  /** The pipe is read in blocks of 256 bytes, until a read finds nothing. */
  lemma ReadsInBlocks(c: Setup, s: State)
    requires Enabled(c, s, ReadPipe)
    ensures var s' := Step(c, s, ReadPipe);
            if s.bytes == 0 then s' == s.(pc := Fired(false))
            else s' == s.(bytes := s'.bytes) && (s.bytes <= 256 ==> s'.bytes == 0) && (s.bytes > 256 ==> s'.bytes + 256 == s.bytes)
  {
  }

  class ExternalEvents {
    var queue: seq<Callback>
    var counter: nat
    var pipe: nat

    predicate Valid() reads this { counter == |queue| }

    constructor ()
      ensures Valid() && queue == [] && pipe == 0
    {
      queue, counter, pipe := [], 0, 0;
    }

    /** Under the lock; `num` is what the thread decides its wake-up on. */
    method Dispatch(e: Callback) returns (num: nat)
      requires Valid()
      modifies this
      ensures Valid() && queue == Enqueued(old(queue), e) && pipe == old(pipe)
      ensures num == if queue == old(queue) then 0 else |queue|
    {
      if counter > 0 && queue[|queue| - 1] == e { return 0; }
      queue := queue + [e];
      counter := counter + 1;
      num := counter;
      assert |queue| != |old(queue)|;
    }

    /** The loop's critical section. */
    method TakeAll() returns (cur: seq<Callback>)
      requires Valid()
      modifies this
      ensures Valid() && queue == [] && cur == old(queue) && pipe == old(pipe)
    {
      cur := queue;
      queue := [];
      counter := 0;
    }

    /** The notify handler reads until nothing is left. */
    method DrainPipe()
      modifies this`pipe
      ensures pipe == 0
    {
      var r := 1;
      while r > 0
        invariant r >= 0 && (r == 0 ==> pipe == 0)
        decreases pipe, r
      {
        r := if pipe < READ_SIZE then pipe else READ_SIZE;
        pipe := pipe - r;
      }
    }
  }
}
