/** Send completions and closing sockets: which closes leave no completion to a socket that is not there. */
module OrderlyClose {
  import opened Common
  import opened QpRegistry
  import opened RxMemory
  import opened Dispatcher

  /** The state after a list of events, if each of them can happen and none fails. */
  ghost function Play(s: State, es: seq<Event>): Option<State>
    decreases |es|
  {
    if es == [] then Some(s)
    else if !Enabled(s, es[0]) || Step(s, es[0]).None? then None
    else Play(Step(s, es[0]).value, es[1..])
  }

  /** Send completions not yet handled, in the order in which they will be. */
  ghost function Queue(s: State): seq<TxEntry> { Unhandled(s.pc) + s.txcq }

  ghost predicate SentIn(xs: seq<TxEntry>, q: QpId) {
    exists i :: 0 <= i < |xs| && xs[i].Sent? && xs[i].qp == q
  }

  /** Queue pair `q` has a send that is posted, or completed and not yet handled. */
  ghost predicate Outstanding(s: State, q: QpId) { q in s.sends || SentIn(Queue(s), q) }

  /** A lookup of the queue pair's number finds a socket. */
  ghost predicate Answerable(r: Registry, q: QpId) { q in r.qps && GetConn(r, r.qps[q].number).Some? }

  /** The next step of the polling thread calls a socket that is not there. */
  ghost predicate CallFails(s: State) { s.pc.Calling? && Crashes(s, CallTx) }

  /** Nothing of the queue pair with this number is under way. */
  ghost predicate Quiet(s: State, number: nat) {
    number in s.reg.conns ==> !Outstanding(s, s.reg.conns[number].qp)
  }

  /** A socket closes, or its queue pair is declared dead, only when none of its send completions is
      unpolled, unhandled or about to be called. */
  ghost predicate RetiresQuietly(s: State, e: Event)
    requires Enabled(s, e)
  {
    match e
    case CloseStart(k, _) => Quiet(s, s.open[k]) && (s.pc.Calling? ==> s.pc.conn != Some(k))
    case LastWqeReached(n) => Quiet(s, n)
    case _ => true
  }

  ghost predicate Orderly(s: State, es: seq<Event>)
    requires Play(s, es).Some?
    decreases |es|
  {
    es == [] || (RetiresQuietly(s, es[0]) && Orderly(Step(s, es[0]).value, es[1..]))
  }

  // ---------- Orderly runs ----------

  ghost predicate Live(s: State) {
    && (forall q :: Outstanding(s, q) ==> Answerable(s.reg, q))
    && CallOk(s)
  }

  ghost predicate CallOk(s: State) { s.pc.Calling? ==> s.pc.conn.Some? && s.pc.conn.value in s.open }

  /** Everything but the memory stays. */
  ghost predicate OnlyMem(s: State, s': State) { s' == s.(mem := s'.mem) }

  lemma OnlyMemStep(s: State, e: Event)
    requires Enabled(s, e) && Step(s, e).Some? && MovesChunksOnly(e)
    ensures OnlyMem(s, Step(s, e).value)
  {
  }

  ghost function Dropped(s: State, e: Event): seq<TxEntry>
    requires Enabled(s, e)
  {
    match e
    case BeaconDone(q) => Queue(s) + [Beacon(q, s.reg.qps[q].number)]
    case SendDone(q) => Queue(s) + [Sent(q, s.reg.qps[q].number)]
    case HandleTx => Queue(s)[1..]
    case DeleteQp => Purge(Queue(s), s.reg.batch[0])
    case _ => Queue(s)
  }

  lemma PolledQueue(s: State, n: nat)
    requires Enabled(s, PollTx(n))
    ensures Queue(Step(s, PollTx(n)).value) == Queue(s)
  {
    var s' := Step(s, PollTx(n)).value;
    if n == 0 { assert s'.txcq == s.txcq; } else { assert s.txcq[..n] + s.txcq[n..] == s.txcq; }
  }

  lemma TakenFromQueue(s: State, x: TxEntry)
    requires s.pc.HandlingTx? && s.pc.batch != []
    ensures Queue(HandleTxEntry(s, x, s.pc.batch[1..])) == s.pc.batch[1..] + s.txcq
  {
  }

  lemma HandledQueue(s: State)
    requires Enabled(s, HandleTx)
    ensures Queue(Step(s, HandleTx).value) == Queue(s)[1..]
  {
    TakenFromQueue(s, s.pc.batch[0]);
    assert (s.pc.batch + s.txcq)[1..] == s.pc.batch[1..] + s.txcq;
  }

  lemma DeletedQueue(s: State)
    requires Enabled(s, DeleteQp)
    ensures Queue(Step(s, DeleteQp).value) == Purge(Queue(s), s.reg.batch[0])
  {
    assert Queue(s) == s.txcq;
    assert Queue(Step(s, DeleteQp).value) == Purge(s.txcq, s.reg.batch[0]);
  }

  lemma ReceivedQueue(s: State, e: Event)
    requires Enabled(s, e) && e.PollRx? && Step(s, e).Some?
    ensures Queue(Step(s, e).value) == Queue(s)
  {
    PollRxStep(s, e);
  }

  lemma PollingQueue(s: State, e: Event)
    requires Enabled(s, e) && Step(s, e).Some? && ByPolling(e)
    ensures Queue(Step(s, e).value) == Dropped(s, e)
  {
    match e {
      case PollTx(n) => PolledQueue(s, n);
      case HandleTx => HandledQueue(s);
      case DeleteQp => DeletedQueue(s);
      case PollRx(_, _) => ReceivedQueue(s, e);
      case _ =>
    }
  }

  lemma OtherQueue(s: State, e: Event)
    requires Enabled(s, e) && Step(s, e).Some? && !ByPolling(e)
    ensures Queue(Step(s, e).value) == Dropped(s, e)
  {
    match e {
      case BeaconDone(q) => Concat(Unhandled(s.pc), s.txcq, [Beacon(q, s.reg.qps[q].number)]);
      case SendDone(q) => Concat(Unhandled(s.pc), s.txcq, [Sent(q, s.reg.qps[q].number)]);
      case _ =>
    }
  }

  lemma {:induction false} PurgeSent(xs: seq<TxEntry>, q: QpId, x: TxEntry)
    ensures x in Purge(xs, q) <==> x in xs && x.qp != q
  {
    if xs != [] {
      PurgeSent(xs[1..], q, x);
      assert xs == [xs[0]] + xs[1..];
    }
  }

  lemma SentInMember(xs: seq<TxEntry>, q: QpId)
    ensures SentIn(xs, q) <==> exists n: nat :: Sent(q, n) in xs
  {
    if SentIn(xs, q) {
      var i :| 0 <= i < |xs| && xs[i].Sent? && xs[i].qp == q;
      assert xs[i] == Sent(q, xs[i].number);
    }
  }

  /** Deleting a queue pair drops its own completions and no others. */
  lemma PurgeSentIn(xs: seq<TxEntry>, q0: QpId, q: QpId)
    ensures SentIn(Purge(xs, q0), q) <==> SentIn(xs, q) && q != q0
  {
    SentInMember(xs, q);
    SentInMember(Purge(xs, q0), q);
    forall n: nat
      ensures Sent(q, n) in Purge(xs, q0) <==> Sent(q, n) in xs && q != q0
    {
      PurgeSent(xs, q0, Sent(q, n));
    }
  }

  lemma TailSentIn(xs: seq<TxEntry>, q: QpId)
    requires xs != []
    ensures SentIn(xs, q) <==> SentIn(xs[1..], q) || (xs[0].Sent? && xs[0].qp == q)
  {
    SentInMember(xs, q);
    SentInMember(xs[1..], q);
    assert xs == [xs[0]] + xs[1..];
    if xs[0].Sent? && xs[0].qp == q { assert xs[0] == Sent(q, xs[0].number); }
  }

  lemma MoreSentIn(xs: seq<TxEntry>, x: TxEntry, q: QpId)
    ensures SentIn(xs + [x], q) <==> SentIn(xs, q) || (x.Sent? && x.qp == q)
  {
    if SentIn(xs, q) {
      var i :| 0 <= i < |xs| && xs[i].Sent? && xs[i].qp == q;
      assert (xs + [x])[i] == xs[i];
    }
    assert (xs + [x])[|xs|] == x;
  }

  lemma QueueStep(s: State, e: Event)
    requires Enabled(s, e) && Step(s, e).Some?
    ensures Queue(Step(s, e).value) == Dropped(s, e)
  {
    if ByPolling(e) { PollingQueue(s, e); } else { OtherQueue(s, e); }
  }

  lemma DroppedSent(s: State, e: Event, q: QpId)
    requires Enabled(s, e) && SentIn(Dropped(s, e), q)
    ensures SentIn(Queue(s), q) || e == SendDone(q)
    ensures e.DeleteQp? ==> q != s.reg.batch[0]
  {
    match e {
      case BeaconDone(q0) => MoreSentIn(Queue(s), Beacon(q0, s.reg.qps[q0].number), q);
      case SendDone(q0) => MoreSentIn(Queue(s), Sent(q0, s.reg.qps[q0].number), q);
      case HandleTx => TailSentIn(Queue(s), q);
      case DeleteQp => PurgeSentIn(Queue(s), s.reg.batch[0], q);
      case _ =>
    }
  }

  lemma PollingSends(s: State, e: Event)
    requires Enabled(s, e) && Step(s, e).Some? && ByPolling(e)
    ensures Step(s, e).value.sends == if e.DeleteQp? then s.sends[s.reg.batch[0] := 0] else s.sends
  {
    if e.PollRx? { PollRxStep(s, e); }
  }

  lemma OtherSends(s: State, e: Event, q: QpId)
    requires Enabled(s, e) && Step(s, e).Some? && !ByPolling(e) && q in Step(s, e).value.sends
    ensures q in s.sends || (e.PostSend? && q == s.reg.conns[s.open[e.sock]].qp)
  {
  }

  /** Only posting a send gives a queue pair one. */
  lemma OutstandingBefore(s: State, e: Event, q: QpId)
    requires Enabled(s, e) && Step(s, e).Some? && Outstanding(Step(s, e).value, q)
    ensures Outstanding(s, q) || (e.PostSend? && q == s.reg.conns[s.open[e.sock]].qp)
    ensures e.DeleteQp? ==> q != s.reg.batch[0]
  {
    if q in Step(s, e).value.sends {
      if ByPolling(e) { PollingSends(s, e); } else { OtherSends(s, e, q); }
    } else {
      QueueStep(s, e);
      DroppedSent(s, e, q);
    }
  }

  // ---------- Lookups ----------

  lemma EntryOf(r: Registry, q: QpId)
    requires RegistryInv(r) && q in r.qps && r.qps[q].number in r.conns
    ensures r.conns[r.qps[q].number].qp == q && !Dead(r, q)
  {
    assert Registered(r, q);
  }

  lemma EnqueueAnswers(r: Registry, n: nat, q: QpId)
    requires RegistryInv(r) && Answerable(r, q) && (n in r.conns ==> r.conns[n].qp != q)
    ensures Answerable(EnqueueDead(r, n), q)
  {
    EntryOf(r, q);
  }

  lemma ScheduleAnswers(r: Registry, n: nat, ok: bool, q: QpId)
    requires RegistryInv(r) && Answerable(r, q) && (n in r.conns ==> r.conns[n].qp != q)
    ensures Answerable(ScheduleDestroy(r, n, ok), q)
  {
    EntryOf(r, q);
    EnqueueAnswers(r, n, q);
  }

  lemma DeleteAnswers(r: Registry, q: QpId)
    requires RegistryInv(r) && Answerable(r, q) && r.batch != []
    ensures Answerable(DeleteFirst(r), q)
  {
    EntryOf(r, q);
    assert Dead(r, r.batch[0]);
  }

  /** A beacon concerns a dying queue pair, which no lookup finds. */
  lemma BeaconAnswers(s: State, q: QpId)
    requires RegistryInv(s.reg) && TxOk(s) && Enabled(s, HandleTx) && Answerable(s.reg, q)
    ensures Answerable(Step(s, HandleTx).value.reg, q)
  {
    var x := s.pc.batch[0];
    if x.Beacon? {
      assert BeaconOk(s.reg, x);
      if x.number in s.reg.conns { EntryOf(s.reg, x.qp); }
      EntryOf(s.reg, q);
      EnqueueAnswers(s.reg, x.number, q);
    }
  }

  lemma RegisterAnswers(r: Registry, q0: QpId, n: nat, k: SockId, q: QpId)
    requires RegistryInv(r) && FreshQp(r, q0, n) && Answerable(r, q)
    ensures Register(r, q0, n, k).Some? ==> Answerable(Register(r, q0, n, k).value, q)
  {
  }

  lemma CreateRegisters(s: State, e: Event)
    requires Enabled(s, e) && e.Create? && Step(s, e).Some?
    ensures var r', r1 := Step(s, e).value.reg, Register(s.reg, e.qp, e.number, e.sock); r' == s.reg || Some(r') == r1
  {
  }

  lemma CreateAnswers(s: State, e: Event, q: QpId)
    requires RegistryInv(s.reg) && Enabled(s, e) && e.Create? && Step(s, e).Some? && Answerable(s.reg, q)
    ensures Answerable(Step(s, e).value.reg, q)
  {
    CreateRegisters(s, e);
    RegisterAnswers(s.reg, e.qp, e.number, e.sock, q);
  }

  lemma RetireAnswers(s: State, e: Event, q: QpId)
    requires RegistryInv(s.reg) && Enabled(s, e) && (e.CloseStart? || e.LastWqeReached?)
    requires RetiresQuietly(s, e) && Answerable(s.reg, q) && Outstanding(s, q)
    ensures Answerable(Step(s, e).value.reg, q)
  {
    match e {
      case CloseStart(k, ok) => ScheduleAnswers(s.reg, s.open[k], ok, q);
      case LastWqeReached(n) => EnqueueAnswers(s.reg, n, q);
    }
  }

  ghost predicate ChangesBook(e: Event) {
    e.Create? || e.CloseStart? || e.LastWqeReached? || e.HandleTx? || e.SwapBatch? || e.DeleteQp?
  }

  lemma BookStays(s: State, e: Event)
    requires Enabled(s, e) && Step(s, e).Some? && !ChangesBook(e)
    ensures Step(s, e).value.reg == s.reg
  {
    if e.PollRx? { PollRxStep(s, e); }
  }

  lemma IdleAnswers(s: State, e: Event, q: QpId)
    requires RegistryInv(s.reg) && Enabled(s, e) && (e.SwapBatch? || e.DeleteQp?) && Answerable(s.reg, q)
    ensures Answerable(Step(s, e).value.reg, q)
  {
    if e.DeleteQp? { DeleteAnswers(s.reg, q); }
  }

  lemma PollingAnswers(s: State, e: Event, q: QpId)
    requires RegistryInv(s.reg) && TxOk(s) && (e.HandleTx? || e.SwapBatch? || e.DeleteQp?) && Enabled(s, e)
    requires Answerable(s.reg, q)
    ensures Answerable(Step(s, e).value.reg, q)
  {
    if e.HandleTx? { BeaconAnswers(s, q); } else { IdleAnswers(s, e, q); }
  }

  /** What is outstanding stays answerable when sockets retire quietly. */
  lemma AnswersAfter(s: State, e: Event, q: QpId)
    requires RegistryInv(s.reg) && TxOk(s) && Enabled(s, e) && Step(s, e).Some? && RetiresQuietly(s, e)
    requires Answerable(s.reg, q) && (Outstanding(s, q) || e.PostSend?)
    ensures Answerable(Step(s, e).value.reg, q)
  {
    if !ChangesBook(e) {
      BookStays(s, e);
    } else if e.Create? {
      CreateAnswers(s, e, q);
    } else if e.CloseStart? || e.LastWqeReached? {
      RetireAnswers(s, e, q);
    } else {
      PollingAnswers(s, e, q);
    }
  }

  // ---------- The socket about to be called ----------

  /** A socket found by a lookup is open. */
  lemma FoundIsOpen(s: State, n: nat)
    requires ConnsOpen(s.reg, s.open) && GetConn(s.reg, n).Some?
    ensures GetConn(s.reg, n).value in s.open
  {
  }

  lemma LooksUp(s: State)
    requires Inv(s) && Live(s) && Enabled(s, HandleTx)
    ensures CallOk(Step(s, HandleTx).value)
  {
    var x := s.pc.batch[0];
    if x.Sent? {
      assert BeaconOk(s.reg, x);
      assert Queue(s)[0] == x;
      assert SentIn(Queue(s), x.qp) && Outstanding(s, x.qp);
      FoundIsOpen(s, x.number);
    }
  }

  lemma CallingBefore(s: State, e: Event)
    requires Enabled(s, e) && Step(s, e).Some? && Step(s, e).value.pc.Calling? && !e.HandleTx?
    ensures Step(s, e).value.pc == s.pc
  {
    if !ByPolling(e) {
      PcStays(s, e);
    } else if e.PollRx? {
      PollRxStep(s, e);
    }
  }

  lemma OpenStays(s: State, e: Event, k: SockId)
    requires Enabled(s, e) && Step(s, e).Some? && k in s.open && !(e.CloseStart? && e.sock == k)
    ensures k in Step(s, e).value.open
  {
    if e.PollRx? { PollRxStep(s, e); }
  }

  lemma StaysOpen(s: State, e: Event)
    requires CallOk(s) && Enabled(s, e) && Step(s, e).Some? && RetiresQuietly(s, e) && !e.HandleTx?
    ensures CallOk(Step(s, e).value)
  {
    if Step(s, e).value.pc.Calling? {
      CallingBefore(s, e);
      OpenStays(s, e, s.pc.conn.value);
    }
  }

  lemma PostsAnswerable(s: State, e: Event)
    requires Inv(s) && Enabled(s, e) && e.PostSend?
    ensures Answerable(s.reg, s.reg.conns[s.open[e.sock]].qp)
  {
  }

  lemma LiveStep(s: State, e: Event)
    requires Inv(s) && Live(s) && Enabled(s, e) && Step(s, e).Some? && RetiresQuietly(s, e)
    ensures Live(Step(s, e).value)
  {
    var s' := Step(s, e).value;
    forall q | Outstanding(s', q)
      ensures Answerable(s'.reg, q)
    {
      OutstandingBefore(s, e, q);
      if e.PostSend? { PostsAnswerable(s, e); }
      AnswersAfter(s, e, q);
    }
    if e.HandleTx? { LooksUp(s); } else { StaysOpen(s, e); }
  }

  lemma {:induction false} OrderlyLive(s: State, es: seq<Event>)
    requires Inv(s) && Live(s) && Play(s, es).Some? && Orderly(s, es)
    ensures Inv(Play(s, es).value) && Live(Play(s, es).value)
    decreases |es|
  {
    if es != [] {
      StepOrCrash(s, es[0]);
      StepInv(s, es[0]);
      LiveStep(s, es[0]);
      OrderlyLive(Step(s, es[0]).value, es[1..]);
    }
  }

  lemma FreshLive()
    ensures Inv(Fresh) && Live(Fresh)
  {
    FreshInv();
    assert Queue(Fresh) == [];
  }

  /** Main result: in a run whose sockets retire quietly, no send completion is handed to a socket that
      is not there. */
  lemma OrderlyNeverFails(es: seq<Event>)
    requires Play(Fresh, es).Some? && Orderly(Fresh, es)
    ensures !CallFails(Play(Fresh, es).value)
  {
    FreshLive();
    OrderlyLive(Fresh, es);
  }

  // ---------- A close that is not quiet ----------

  /** A completion that does not stop the polling thread, unless it is one of `q`'s. */
  ghost predicate Passes(r: Registry, x: TxEntry, q: QpId) {
    if x.Sent? then x.qp == q || Answerable(r, x.qp) else x.qp != q
  }

  /** Queue pair `q` is dying, one of its completions is waiting, and none before it is in the way. */
  ghost predicate Doomed(s: State, q: QpId) {
    && Inv(s) && !s.done && CallOk(s) && Dying(s.reg, q)
    && SentIn(Queue(s), q) && forall x :: x in Queue(s) ==> Passes(s.reg, x, q)
  }

  ghost predicate Dying(r: Registry, q: QpId) {
    Registered(r, q) && r.qps[q].dying
  }

  /** What the polling thread does next, left alone. */
  ghost function Next(s: State): Event {
    match s.pc
    case PollingTx => PollTx(if |s.txcq| < MAX_COMPLETIONS then |s.txcq| else MAX_COMPLETIONS)
    case HandlingTx(_) => HandleTx
    case Calling(_, _) => CallTx
    case PollingRx =>
      var n := if |s.mem.rxcq| < MAX_COMPLETIONS then |s.mem.rxcq| else MAX_COMPLETIONS;
      PollRx(n, seq(n, i => None))
    case Idle => SwapBatch
    case Deleting => DeleteQp
    case Checking => ReadCount
    case CountZero(_) => ReadStop
    case _ => ReadDead
  }

  ghost function Stage(pc: Pc): nat {
    match pc
    case Calling(_, _) => 7
    case PollingRx => 6
    case Idle => 5
    case Deleting => 4
    case Checking => 3
    case CountZero(_) => 2
    case PollingTx => 1
    case _ => 0
  }

  ghost predicate AtIts(s: State, q: QpId) {
    s.pc.HandlingTx? && s.pc.batch != [] && s.pc.batch[0].Sent? && s.pc.batch[0].qp == q
  }

  lemma DeletableFirst(s: State)
    requires Inv(s) && s.pc == Deleting
    ensures s.reg.batch != [] && s.reg.batch[0] in s.mem.rq
  {
    assert Dead(s.reg, s.reg.batch[0]);
  }

  lemma NotEnded(s: State, q: QpId)
    requires Doomed(s, q)
    ensures !s.pc.DoneSeen? && !s.pc.Exited? && (s.pc.HandlingTx? ==> s.pc.batch != [])
    ensures s.pc == Deleting ==> s.reg.batch != [] && s.reg.batch[0] in s.mem.rq
  {
    if s.pc == Deleting { DeletableFirst(s); }
  }

  lemma NextEnabled(s: State)
    requires CallOk(s) && !s.pc.DoneSeen? && !s.pc.Exited? && (s.pc.HandlingTx? ==> s.pc.batch != [])
    requires s.pc == Deleting ==> s.reg.batch != [] && s.reg.batch[0] in s.mem.rq
    ensures Enabled(s, Next(s)) && ByPolling(Next(s)) && !Crashes(s, Next(s))
  {
  }

  lemma IdleLeaves(s: State, e: Event, q: QpId)
    requires RegistryInv(s.reg) && Dying(s.reg, q) && Enabled(s, e) && (e.SwapBatch? || e.DeleteQp?)
    ensures Dying(Step(s, e).value.reg, q)
  {
    if e.DeleteQp? { assert Dead(s.reg, s.reg.batch[0]); }
  }

  lemma DyingStays(s: State, e: Event, q: QpId)
    requires RegistryInv(s.reg) && TxOk(s) && Dying(s.reg, q) && Enabled(s, e) && Step(s, e).Some? && ByPolling(e)
    requires e.HandleTx? ==> s.pc.batch[0].Sent? || s.pc.batch[0].qp != q
    ensures Dying(Step(s, e).value.reg, q)
  {
    if !ChangesBook(e) {
      BookStays(s, e);
    } else if e.HandleTx? {
      BeaconLeaves(s, q);
    } else {
      IdleLeaves(s, e, q);
    }
  }

  lemma BeaconLeaves(s: State, q: QpId)
    requires RegistryInv(s.reg) && TxOk(s) && Dying(s.reg, q) && Enabled(s, HandleTx)
    requires s.pc.batch[0].Sent? || s.pc.batch[0].qp != q
    ensures Dying(Step(s, HandleTx).value.reg, q)
  {
    assert BeaconOk(s.reg, s.pc.batch[0]);
  }

  lemma DroppedMembers(s: State, e: Event, x: TxEntry)
    requires Enabled(s, e) && ByPolling(e) && x in Dropped(s, e)
    ensures x in Queue(s)
  {
    if e.DeleteQp? { PurgeSent(Queue(s), s.reg.batch[0], x); }
  }

  lemma AnswersStay(s: State, e: Event, q: QpId)
    requires RegistryInv(s.reg) && TxOk(s) && Enabled(s, e) && Step(s, e).Some? && ByPolling(e) && Answerable(s.reg, q)
    ensures Answerable(Step(s, e).value.reg, q)
  {
    if ChangesBook(e) { PollingAnswers(s, e, q); } else { BookStays(s, e); }
  }

  lemma PassesAfter(s: State, e: Event, q: QpId)
    requires Doomed(s, q) && Enabled(s, e) && Step(s, e).Some? && ByPolling(e)
    ensures forall x :: x in Dropped(s, e) ==> Passes(Step(s, e).value.reg, x, q)
  {
    forall x | x in Dropped(s, e)
      ensures Passes(Step(s, e).value.reg, x, q)
    {
      DroppedMembers(s, e, x);
      assert Passes(s.reg, x, q);
      if x.Sent? && x.qp != q { AnswersStay(s, e, x.qp); }
    }
  }

  lemma DeletesOther(r: Registry, q: QpId)
    requires RegistryInv(r) && Registered(r, q) && r.batch != []
    ensures q != r.batch[0]
  {
    assert Dead(r, r.batch[0]);
  }

  lemma WaitsAfter(s: State, e: Event, q: QpId)
    requires RegistryInv(s.reg) && Dying(s.reg, q) && SentIn(Queue(s), q)
    requires Enabled(s, e) && ByPolling(e) && !(e.HandleTx? && AtIts(s, q))
    ensures SentIn(Dropped(s, e), q)
  {
    match e {
      case HandleTx => TailSentIn(Queue(s), q);
      case DeleteQp =>
        PurgeSentIn(Queue(s), s.reg.batch[0], q);
        DeletesOther(s.reg, q);
      case _ =>
    }
  }

  /** Looking up a socket for a completion of another queue pair. */
  lemma LooksUpOther(s: State, q: QpId)
    requires Doomed(s, q) && Enabled(s, HandleTx) && !AtIts(s, q)
    ensures CallOk(Step(s, HandleTx).value)
  {
    var x := s.pc.batch[0];
    assert Queue(s)[0] == x && x in Queue(s);
    assert Passes(s.reg, x, q);
    if x.Sent? {
      assert BeaconOk(s.reg, x);
      FoundIsOpen(s, x.number);
    }
  }

  lemma DoneStays(s: State, e: Event)
    requires Enabled(s, e) && Step(s, e).Some? && ByPolling(e)
    ensures Step(s, e).value.done == s.done
  {
    if e.PollRx? { PollRxStep(s, e); }
  }

  lemma DoomedStep(s: State, e: Event, q: QpId)
    requires Doomed(s, q) && Enabled(s, e) && ByPolling(e) && !Crashes(s, e) && !(e.HandleTx? && AtIts(s, q))
    ensures Step(s, e).Some? && Doomed(Step(s, e).value, q)
  {
    StepInv(s, e);
    QueueStep(s, e);
    WaitsAfter(s, e, q);
    PassesAfter(s, e, q);
    DoneStays(s, e);
    if e.HandleTx? {
      LooksUpOther(s, q);
      assert s.pc.batch[0] in Queue(s) by { assert Queue(s)[0] == s.pc.batch[0]; }
    } else {
      StaysOpen(s, e);
    }
    DyingStays(s, e, q);
  }

  lemma {:induction false} PurgeShrinks(xs: seq<TxEntry>, q: QpId)
    ensures |Purge(xs, q)| <= |xs|
  {
    if xs != [] { PurgeShrinks(xs[1..], q); }
  }

  ghost predicate Nearer(s': State, s: State) {
    || |Queue(s')| < |Queue(s)|
    || (|Queue(s')| == |Queue(s)| && Stage(s'.pc) < Stage(s.pc))
    || (|Queue(s')| == |Queue(s)| && Stage(s'.pc) == Stage(s.pc) && |s'.reg.batch| < |s.reg.batch|)
  }

  lemma StageFalls(s: State)
    requires Enabled(s, Next(s)) && Step(s, Next(s)).Some?
    requires !s.pc.HandlingTx? && s.pc != Deleting && !s.pc.DoneSeen? && !s.pc.Exited? && s.pc != PollingRx
    requires (s.pc == PollingTx ==> s.txcq != []) && (s.pc == Checking ==> s.reg.count != 0) && !s.done
    ensures Stage(Step(s, Next(s)).value.pc) < Stage(s.pc)
  {
  }

  lemma ReceivedNearer(s: State)
    requires s.pc == PollingRx && Enabled(s, Next(s)) && Step(s, Next(s)).Some?
    ensures Stage(Step(s, Next(s)).value.pc) < Stage(s.pc)
  {
    PollRxStep(s, Next(s));
  }

  lemma DeletedNearer(s: State)
    requires s.pc == Deleting && Enabled(s, DeleteQp)
    ensures Nearer(Step(s, DeleteQp).value, s)
  {
    DeletedQueue(s);
    PurgeShrinks(Queue(s), s.reg.batch[0]);
  }

  lemma HandledNearer(s: State)
    requires Enabled(s, HandleTx)
    ensures Nearer(Step(s, HandleTx).value, s)
  {
    HandledQueue(s);
  }

  /** The polling thread has something to poll and cannot end. */
  lemma DoomedWaits(s: State, q: QpId)
    requires Doomed(s, q)
    ensures (s.pc == PollingTx ==> s.txcq != []) && s.reg.count != 0
  {
    assert s.reg.conns != map[];
    assert s.pc == PollingTx ==> Queue(s) == s.txcq;
  }

  lemma OtherNearer(s: State)
    requires Enabled(s, Next(s)) && Step(s, Next(s)).Some?
    requires !s.pc.HandlingTx? && s.pc != Deleting && !s.pc.DoneSeen? && !s.pc.Exited?
    requires (s.pc == PollingTx ==> s.txcq != []) && s.reg.count != 0 && !s.done
    ensures Nearer(Step(s, Next(s)).value, s)
  {
    QueueStep(s, Next(s));
    if s.pc == PollingRx { ReceivedNearer(s); } else { StageFalls(s); }
  }

  /** Every step brings the polling thread nearer to the completion. */
  lemma NextNearer(s: State)
    requires Enabled(s, Next(s)) && Step(s, Next(s)).Some? && !s.pc.DoneSeen? && !s.pc.Exited?
    requires (s.pc == PollingTx ==> s.txcq != []) && s.reg.count != 0 && !s.done
    ensures Nearer(Step(s, Next(s)).value, s)
  {
    if s.pc.HandlingTx? {
      HandledNearer(s);
    } else if s.pc == Deleting {
      DeletedNearer(s);
    } else {
      OtherNearer(s);
    }
  }

  /** A lookup for the dying queue pair finds no socket. */
  lemma LooksUpNone(s: State, q: QpId)
    requires Doomed(s, q) && AtIts(s, q)
    ensures Enabled(s, HandleTx) && CallFails(Step(s, HandleTx).value)
  {
    assert BeaconOk(s.reg, s.pc.batch[0]);
  }

  lemma PlayFirst(s: State, e: Event, es: seq<Event>)
    requires Enabled(s, e) && Step(s, e).Some? && RetiresQuietly(s, e)
    requires Play(Step(s, e).value, es).Some? && Orderly(Step(s, e).value, es)
    ensures Play(s, [e] + es) == Play(Step(s, e).value, es) && Orderly(s, [e] + es)
  {
    assert ([e] + es)[1..] == es;
  }

  /** Left alone, the polling thread comes to the completion and calls nothing. */
  lemma {:induction false} DoomedFails(s: State, q: QpId) returns (es: seq<Event>)
    requires Doomed(s, q)
    ensures Play(s, es).Some? && Orderly(s, es) && CallFails(Play(s, es).value)
    decreases |Queue(s)|, Stage(s.pc), |s.reg.batch|
  {
    if AtIts(s, q) {
      LooksUpNone(s, q);
      PlayFirst(s, HandleTx, []);
      es := [HandleTx] + [];
    } else {
      var e := Next(s);
      NotEnded(s, q);
      NextEnabled(s);
      DoomedStep(s, e, q);
      DoomedWaits(s, q);
      NextNearer(s);
      var rest := DoomedFails(Step(s, e).value, q);
      PlayFirst(s, e, rest);
      es := [e] + rest;
    }
  }

  /** A socket that closes while it is about to be called. */
  ghost predicate CalledClosing(s: State, k: SockId) {
    Inv(s) && k in s.closing && s.pc.Calling? && s.pc.conn == Some(k) && s.mem.socks[k].cqe == []
  }

  ghost function NextClose(s: State, k: SockId): Event
    requires k in s.mem.socks
  {
    if s.mem.socks[k].wc != [] then CloseWc(k) else if s.mem.socks[k].buffers != [] then CloseBuffer(k) else CloseEnd(k)
  }

  lemma ReturnShrinks(m: Memory, k: SockId)
    requires k in m.socks
    ensures m.socks[k].wc != [] && ReturnWc(m, k).Some? ==>
              ReturnWc(m, k).value.socks == m.socks[k := m.socks[k].(wc := m.socks[k].wc[1..])]
    ensures m.socks[k].buffers != [] && ReturnBuffer(m, k).Some? ==>
              ReturnBuffer(m, k).value.socks == m.socks[k := m.socks[k].(buffers := m.socks[k].buffers[1..])]
  {
  }

  ghost function Held(m: Memory, k: SockId): nat
    requires k in m.socks
  {
    |m.socks[k].wc| + |m.socks[k].buffers|
  }

  lemma ListsShrink(s: State, e: Event)
    requires Enabled(s, e) && (e.CloseWc? || e.CloseBuffer?) && Step(s, e).Some?
    ensures var s' := Step(s, e).value;
            && s' == s.(mem := s'.mem) && e.sock in s'.mem.socks && s'.mem.socks[e.sock].cqe == s.mem.socks[e.sock].cqe
            && Held(s'.mem, e.sock) < Held(s.mem, e.sock)
  {
    ReturnShrinks(s.mem, e.sock);
  }

  lemma EndFails(s: State, k: SockId)
    requires CalledClosing(s, k) && NextClose(s, k).CloseEnd?
    ensures Enabled(s, CloseEnd(k)) && Step(s, CloseEnd(k)).Some? && CallFails(Step(s, CloseEnd(k)).value)
  {
  }

  lemma {:induction false} ClosingFails(s: State, k: SockId) returns (es: seq<Event>)
    requires CalledClosing(s, k)
    ensures Play(s, es).Some? && Orderly(s, es) && CallFails(Play(s, es).value)
    decreases Held(s.mem, k)
  {
    var e := NextClose(s, k);
    if e.CloseEnd? {
      EndFails(s, k);
      PlayFirst(s, e, []);
      es := [e] + [];
    } else {
      StepInv(s, e);
      ListsShrink(s, e);
      var rest := ClosingFails(Step(s, e).value, k);
      PlayFirst(s, e, rest);
      es := [e] + rest;
    }
  }

  // ---------- Exactly the quiet closes are safe ----------

  /** However the run goes on with sockets that retire quietly, no call of a socket fails. */
  ghost predicate SafeFrom(s: State) {
    forall es :: Play(s, es).Some? && Orderly(s, es) ==> !CallFails(Play(s, es).value)
  }

  lemma LiveIsSafe(s: State)
    requires Inv(s) && Live(s)
    ensures SafeFrom(s)
  {
    forall es | Play(s, es).Some? && Orderly(s, es)
      ensures !CallFails(Play(s, es).value)
    {
      OrderlyLive(s, es);
    }
  }

  lemma CloseKills(r: Registry, n: nat)
    requires RegistryInv(r) && n in r.conns
    ensures Dying(ScheduleDestroy(r, n, true), r.conns[n].qp)
  {
  }

  /** The other completions still find their sockets when the queue pair of number `n` begins to die. */
  lemma OthersPass(s: State, n: nat, x: TxEntry)
    requires RegistryInv(s.reg) && TxOk(s) && Live(s) && n in s.reg.conns && Outstanding(s, s.reg.conns[n].qp) && x in Queue(s)
    ensures Passes(ScheduleDestroy(s.reg, n, true), x, s.reg.conns[n].qp)
  {
    assert BeaconOk(s.reg, x);
    if x.Beacon? {
      assert Answerable(s.reg, s.reg.conns[n].qp);
    } else if x.qp != s.reg.conns[n].qp {
      SentInMember(Queue(s), x.qp);
      assert Sent(x.qp, x.number) in Queue(s);
      ScheduleAnswers(s.reg, n, true, x.qp);
    }
  }

  /** The state after the close, but for the completion itself. */
  ghost predicate AlmostDoomed(s: State, q: QpId) {
    && Inv(s) && !s.done && CallOk(s) && Dying(s.reg, q)
    && Outstanding(s, q) && forall x :: x in Queue(s) ==> Passes(s.reg, x, q)
  }

  lemma CloseFrame(s: State, k: SockId)
    requires Enabled(s, CloseStart(k, true))
    ensures var s1 := Step(s, CloseStart(k, true)).value;
            && s1.reg == ScheduleDestroy(s.reg, s.open[k], true) && Queue(s1) == Queue(s) && s1.sends == s.sends
            && s1.done == s.done && s1.pc == s.pc && s1.mem == s.mem && k in s1.closing
  {
  }

  lemma CloseDooms(s: State, k: SockId)
    requires Inv(s) && Live(s) && Enabled(s, CloseStart(k, true)) && s.open[k] in s.reg.conns
    requires Outstanding(s, s.reg.conns[s.open[k]].qp) && (s.pc.Calling? ==> s.pc.conn != Some(k))
    ensures AlmostDoomed(Step(s, CloseStart(k, true)).value, s.reg.conns[s.open[k]].qp)
  {
    var e, n := CloseStart(k, true), s.open[k];
    var s1 := Step(s, e).value;
    StepInv(s, e);
    CloseFrame(s, k);
    CloseKills(s.reg, n);
    forall x | x in Queue(s1)
      ensures Passes(s1.reg, x, s.reg.conns[n].qp)
    {
      OthersPass(s, n, x);
    }
    OpenAfterClose(s, k);
  }

  lemma OpenAfterClose(s: State, k: SockId)
    requires CallOk(s) && Enabled(s, CloseStart(k, true)) && (s.pc.Calling? ==> s.pc.conn != Some(k))
    ensures CallOk(Step(s, CloseStart(k, true)).value)
  {
  }

  lemma SendFrame(s: State, q: QpId)
    requires Enabled(s, SendDone(q))
    ensures var s' := Step(s, SendDone(q)).value;
            && s'.reg == s.reg && s'.pc == s.pc && s'.open == s.open && s'.done == s.done
            && Queue(s') == Queue(s) + [Sent(q, s.reg.qps[q].number)]
  {
    QueueStep(s, SendDone(q));
  }

  /** The hardware completes the send. */
  lemma SendDooms(s: State, q: QpId)
    requires AlmostDoomed(s, q) && q in s.sends
    ensures Enabled(s, SendDone(q)) && Step(s, SendDone(q)).Some? && Doomed(Step(s, SendDone(q)).value, q)
  {
    var x := Sent(q, s.reg.qps[q].number);
    StepInv(s, SendDone(q));
    SendFrame(s, q);
    MoreSentIn(Queue(s), x, q);
    assert forall y :: y in Queue(s) + [x] ==> y in Queue(s) || y == x;
  }

  lemma AlmostDoomedFails(s: State, q: QpId) returns (es: seq<Event>)
    requires AlmostDoomed(s, q)
    ensures Play(s, es).Some? && Orderly(s, es) && CallFails(Play(s, es).value)
  {
    if SentIn(Queue(s), q) {
      es := DoomedFails(s, q);
    } else {
      SendDooms(s, q);
      var rest := DoomedFails(Step(s, SendDone(q)).value, q);
      PlayFirst(s, SendDone(q), rest);
      es := [SendDone(q)] + rest;
    }
  }

  /** A close that is not quiet can be followed by a failing call, whatever else is orderly. */
  lemma UnquietFails(s: State, k: SockId)
    requires Inv(s) && Live(s) && Enabled(s, CloseStart(k, true)) && !RetiresQuietly(s, CloseStart(k, true))
    ensures !SafeFrom(Step(s, CloseStart(k, true)).value)
  {
    var s1 := Step(s, CloseStart(k, true)).value;
    var es;
    if s.pc.Calling? && s.pc.conn == Some(k) {
      StepInv(s, CloseStart(k, true));
      CloseFrame(s, k);
      es := ClosingFails(s1, k);
    } else {
      CloseDooms(s, k);
      es := AlmostDoomedFails(s1, s.reg.conns[s.open[k]].qp);
    }
  }

  /** One close: it is safe exactly if it is quiet. */
  lemma CloseSafeIff(es: seq<Event>, k: SockId)
    requires Play(Fresh, es).Some? && Orderly(Fresh, es) && Enabled(Play(Fresh, es).value, CloseStart(k, true))
    ensures var s, e := Play(Fresh, es).value, CloseStart(k, true);
            Step(s, e).Some? && (SafeFrom(Step(s, e).value) <==> RetiresQuietly(s, e))
  {
    var s, e := Play(Fresh, es).value, CloseStart(k, true);
    FreshLive();
    OrderlyLive(Fresh, es);
    StepInv(s, e);
    if RetiresQuietly(s, e) {
      LiveStep(s, e);
      LiveIsSafe(Step(s, e).value);
    } else {
      UnquietFails(s, k);
    }
  }

  /** Every queue pair accepts its error transition, and none is declared dead by the hardware. */
  ghost predicate NoFaults(es: seq<Event>) {
    forall e :: e in es ==> !e.LastWqeReached? && (e.CloseStart? ==> e.ok)
  }

  /** Safe at each of its states. */
  ghost predicate SafeAlong(s: State, es: seq<Event>)
    requires Play(s, es).Some?
    decreases |es|
  {
    SafeFrom(s) && (es == [] || SafeAlong(Step(s, es[0]).value, es[1..]))
  }

  lemma {:induction false} OrderlyIffSafe(s: State, es: seq<Event>)
    requires Inv(s) && Live(s) && Play(s, es).Some? && NoFaults(es)
    ensures Orderly(s, es) <==> SafeAlong(s, es)
    decreases |es|
  {
    LiveIsSafe(s);
    if es != [] {
      StepOrCrash(s, es[0]);
      StepInv(s, es[0]);
      assert es[0] in es;
      if RetiresQuietly(s, es[0]) {
        LiveStep(s, es[0]);
        OrderlyIffSafe(Step(s, es[0]).value, es[1..]);
      } else {
        UnquietFails(s, es[0].sock);
      }
    }
  }

  /** Main result: in a run without hardware faults the calls of sockets are safe throughout if and only if
      every socket closes with none of its send completions unpolled, unhandled or about to be called. */
  lemma SafeIffOrderly(es: seq<Event>)
    requires Play(Fresh, es).Some? && NoFaults(es)
    ensures SafeAlong(Fresh, es) <==> Orderly(Fresh, es)
  {
    FreshLive();
    OrderlyIffSafe(Fresh, es);
  }

  // ---------- The idle branch ----------

  /** Event `e` leads from `s` to `s'`. */
  ghost predicate Leads(s: State, e: Event, s': State) { Enabled(s, e) && Step(s, e) == Some(s') }

  lemma DeletesOne(s: State) returns (s': State)
    requires Inv(s) && s.pc == Deleting
    ensures Leads(s, DeleteQp, s') && Inv(s') && s'.reg == DeleteFirst(s.reg)
    ensures s'.pc == if |s.reg.batch| == 1 then Checking else Deleting
  {
    DeletableFirst(s);
    StepInv(s, DeleteQp);
    s' := Step(s, DeleteQp).value;
  }

  lemma PlayLeads(s: State, e: Event, s1: State, es: seq<Event>, s': State)
    requires Leads(s, e, s1) && Play(s1, es) == Some(s')
    ensures Play(s, [e] + es) == Some(s')
  {
    assert ([e] + es)[1..] == es;
  }

  /** The dead list is as it was, and all of `batch` has been deleted, in order. */
  ghost predicate BatchDeleted(r: Registry, r': Registry, batch: seq<QpId>) {
    r'.deletions == r.deletions + batch && r'.dead == r.dead
  }

  lemma BatchOneMore(r: Registry, r': Registry)
    requires r.batch != [] && BatchDeleted(DeleteFirst(r), r', r.batch[1..])
    ensures BatchDeleted(r, r', r.batch)
  {
    assert r.batch == [r.batch[0]] + r.batch[1..];
    Concat(r.deletions, [r.batch[0]], r.batch[1..]);
  }

  lemma {:induction false} DeletesBatch(s: State) returns (es: seq<Event>, s': State)
    requires Inv(s) && s.pc == Deleting
    ensures Play(s, es) == Some(s') && s'.pc == Checking && BatchDeleted(s.reg, s'.reg, s.reg.batch)
    ensures forall e :: e in es ==> e == DeleteQp
    decreases |s.reg.batch|
  {
    var s1 := DeletesOne(s);
    es, s' := [], s1;
    if s1.pc == Checking { LastOfBatch(s.reg); } else { es, s' := DeletesBatch(s1); }
    PlayLeads(s, DeleteQp, s1, es, s');
    es := [DeleteQp] + es;
    BatchOneMore(s.reg, s'.reg);
  }

  lemma LastOfBatch(r: Registry)
    requires |r.batch| == 1
    ensures BatchDeleted(DeleteFirst(r), DeleteFirst(r), r.batch[1..])
  {
    assert r.batch[1..] == [];
    assert DeleteFirst(r).deletions + [] == DeleteFirst(r).deletions;
  }

  lemma Swaps(s: State) returns (s': State)
    requires Inv(s) && s.pc == Idle
    ensures Leads(s, SwapBatch, s') && Inv(s') && s'.reg == SwapDead(s.reg)
    ensures s'.pc == if s.reg.dead == [] then Checking else Deleting
  {
    StepInv(s, SwapBatch);
    s' := Step(s, SwapBatch).value;
    assert s.reg.batch == [];
  }

  /** Left alone in its idle branch, the polling thread deletes exactly the queue pairs that were dead, in order. */
  lemma IdleDeletesAll(s: State) returns (es: seq<Event>, s': State)
    requires Inv(s) && s.pc == Idle
    ensures Play(s, es) == Some(s') && forall e :: e in es ==> e == SwapBatch || e == DeleteQp
    ensures s'.pc == Checking && s'.reg.dead == [] && s'.reg.deletions == s.reg.deletions + s.reg.dead
  {
    var s1 := Swaps(s);
    es, s' := [], s1;
    if s1.pc == Deleting { es, s' := DeletesBatch(s1); }
    PlayLeads(s, SwapBatch, s1, es, s');
    es := [SwapBatch] + es;
  }
}
