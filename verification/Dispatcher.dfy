/** The dispatcher as a whole: its polling thread, the sockets' threads and the hardware,
    interleaved in every order. */
module Dispatcher {
  import opened Common
  import opened QpRegistry
  import opened RxMemory

  /** A send completion: the beacon of a dying queue pair, or an ordinary one. */
  datatype TxEntry = Beacon(qp: QpId, number: nat) | Sent(qp: QpId, number: nat)

  /** Where the polling thread is in its loop. `Calling` holds the socket it has looked up and not yet
      called; after the exit test's first read, `at` is how many queue pairs had been registered then. */
  datatype Pc =
    | PollingTx | HandlingTx(batch: seq<TxEntry>) | Calling(conn: Option<SockId>, rest: seq<TxEntry>)
    | PollingRx | Idle | Deleting
    | Checking | CountZero(at: nat) | DoneSeen(at: nat) | Exited(at: nat)

  /** `txRet` and `rxRet` are the polling loop's local results; `open` gives each live socket's
      queue pair number; `closing` are sockets whose destructor has started and `gone` those whose has
      ended; `sends` are posted and not completed, `posted` the beacons; `registered` counts
      registrations. */
  datatype State = State(
    reg: Registry, mem: Memory, open: map<SockId, nat>, closing: set<SockId>, gone: set<SockId>,
    posted: set<QpId>, sends: multiset<QpId>, txcq: seq<TxEntry>, pc: Pc, txRet: nat, rxRet: nat,
    done: bool, registered: nat)

  const MAX_COMPLETIONS: nat := 8

  const Fresh := State(NoQps, NoMemory, map[], {}, {}, {}, multiset{}, [], PollingTx, 0, 0, false, 0)

  datatype Event =
    // hardware and memory
    | GrowPool(chunk: Chunk)
    | Receive(qp: QpId, chunk: Chunk, len: nat)
    | BeaconDone(qp: QpId)
    | SendDone(qp: QpId)
    // socket threads
    | Create(sock: SockId, qp: QpId, number: nat, want: nat, chunks: seq<Chunk>)
    | PostSend(sock: SockId)
    | Fetch(sock: SockId)
    | Prefetch(sock: SockId)
    | Drain(sock: SockId)
    | ReadData(sock: SockId, n: nat)
    | CloseStart(sock: SockId, ok: bool)
    | CloseWc(sock: SockId)
    | CloseBuffer(sock: SockId)
    | CloseEnd(sock: SockId)
    | LastWqeReached(number: nat)
    | Stop
    // polling thread
    | PollTx(n: nat)
    | HandleTx
    | CallTx
    | PollRx(n: nat, spares: seq<Option<Chunk>>)
    | SwapBatch
    | DeleteQp
    | ReadCount
    | ReadStop
    | ReadDead

  ghost predicate Enabled(s: State, e: Event) {
    match e
    case GrowPool(c) => c !in s.mem.owner
    case Receive(q, c, _) => q in s.mem.rq && c in s.mem.rq[q] && NotCompleted(s.mem, c)
    case BeaconDone(q) => q in s.posted && q in s.reg.qps
    case SendDone(q) => q in s.sends && q in s.reg.qps
    case Create(k, q, n, want, cs) =>
      && HandsOut(s.mem.pool, want, cs) && !s.done
      && k !in s.open && k !in s.closing && k !in s.gone && FreshQp(s.reg, q, n)
    case PostSend(k) => k in s.open && GetConn(s.reg, s.open[k]) == Some(k)
    case Fetch(k) => k in s.open && k in s.mem.socks && s.mem.socks[k].cqe == [] && s.mem.socks[k].wc != []
    case Prefetch(k) => k in s.open && k in s.mem.socks && s.mem.socks[k].cqe != []
    case Drain(k) => k in s.open && k in s.mem.socks && s.mem.socks[k].cqe != []
    case ReadData(k, _) => k in s.open && k in s.mem.socks && s.mem.socks[k].cqe == []
    case CloseStart(k, _) => k in s.open && k in s.mem.socks && s.mem.socks[k].cqe == []
    case CloseWc(k) => k in s.closing && k in s.mem.socks && s.mem.socks[k].wc != []
    case CloseBuffer(k) => k in s.closing && k in s.mem.socks && s.mem.socks[k].wc == [] && s.mem.socks[k].buffers != []
    case CloseEnd(k) => k in s.closing && k in s.mem.socks && s.mem.socks[k] == Lists([], [], [])
    case LastWqeReached(_) => true
    case Stop => s.open == map[] && s.closing == {}
    case PollTx(n) => s.pc == PollingTx && Polls(n, |s.txcq|)
    case HandleTx => s.pc.HandlingTx? && s.pc.batch != []
    case PollRx(n, sp) => s.pc == PollingRx && Polls(n, |s.mem.rxcq|) && |sp| == n
    case SwapBatch => s.pc == Idle
    case DeleteQp => s.pc == Deleting && s.reg.batch != [] && s.reg.batch[0] in s.mem.rq
    case CallTx => s.pc.Calling?
    case ReadCount => s.pc == Checking
    case ReadStop => s.pc.CountZero?
    case ReadDead => s.pc.DoneSeen?
  }

  /** The pool gives what is asked for, or all it has. */
  ghost predicate HandsOut(pool: multiset<Chunk>, want: nat, cs: seq<Chunk>) {
    |cs| <= want && multiset(cs) <= pool && (|cs| < want ==> multiset(cs) == pool)
  }

  /** A poll returns nothing exactly when the queue is empty. */
  ghost predicate Polls(n: nat, queued: nat) {
    n <= queued && n <= MAX_COMPLETIONS && (n == 0 <==> queued == 0)
  }

  /** One polled receive: back to the pool if no live socket is behind the number. */
  ghost function HandleRx(r: Registry, m: Memory, x: Completion, spare: Option<Chunk>): Option<Memory> {
    var conn := if x.qp in r.qps then GetConn(r, r.qps[x.qp].number) else None;
    match conn
    case None => Recall(m, x.chunk)
    case Some(k) => PassToSocket(m, x, k, spare)
  }

  ghost function HandleRxAll(r: Registry, m: Memory, sp: seq<Option<Chunk>>): Option<Memory>
    requires |sp| <= |m.rxcq|
    decreases |sp|
  {
    if sp == [] then Some(m)
    else
      match HandleRx(r, m.(rxcq := m.rxcq[1..]), m.rxcq[0], sp[0])
      case None => None
      case Some(m1) => if |sp| - 1 <= |m1.rxcq| then HandleRxAll(r, m1, sp[1..]) else None
  }

  /** What the loop over a polled batch goes on with. */
  ghost function Onto(rest: seq<TxEntry>): Pc { if rest == [] then PollingRx else HandlingTx(rest) }

  /** One polled send: a beacon makes its queue pair dead; the socket of an ordinary one is looked up,
      without the lock, to be called in a step of its own. */
  ghost function HandleTxEntry(s: State, x: TxEntry, rest: seq<TxEntry>): State {
    match x
    case Beacon(_, number) => s.(reg := EnqueueDead(s.reg, number), pc := Onto(rest))
    case Sent(_, number) => s.(pc := Calling(GetConn(s.reg, number), rest))
  }

  ghost predicate Exists(s: State, k: SockId) { k in s.open || k in s.closing }

  ghost function Purge(xs: seq<TxEntry>, q: QpId): seq<TxEntry> {
    if xs == [] then [] else if xs[0].qp == q then Purge(xs[1..], q) else [xs[0]] + Purge(xs[1..], q)
  }

  /** A new queue pair and socket with empty lists, and the first receives posted. */
  ghost function CreateMemory(m: Memory, q: QpId, k: SockId, cs: seq<Chunk>): Memory {
    PostAll(m.(rq := m.rq[q := []], socks := m.socks[k := Lists([], [], [])]), q, cs)
  }

  /** A queue pair's beacon is posted when it first becomes dying. */
  ghost function NewlyDying(r: Registry, r': Registry): set<QpId> {
    set q | q in r.qps && q in r'.qps && !r.qps[q].dying && r'.qps[q].dying
  }

  ghost function WithMem(s: State, m: Option<Memory>): Option<State> {
    match m case None => None case Some(m1) => Some(s.(mem := m1))
  }

  /** The state after an event; `None` when an assertion in the code fails, or a missing socket is called. */
  ghost function Step(s: State, e: Event): Option<State>
    requires Enabled(s, e)
  {
    match e
    case GrowPool(c) => Some(s.(mem := Release(s.mem, c)))
    case Receive(q, c, len) => Some(s.(mem := s.mem.(rxcq := s.mem.rxcq + [Completion(q, c, len)])))
    case BeaconDone(q) => Some(s.(posted := s.posted - {q}, txcq := s.txcq + [Beacon(q, s.reg.qps[q].number)]))
    case SendDone(q) => Some(s.(sends := s.sends - multiset{q}, txcq := s.txcq + [Sent(q, s.reg.qps[q].number)]))
    case Create(k, q, n, want, cs) =>
      if cs == [] then Some(s)
      else if |cs| < want then None
      else (match Register(s.reg, q, n, k)
       case None => None
       case Some(r) =>
         Some(s.(reg := r, mem := CreateMemory(s.mem, q, k, cs), open := s.open[k := n], registered := s.registered + 1)))
    case PostSend(k) => Some(s.(sends := s.sends + multiset{s.reg.conns[s.open[k]].qp}))
    case Fetch(k) => Some(s.(mem := GetWc(s.mem, k)))
    case Prefetch(k) => WithMem(s, PrefetchOne(s.mem, k))
    case Drain(k) => WithMem(s, DrainOne(s.mem, k))
    case ReadData(k, n) => WithMem(s, ReadBuffers(s.mem, k, n))
    case CloseStart(k, ok) =>
      var r := ScheduleDestroy(s.reg, s.open[k], ok);
      Some(s.(reg := r, open := s.open - {k}, closing := s.closing + {k}, posted := s.posted + NewlyDying(s.reg, r)))
    case CloseWc(k) => WithMem(s, ReturnWc(s.mem, k))
    case CloseBuffer(k) => WithMem(s, ReturnBuffer(s.mem, k))
    case CloseEnd(k) => Some(s.(mem := s.mem.(socks := s.mem.socks - {k}), closing := s.closing - {k}, gone := s.gone + {k}))
    case LastWqeReached(n) => Some(if GetConn(s.reg, n).Some? then s.(reg := EnqueueDead(s.reg, n)) else s)
    case Stop => Some(s.(done := true))
    case PollTx(n) =>
      Some(s.(txcq := s.txcq[n..], txRet := n, pc := if n == 0 then PollingRx else HandlingTx(s.txcq[..n])))
    case HandleTx => Some(HandleTxEntry(s, s.pc.batch[0], s.pc.batch[1..]))
    case CallTx =>
      if s.pc.conn.Some? && Exists(s, s.pc.conn.value) then Some(s.(pc := Onto(s.pc.rest))) else None
    case PollRx(n, sp) =>
      WithMem(s.(rxRet := n, pc := if n == 0 && s.txRet == 0 then Idle else PollingTx), HandleRxAll(s.reg, s.mem, sp))
    case SwapBatch =>
      Some(if s.reg.dead == [] then s.(pc := Checking) else s.(reg := SwapDead(s.reg), pc := Deleting))
    case DeleteQp =>
      var q := s.reg.batch[0];
      Some(s.(reg := DeleteFirst(s.reg), mem := Destroy(s.mem, q), posted := s.posted - {q},
              sends := s.sends[q := 0], txcq := Purge(s.txcq, q),
              pc := if |s.reg.batch| == 1 then Checking else Deleting))
    case ReadCount => Some(s.(pc := if s.reg.count == 0 then CountZero(s.registered) else PollingTx))
    case ReadStop => Some(s.(pc := if s.done then DoneSeen(s.pc.at) else PollingTx))
    case ReadDead => Some(s.(pc := if s.reg.dead == [] then Exited(s.pc.at) else PollingTx))
  }

  // ---------- Invariant ----------

  /** What the code does not guard against: calling a socket that was not found, calling one that was
      found and has been destroyed since, and a pool that runs out in the middle of filling a new
      receive queue. */
  ghost predicate Crashes(s: State, e: Event)
    requires Enabled(s, e)
  {
    || (e.CallTx? && (s.pc.conn.None? || !Exists(s, s.pc.conn.value)))
    || (e.Create? && 0 < |s.mem.pool| < e.want)
  }

  ghost predicate BeaconOk(r: Registry, x: TxEntry) {
    x.qp in r.qps && r.qps[x.qp].number == x.number && (x.Beacon? ==> r.qps[x.qp].dying)
  }

  ghost predicate BeaconsOk(r: Registry, xs: seq<TxEntry>) {
    forall i :: 0 <= i < |xs| ==> BeaconOk(r, xs[i])
  }

  /** Lookups lead to live sockets. */
  ghost predicate ConnsOpen(r: Registry, open: map<SockId, nat>) {
    forall n :: n in r.conns && r.conns[n].conn.Some? ==> r.conns[n].conn.value in open && open[r.conns[n].conn.value] == n
  }

  /** Polled and not yet handled. */
  ghost function Unhandled(pc: Pc): seq<TxEntry> {
    match pc
    case HandlingTx(batch) => batch
    case Calling(_, rest) => rest
    case _ => []
  }

  ghost predicate TxOk(s: State) {
    && BeaconsOk(s.reg, s.txcq) && BeaconsOk(s.reg, Unhandled(s.pc))
    && (s.pc.HandlingTx? ==> s.pc.batch != [])
    && (forall q :: q in s.posted ==> q in s.reg.qps && s.reg.qps[q].dying)
    && (forall q :: q in s.sends ==> q in s.reg.qps)
  }

  /** During the exit test: as long as nothing is registered, nothing is there, and what is registered
      stays until the polling thread takes it. */
  ghost predicate ExitOk(s: State) {
    (s.pc.CountZero? || s.pc.DoneSeen? || s.pc.Exited?) ==>
      && s.pc.at <= s.registered
      && (s.pc.at == s.registered ==> s.reg.conns == map[])
      && (s.pc.at < s.registered ==> s.reg.conns != map[] || s.reg.dead != [])
      && (!s.pc.CountZero? ==> s.done)
      && (s.pc.Exited? ==> s.reg.dead == [])
  }

  ghost predicate PcOk(s: State) {
    && (s.pc == Deleting <==> s.reg.batch != [])
    && (s.pc in {Idle, Deleting} ==> s.txRet == 0 && s.rxRet == 0)
    && (s.done ==> s.open == map[] && s.closing == {})
    && ExitOk(s)
  }

  /** How the registry, the memory, the sockets and the threads fit together. */
  ghost predicate Fits(s: State) {
    && s.mem.rq.Keys == s.reg.qps.Keys
    && s.mem.socks.Keys == s.open.Keys + s.closing && s.open.Keys !! s.closing
    && ConnsOpen(s.reg, s.open) && TxOk(s) && PcOk(s)
  }

  ghost predicate Inv(s: State) {
    RegistryInv(s.reg) && MemInv(s.mem) && Fits(s)
  }

  // ---------- Every event keeps it ----------

  /** Events that only move chunks. */
  lemma MemoryOnly(s: State, m: Memory)
    requires Inv(s) && MemInv(m) && m.rq.Keys == s.mem.rq.Keys && m.socks.Keys == s.mem.socks.Keys
    ensures Inv(s.(mem := m))
  {
  }

  /** A new chunk in the pool is in nobody's list. */
  lemma GrowRq(rq: map<QpId, seq<Chunk>>, w: Account, c: Chunk)
    requires RqPlaced(rq, w) && c !in w
    ensures RqPlaced(rq, w[c := InPool])
  {
    forall q | q in rq
      ensures Holds(rq[q], w[c := InPool], InRq(q))
    {
      HoldsOther(rq[q], w, InRq(q), c, InPool);
    }
  }

  lemma GrowSocks(socks: map<SockId, Lists>, w: Account, c: Chunk)
    requires SocksPlaced(socks, w) && c !in w
    ensures SocksPlaced(socks, w[c := InPool])
  {
    forall k | k in socks
      ensures SockHolds(socks[k], w[c := InPool], k)
    {
      assert SockHolds(socks[k], w, k);
      HoldsOther(WcChunks(socks[k].wc), w, InWc(k), c, InPool);
      HoldsOther(WcChunks(socks[k].cqe), w, InCqe(k), c, InPool);
      HoldsOther(BufChunks(socks[k].buffers), w, InBuffers(k), c, InPool);
    }
  }

  lemma GrowSound(m: Memory, c: Chunk)
    requires MemInv(m) && c !in m.owner
    ensures MemInv(Release(m, c))
  {
    var w: Account :| Sound(m, w);
    GrowRq(m.rq, w, c);
    GrowSocks(m.socks, w, c);
    assert PoolPlaced(Release(m, c).pool, w[c := InPool]);
    assert Sound(Release(m, c), w[c := InPool]);
  }

  lemma CompletionAdded(m: Memory, w: Account, q: QpId, c: Chunk, len: nat)
    requires CompletionsPosted(m, w) && c in w && w[c] == InRq(q) && NotCompleted(m, c)
    ensures CompletionsPosted(m.(rxcq := m.rxcq + [Completion(q, c, len)]), w)
  {
  }

  lemma ReceiveSound(m: Memory, q: QpId, c: Chunk, len: nat)
    requires MemInv(m) && q in m.rq && c in m.rq[q] && NotCompleted(m, c)
    ensures MemInv(m.(rxcq := m.rxcq + [Completion(q, c, len)]))
  {
    var w: Account :| Sound(m, w);
    assert Holds(m.rq[q], w, InRq(q));
    CompletionAdded(m, w, q, c, len);
    assert Sound(m.(rxcq := m.rxcq + [Completion(q, c, len)]), w);
  }

  lemma FetchSound(m: Memory, k: SockId)
    requires MemInv(m) && k in m.socks && m.socks[k].cqe == [] && m.socks[k].wc != []
    ensures MemInv(GetWc(m, k)) && GetWc(m, k).rq == m.rq && GetWc(m, k).socks.Keys == m.socks.Keys
  {
    var w: Account :| Sound(m, w);
    GetWcMoves(m, w, k);
  }

  /** What a step on one socket's lists keeps. */
  ghost predicate ListStepOk(m: Memory, m': Option<Memory>) {
    m'.Some? && MemInv(m'.value) && m'.value.rq == m.rq && m'.value.socks.Keys == m.socks.Keys
  }

  lemma PrefetchSound(m: Memory, k: SockId)
    requires MemInv(m) && k in m.socks && m.socks[k].cqe != []
    ensures ListStepOk(m, PrefetchOne(m, k))
  {
    var w: Account :| Sound(m, w);
    PrefetchMoves(m, w, k);
  }

  lemma DrainSound(m: Memory, k: SockId)
    requires MemInv(m) && k in m.socks && m.socks[k].cqe != []
    ensures ListStepOk(m, DrainOne(m, k))
  {
    var w: Account :| Sound(m, w);
    DrainMoves(m, w, k);
  }

  lemma ReturnWcSound(m: Memory, k: SockId)
    requires MemInv(m) && k in m.socks && m.socks[k].wc != []
    ensures ListStepOk(m, ReturnWc(m, k))
  {
    var w: Account :| Sound(m, w);
    ReturnWcMoves(m, w, k);
  }

  /** Taking a completion off the queue: its chunk is still posted and has no other completion. */
  lemma PolledSound(m: Memory, w: Account)
    requires Sound(m, w) && m.rxcq != []
    ensures var x, m0 := m.rxcq[0], m.(rxcq := m.rxcq[1..]);
            x.chunk in w && w[x.chunk] == InRq(x.qp) && x.qp in m.rq && Sound(m0, w) && NotCompleted(m0, x.chunk)
  {
  }

  ghost predicate RxStepOk(m: Memory, m': Option<Memory>) {
    && m'.Some? && MemInv(m'.value) && m'.value.rxcq == m.rxcq
    && m'.value.rq.Keys == m.rq.Keys && m'.value.socks.Keys == m.socks.Keys
  }

  lemma DeadRxSound(m: Memory, w: Account, x: Completion)
    requires Sound(m, w) && x.chunk in w && w[x.chunk] == InRq(x.qp) && x.qp in m.rq && NotCompleted(m, x.chunk)
    ensures RxStepOk(m, Recall(m, x.chunk))
  {
    RecallPosted(m, w, x.chunk);
  }

  lemma LiveRxSound(m: Memory, w: Account, x: Completion, k: SockId, spare: Option<Chunk>)
    requires Sound(m, w) && x.chunk in w && w[x.chunk] == InRq(x.qp) && x.qp in m.rq && NotCompleted(m, x.chunk) && k in m.socks
    ensures RxStepOk(m, PassToSocket(m, x, k, spare))
  {
    PassMoves(m, w, x, k, spare);
  }

  /** One polled completion: whichever way it goes, the assertions hold. */
  lemma HandleRxSound(r: Registry, m: Memory, spare: Option<Chunk>)
    requires MemInv(m) && m.rxcq != [] && m.rq.Keys == r.qps.Keys
    requires forall n :: n in r.conns && r.conns[n].conn.Some? ==> r.conns[n].conn.value in m.socks
    ensures RxStepOk(m.(rxcq := m.rxcq[1..]), HandleRx(r, m.(rxcq := m.rxcq[1..]), m.rxcq[0], spare))
  {
    var w: Account :| Sound(m, w);
    var x, m0 := m.rxcq[0], m.(rxcq := m.rxcq[1..]);
    PolledSound(m, w);
    match GetConn(r, r.qps[x.qp].number)
    case None => DeadRxSound(m0, w, x);
    case Some(k) => LiveRxSound(m0, w, x, k, spare);
  }

  lemma HandleRxAllStep(r: Registry, m: Memory, sp: seq<Option<Chunk>>)
    requires sp != [] && |sp| <= |m.rxcq|
    requires var m1 := HandleRx(r, m.(rxcq := m.rxcq[1..]), m.rxcq[0], sp[0]); m1.Some? && m1.value.rxcq == m.rxcq[1..]
    ensures var m1 := HandleRx(r, m.(rxcq := m.rxcq[1..]), m.rxcq[0], sp[0]).value;
            |sp[1..]| <= |m1.rxcq| && HandleRxAll(r, m, sp) == HandleRxAll(r, m1, sp[1..])
  {
  }

  lemma {:induction false} HandleRxAllSound(r: Registry, m: Memory, sp: seq<Option<Chunk>>)
    requires MemInv(m) && |sp| <= |m.rxcq| && m.rq.Keys == r.qps.Keys
    requires forall n :: n in r.conns && r.conns[n].conn.Some? ==> r.conns[n].conn.value in m.socks
    ensures var m' := HandleRxAll(r, m, sp);
            m'.Some? && MemInv(m'.value) && m'.value.rq.Keys == m.rq.Keys && m'.value.socks.Keys == m.socks.Keys
    decreases |sp|
  {
    if sp != [] {
      HandleRxSound(r, m, sp[0]);
      HandleRxAllStep(r, m, sp);
      HandleRxAllSound(r, HandleRx(r, m.(rxcq := m.rxcq[1..]), m.rxcq[0], sp[0]).value, sp[1..]);
    }
  }

  lemma NewQueue(rq: map<QpId, seq<Chunk>>, w: Account, q: QpId)
    requires RqPlaced(rq, w) && q !in rq
    ensures RqPlaced(rq[q := []], w)
  {
    forall x | x in rq[q := []]
      ensures Holds(rq[q := []][x], w, InRq(x))
    {
      if x != q { assert Holds(rq[x], w, InRq(x)); }
    }
  }

  lemma NewSocket(socks: map<SockId, Lists>, w: Account, k: SockId)
    requires SocksPlaced(socks, w) && k !in socks
    ensures SocksPlaced(socks[k := Lists([], [], [])], w)
  {
    forall c | c in w && OnSocket(w[c])
      ensures w[c].s != k
    {
    }
    assert SockHolds(Lists([], [], []), w, k);
  }

  lemma NewListsSound(m: Memory, q: QpId, k: SockId)
    requires MemInv(m) && q !in m.rq && k !in m.socks
    ensures MemInv(m.(rq := m.rq[q := []], socks := m.socks[k := Lists([], [], [])]))
  {
    var w: Account :| Sound(m, w);
    NewQueue(m.rq, w, q);
    NewSocket(m.socks, w, k);
    assert Sound(m.(rq := m.rq[q := []], socks := m.socks[k := Lists([], [], [])]), w);
  }

  /** A new queue pair and socket start with empty lists. */
  lemma CreateSound(m: Memory, q: QpId, k: SockId, cs: seq<Chunk>)
    requires MemInv(m) && q !in m.rq && k !in m.socks
    ensures var m' := CreateMemory(m, q, k, cs);
            MemInv(m') && m'.rq.Keys == m.rq.Keys + {q} && m'.socks.Keys == m.socks.Keys + {k}
  {
    var m0 := m.(rq := m.rq[q := []], socks := m.socks[k := Lists([], [], [])]);
    NewListsSound(m, q, k);
    assert m0.rq.Keys == m.rq.Keys + {q} && m0.socks.Keys == m.socks.Keys + {k};
    PostAllSound(m0, q, cs);
  }

  lemma CloseEndSound(m: Memory, k: SockId)
    requires MemInv(m) && k in m.socks && m.socks[k] == Lists([], [], [])
    ensures MemInv(m.(socks := m.socks - {k}))
  {
    var w: Account :| Sound(m, w);
    var m' := m.(socks := m.socks - {k});
    assert SockHolds(m.socks[k], w, k);
    forall c | c in w && OnSocket(w[c])
      ensures w[c].s in m'.socks
    {
      assert c !in WcChunks(m.socks[k].wc) && c !in WcChunks(m.socks[k].cqe) && c !in BufChunks(m.socks[k].buffers);
    }
    assert SocksPlaced(m'.socks, w);
    assert Sound(m', w);
  }

  lemma {:induction false} PurgeOk(xs: seq<TxEntry>, q: QpId, r: Registry)
    requires BeaconsOk(r, xs)
    ensures BeaconsOk(r.(qps := r.qps - {q}), Purge(xs, q))
  {
    if xs != [] {
      assert BeaconOk(r, xs[0]);
      assert forall i :: 0 <= i < |xs[1..]| ==> BeaconOk(r, xs[1..][i]) by {
        assert forall i :: 0 <= i < |xs[1..]| ==> xs[1..][i] == xs[i + 1];
      }
      PurgeOk(xs[1..], q, r);
    }
  }

  ghost predicate MovesChunksOnly(e: Event) {
    e.GrowPool? || e.Receive? || e.Fetch? || e.Prefetch? || e.Drain? || e.ReadData? || e.CloseWc? || e.CloseBuffer?
  }

  ghost predicate OnlyMemory(s: State, s': Option<State>) {
    && s'.Some? && s'.value == s.(mem := s'.value.mem) && MemInv(s'.value.mem)
    && s'.value.mem.rq.Keys == s.mem.rq.Keys && s'.value.mem.socks.Keys == s.mem.socks.Keys
  }

  lemma HardwareEffect(s: State, e: Event)
    requires MemInv(s.mem) && Enabled(s, e) && (e.GrowPool? || e.Receive? || e.Fetch?)
    ensures OnlyMemory(s, Step(s, e))
  {
    match e {
      case GrowPool(c) => GrowSound(s.mem, c);
      case Receive(q, c, len) => ReceiveSound(s.mem, q, c, len);
      case Fetch(k) => FetchSound(s.mem, k);
    }
  }

  lemma ListEffect(s: State, e: Event)
    requires MemInv(s.mem) && Enabled(s, e) && (e.Prefetch? || e.Drain? || e.CloseWc?)
    ensures OnlyMemory(s, Step(s, e))
  {
    match e {
      case Prefetch(k) => PrefetchSound(s.mem, k);
      case Drain(k) => DrainSound(s.mem, k);
      case CloseWc(k) => ReturnWcSound(s.mem, k);
    }
  }

  lemma BufferEffect(s: State, e: Event)
    requires MemInv(s.mem) && Enabled(s, e) && (e.ReadData? || e.CloseBuffer?)
    ensures OnlyMemory(s, Step(s, e))
  {
    match e {
      case ReadData(k, n) => ReadBuffersSound(s.mem, k, n);
      case CloseBuffer(k) => ReturnBufferInv(s.mem, k);
    }
  }

  lemma MemoryEffect(s: State, e: Event)
    requires MemInv(s.mem) && Enabled(s, e) && MovesChunksOnly(e)
    ensures OnlyMemory(s, Step(s, e))
  {
    if e.GrowPool? || e.Receive? || e.Fetch? {
      HardwareEffect(s, e);
    } else if e.ReadData? || e.CloseBuffer? {
      BufferEffect(s, e);
    } else {
      ListEffect(s, e);
    }
  }

  /** Queue pairs keep their numbers and, once dying, stay so. */
  ghost predicate Grows(r: Registry, r': Registry) {
    forall q :: q in r.qps ==> q in r'.qps && r'.qps[q].number == r.qps[q].number && (r.qps[q].dying ==> r'.qps[q].dying)
  }

  lemma TxKeeps(s: State, r: Registry, more: set<QpId>)
    requires TxOk(s) && Grows(s.reg, r) && forall q :: q in more ==> q in r.qps && r.qps[q].dying
    ensures TxOk(s.(reg := r, posted := s.posted + more))
  {
    assert forall x :: BeaconOk(s.reg, x) ==> BeaconOk(r, x);
  }

  lemma EnqueueKeepsTx(s: State, n: nat)
    requires TxOk(s)
    ensures TxOk(s.(reg := EnqueueDead(s.reg, n)))
  {
    TxKeeps(s, EnqueueDead(s.reg, n), {});
    assert s.posted + {} == s.posted;
  }

  lemma EnqueueKeepsConns(r: Registry, open: map<SockId, nat>, n: nat)
    requires ConnsOpen(r, open)
    ensures ConnsOpen(EnqueueDead(r, n), open)
  {
  }

  lemma EnqueueKeeps(s: State, n: nat)
    requires Inv(s) && (s.pc.Exited? ==> n !in s.reg.conns)
    ensures Inv(s.(reg := EnqueueDead(s.reg, n)))
  {
    EnqueueInv(s.reg, n);
    EnqueueKeepsTx(s, n);
    EnqueueExit(s, n);
    EnqueueKeepsConns(s.reg, s.open, n);
  }

  /** The part of the invariant that a registration touches. */
  lemma CreateRegistry(s: State, q: QpId, n: nat, k: SockId)
    requires RegistryInv(s.reg) && ConnsOpen(s.reg, s.open) && TxOk(s) && k !in s.open && FreshQp(s.reg, q, n)
    ensures Register(s.reg, q, n, k).Some?
    ensures var r := Register(s.reg, q, n, k).value;
            && RegistryInv(r) && ConnsOpen(r, s.open[k := n]) && TxOk(s.(reg := r))
            && r.qps.Keys == s.reg.qps.Keys + {q} && r.batch == s.reg.batch && n in r.conns
  {
    RegisterInv(s.reg, q, n, k);
    TxKeeps(s, Register(s.reg, q, n, k).value, {});
    assert s.posted + {} == s.posted;
  }

  lemma CreateFits(s: State, e: Event, r: Registry, m: Memory)
    requires Fits(s) && Enabled(s, e) && e.Create? && ConnsOpen(r, s.open[e.sock := e.number]) && TxOk(s.(reg := r))
    requires r.qps.Keys == s.reg.qps.Keys + {e.qp} && r.batch == s.reg.batch && r.conns != map[]
    requires m.rq.Keys == s.mem.rq.Keys + {e.qp} && m.socks.Keys == s.mem.socks.Keys + {e.sock}
    ensures Fits(s.(reg := r, mem := m, open := s.open[e.sock := e.number], registered := s.registered + 1))
  {
    assert s.open[e.sock := e.number].Keys == s.open.Keys + {e.sock};
  }

  /** The pool runs out in between exactly if it has some chunks and too few. */
  lemma HandedOut(pool: multiset<Chunk>, want: nat, cs: seq<Chunk>)
    requires HandsOut(pool, want, cs)
    ensures 0 < |pool| < want <==> 0 < |cs| < want
    ensures |cs| == |pool| || |cs| == want
  {
    assert pool == multiset(cs) + (pool - multiset(cs));
  }

  lemma CreateStep(s: State, e: Event, r: Registry)
    requires Enabled(s, e) && e.Create? && e.chunks != [] && !Crashes(s, e) && Register(s.reg, e.qp, e.number, e.sock) == Some(r)
    ensures Step(s, e) == Some(s.(reg := r, mem := CreateMemory(s.mem, e.qp, e.sock, e.chunks),
                                  open := s.open[e.sock := e.number], registered := s.registered + 1))
  {
    HandedOut(s.mem.pool, e.want, e.chunks);
  }

  lemma CreateEvent(s: State, e: Event)
    requires Inv(s) && Enabled(s, e) && e.Create? && !Crashes(s, e)
    ensures Step(s, e).Some? && Inv(Step(s, e).value)
  {
    if e.chunks == [] { return; }
    CreateRegistry(s, e.qp, e.number, e.sock);
    assert e.qp !in s.mem.rq && e.sock !in s.mem.socks;
    CreateSound(s.mem, e.qp, e.sock, e.chunks);
    var r := Register(s.reg, e.qp, e.number, e.sock).value;
    CreateStep(s, e, r);
    CreateFits(s, e, r, CreateMemory(s.mem, e.qp, e.sock, e.chunks));
  }

  /** Once its destructor has started, no lookup finds a socket. */
  lemma ScheduleConns(r: Registry, open: map<SockId, nat>, k: SockId, ok: bool)
    requires RegistryInv(r) && ConnsOpen(r, open) && k in open
    ensures ConnsOpen(ScheduleDestroy(r, open[k], ok), open - {k})
  {
    if open[k] in r.conns { assert r.conns[open[k]].qp in r.qps; }
  }

  lemma ScheduleGrows(r: Registry, n: nat, ok: bool)
    ensures Grows(r, ScheduleDestroy(r, n, ok)) && ScheduleDestroy(r, n, ok).qps.Keys == r.qps.Keys
    ensures ScheduleDestroy(r, n, ok).batch == r.batch
  {
  }

  /** Whatever leaves the registered queue pairs during the exit test is on the dead list. */
  lemma EnqueueExit(s: State, n: nat)
    requires ExitOk(s) && (s.pc.Exited? ==> n !in s.reg.conns)
    ensures ExitOk(s.(reg := EnqueueDead(s.reg, n)))
  {
    if n in s.reg.conns { assert EnqueueDead(s.reg, n).dead != []; }
  }

  lemma ScheduleExit(s: State, n: nat, ok: bool)
    requires ExitOk(s) && !s.pc.Exited?
    ensures ExitOk(s.(reg := ScheduleDestroy(s.reg, n, ok)))
  {
    EnqueueExit(s, n);
    if n in s.reg.conns && s.reg.conns[n].qp in s.reg.qps { assert n in MarkDying(s.reg, n).conns; }
  }

  lemma CloseStartFits(s: State, e: Event, r: Registry)
    requires Fits(s) && Enabled(s, e) && e.CloseStart? && ConnsOpen(r, s.open - {e.sock})
    requires r.qps.Keys == s.reg.qps.Keys && r.batch == s.reg.batch && ExitOk(s.(reg := r))
    requires TxOk(s.(reg := r, posted := s.posted + NewlyDying(s.reg, r)))
    ensures Fits(s.(reg := r, open := s.open - {e.sock}, closing := s.closing + {e.sock}, posted := s.posted + NewlyDying(s.reg, r)))
  {
    assert (s.open - {e.sock}).Keys == s.open.Keys - {e.sock};
  }

  lemma CloseStartEvent(s: State, e: Event)
    requires Inv(s) && Enabled(s, e) && e.CloseStart?
    ensures Step(s, e).Some? && Inv(Step(s, e).value)
  {
    var r := ScheduleDestroy(s.reg, s.open[e.sock], e.ok);
    ScheduleInv(s.reg, s.open[e.sock], e.ok);
    ScheduleConns(s.reg, s.open, e.sock, e.ok);
    ScheduleGrows(s.reg, s.open[e.sock], e.ok);
    TxKeeps(s, r, NewlyDying(s.reg, r));
    ScheduleExit(s, s.open[e.sock], e.ok);
    CloseStartFits(s, e, r);
  }

  /** A step that leaves the two books alone. */
  ghost predicate BooksStay(s: State, s': Option<State>) {
    s'.Some? && s'.value.reg == s.reg && s'.value.mem == s.mem && Fits(s'.value)
  }

  lemma PollTxFits(s: State, n: nat)
    requires Fits(s) && s.pc == PollingTx && 0 < n <= |s.txcq|
    ensures Fits(s.(txcq := s.txcq[n..], txRet := n, pc := HandlingTx(s.txcq[..n])))
  {
    var front, back := s.txcq[..n], s.txcq[n..];
    assert BeaconsOk(s.reg, front) by {
      assert forall i :: 0 <= i < |front| ==> front[i] == s.txcq[i];
    }
    assert BeaconsOk(s.reg, back) by {
      assert forall i :: 0 <= i < |back| ==> back[i] == s.txcq[n + i];
    }
  }

  lemma PollTxEvent(s: State, e: Event)
    requires Fits(s) && Enabled(s, e) && e.PollTx?
    ensures BooksStay(s, Step(s, e))
  {
    if e.n == 0 {
      assert s.txcq[0..] == s.txcq;
    } else {
      PollTxFits(s, e.n);
    }
  }

  lemma OntoFits(s: State, rest: seq<TxEntry>)
    requires Fits(s) && BeaconsOk(s.reg, rest) && (s.pc.HandlingTx? || s.pc.Calling?)
    ensures Fits(s.(pc := Onto(rest)))
    ensures forall conn :: Fits(s.(pc := Calling(conn, rest)))
  {
  }

  lemma HandleTxEvent(s: State, e: Event)
    requires Inv(s) && Enabled(s, e) && e.HandleTx?
    ensures Step(s, e).Some? && Inv(Step(s, e).value)
  {
    var x, rest := s.pc.batch[0], s.pc.batch[1..];
    assert BeaconsOk(s.reg, rest) by {
      assert forall i :: 0 <= i < |rest| ==> rest[i] == s.pc.batch[i + 1];
    }
    OntoFits(s, rest);
    if x.Beacon? {
      EnqueueKeeps(s.(pc := Onto(rest)), x.number);
    }
  }

  lemma CallTxEvent(s: State, e: Event)
    requires Fits(s) && Enabled(s, e) && e.CallTx? && !Crashes(s, e)
    ensures BooksStay(s, Step(s, e))
  {
    OntoFits(s, s.pc.rest);
  }

  lemma PollRxFits(s: State, e: Event, m: Memory)
    requires Fits(s) && Enabled(s, e) && e.PollRx? && m.rq.Keys == s.mem.rq.Keys && m.socks.Keys == s.mem.socks.Keys
    ensures Fits(s.(mem := m, rxRet := e.n, pc := if e.n == 0 && s.txRet == 0 then Idle else PollingTx))
  {
  }

  lemma ConnsInSocks(s: State)
    requires Fits(s)
    ensures s.mem.rq.Keys == s.reg.qps.Keys
    ensures forall n :: n in s.reg.conns && s.reg.conns[n].conn.Some? ==> s.reg.conns[n].conn.value in s.mem.socks
  {
  }

  lemma PollRxMemory(s: State, e: Event)
    requires MemInv(s.mem) && Fits(s) && Enabled(s, e) && e.PollRx?
    ensures var m := HandleRxAll(s.reg, s.mem, e.spares);
            m.Some? && MemInv(m.value) && m.value.rq.Keys == s.mem.rq.Keys && m.value.socks.Keys == s.mem.socks.Keys
  {
    ConnsInSocks(s);
    HandleRxAllSound(s.reg, s.mem, e.spares);
  }

  lemma PollRxStep(s: State, e: Event)
    requires Enabled(s, e) && e.PollRx? && HandleRxAll(s.reg, s.mem, e.spares).Some?
    ensures Step(s, e) == Some(s.(mem := HandleRxAll(s.reg, s.mem, e.spares).value, rxRet := e.n,
                                  pc := if e.n == 0 && s.txRet == 0 then Idle else PollingTx))
  {
  }

  lemma PollRxEvent(s: State, e: Event)
    requires Inv(s) && Enabled(s, e) && e.PollRx?
    ensures Step(s, e).Some? && Inv(Step(s, e).value)
  {
    PollRxMemory(s, e);
    PollRxStep(s, e);
    PollRxFits(s, e, HandleRxAll(s.reg, s.mem, e.spares).value);
  }

  lemma DeleteFits(s: State, m: Memory, r: Registry)
    requires Fits(s) && s.pc == Deleting && s.reg.batch != [] && r == DeleteFirst(s.reg)
    requires m.rq.Keys == s.mem.rq.Keys - {s.reg.batch[0]} && m.socks == s.mem.socks
    requires BeaconsOk(s.reg.(qps := s.reg.qps - {s.reg.batch[0]}), Purge(s.txcq, s.reg.batch[0]))
    requires r.batch == [] ==> |s.reg.batch| == 1
    ensures var q := s.reg.batch[0];
            Fits(s.(reg := r, mem := m, posted := s.posted - {q}, sends := s.sends[q := 0], txcq := Purge(s.txcq, q),
                    pc := if |s.reg.batch| == 1 then Checking else Deleting))
  {
    var q := s.reg.batch[0];
    assert forall x :: BeaconOk(s.reg.(qps := s.reg.qps - {q}), x) ==> BeaconOk(r, x);
  }

  lemma DeleteEvent(s: State, e: Event)
    requires Inv(s) && Enabled(s, e) && e.DeleteQp?
    ensures Step(s, e).Some? && Inv(Step(s, e).value)
  {
    var q := s.reg.batch[0];
    DeleteInv(s.reg);
    DestroySound(s.mem, q);
    PurgeOk(s.txcq, q, s.reg);
    DeleteFits(s, Destroy(s.mem, q), DeleteFirst(s.reg));
  }

  lemma SwapFits(s: State)
    requires Fits(s) && s.pc == Idle && s.reg.dead != []
    ensures Fits(s.(reg := SwapDead(s.reg), pc := Deleting))
  {
    assert forall x :: BeaconOk(s.reg, x) <==> BeaconOk(SwapDead(s.reg), x);
  }

  lemma SwapEvent(s: State, e: Event)
    requires Inv(s) && Enabled(s, e) && e.SwapBatch?
    ensures Step(s, e).Some? && Inv(Step(s, e).value)
  {
    if s.reg.dead == [] {
      assert Fits(s.(pc := Checking));
    } else {
      SwapInv(s.reg);
      SwapFits(s);
    }
  }

  lemma CompletionEvent(s: State, e: Event)
    requires Fits(s) && Enabled(s, e) && (e.BeaconDone? || e.SendDone?)
    ensures BooksStay(s, Step(s, e))
  {
    var s' := Step(s, e).value;
    assert BeaconOk(s.reg, s'.txcq[|s.txcq|]);
    assert BeaconsOk(s'.reg, s'.txcq);
  }

  lemma CloseEndFits(s: State, e: Event)
    requires Fits(s) && Enabled(s, e) && e.CloseEnd?
    ensures Fits(Step(s, e).value)
  {
  }

  lemma CloseEndEvent(s: State, e: Event)
    requires Inv(s) && Enabled(s, e) && e.CloseEnd?
    ensures Step(s, e).Some? && Inv(Step(s, e).value)
  {
    CloseEndSound(s.mem, e.sock);
    CloseEndFits(s, e);
  }

  lemma PostSendEvent(s: State, e: Event)
    requires Fits(s) && Enabled(s, e) && e.PostSend?
    ensures BooksStay(s, Step(s, e))
  {
    assert TxOk(Step(s, e).value);
  }

  lemma ExitTestOk(s: State, e: Event)
    requires ExitOk(s) && Enabled(s, e) && (e.ReadCount? || e.ReadStop? || e.ReadDead?)
    requires s.reg.count == |s.reg.conns|
    ensures ExitOk(Step(s, e).value)
  {
    if e.ReadCount? && s.reg.count == 0 { assert s.reg.conns == map[]; }
  }

  lemma ExitEvent(s: State, e: Event)
    requires Fits(s) && s.reg.count == |s.reg.conns|
    requires Enabled(s, e) && (e.ReadCount? || e.ReadStop? || e.ReadDead?)
    ensures BooksStay(s, Step(s, e))
  {
    ExitTestOk(s, e);
    assert PcOk(Step(s, e).value);
  }

  lemma StopEvent(s: State, e: Event)
    requires Fits(s) && Enabled(s, e) && e.Stop?
    ensures BooksStay(s, Step(s, e))
  {
    assert PcOk(Step(s, e).value);
  }

  lemma LastWqeEvent(s: State, e: Event)
    requires Inv(s) && Enabled(s, e) && e.LastWqeReached?
    ensures Step(s, e).Some? && Inv(Step(s, e).value)
  {
    if GetConn(s.reg, e.number).Some? {
      assert s.open != map[];
      EnqueueKeeps(s, e.number);
    }
  }

  lemma SocketEvent(s: State, e: Event)
    requires Inv(s) && Enabled(s, e) && !Crashes(s, e)
    requires e.Create? || e.PostSend? || e.CloseStart? || e.LastWqeReached? || e.CloseEnd? || e.Stop? || e.BeaconDone? || e.SendDone?
    ensures Step(s, e).Some? && Inv(Step(s, e).value)
  {
    match e {
      case Create(_, _, _, _, _) => CreateEvent(s, e);
      case PostSend(_) => PostSendEvent(s, e);
      case CloseStart(_, _) => CloseStartEvent(s, e);
      case LastWqeReached(_) => LastWqeEvent(s, e);
      case CloseEnd(_) => CloseEndEvent(s, e);
      case Stop => StopEvent(s, e);
      case _ => CompletionEvent(s, e);
    }
  }

  ghost predicate ByPolling(e: Event) {
    || e.PollTx? || e.HandleTx? || e.CallTx? || e.PollRx? || e.SwapBatch? || e.DeleteQp?
    || e.ReadCount? || e.ReadStop? || e.ReadDead?
  }

  lemma PollingEvent(s: State, e: Event)
    requires Inv(s) && Enabled(s, e) && !Crashes(s, e)
    requires ByPolling(e)
    ensures Step(s, e).Some? && Inv(Step(s, e).value)
  {
    match e {
      case PollTx(_) => PollTxEvent(s, e);
      case HandleTx => HandleTxEvent(s, e);
      case PollRx(_, _) => PollRxEvent(s, e);
      case SwapBatch => SwapEvent(s, e);
      case DeleteQp => DeleteEvent(s, e);
      case CallTx => CallTxEvent(s, e);
      case _ => ExitEvent(s, e);
    }
  }

  lemma CrashesIsNone(s: State, e: Event)
    requires Enabled(s, e) && Crashes(s, e)
    ensures Step(s, e).None?
  {
    if e.Create? { HandedOut(s.mem.pool, e.want, e.chunks); }
  }

  /** Every other event keeps the invariant, and no assertion fails. */
  lemma StepInv(s: State, e: Event)
    requires Inv(s) && Enabled(s, e) && !Crashes(s, e)
    ensures Step(s, e).Some? && Inv(Step(s, e).value)
  {
    if MovesChunksOnly(e) {
      MemoryEffect(s, e);
      MemoryOnly(s, Step(s, e).value.mem);
    } else if ByPolling(e) {
      PollingEvent(s, e);
    } else {
      SocketEvent(s, e);
    }
  }

  // ---------- Runs ----------

  ghost predicate Run(t: seq<State>) {
    && |t| > 0 && t[0] == Fresh
    && forall i :: 0 < i < |t| ==> Follows(t[i - 1], t[i])
  }

  ghost predicate Follows(s: State, s': State) {
    exists e :: Enabled(s, e) && Step(s, e) == Some(s')
  }

  lemma FreshInv()
    ensures Inv(Fresh)
  {
    var w: Account := map[];
    assert Sound(NoMemory, w);
  }

  lemma {:induction false} RunInv(t: seq<State>, n: nat)
    requires Run(t) && n < |t|
    ensures Inv(t[n])
  {
    if n == 0 {
      FreshInv();
    } else {
      RunInv(t, n - 1);
      assert Follows(t[n - 1], t[n]);
      var e :| Enabled(t[n - 1], e) && Step(t[n - 1], e) == Some(t[n]);
      if Crashes(t[n - 1], e) { CrashesIsNone(t[n - 1], e); }
      StepInv(t[n - 1], e);
    }
  }

  /** Main result for memory: in every state of every run each receive chunk is in exactly one
      place, and whatever happens next fails exactly if it is one of the three unguarded events. */
  lemma ChunksNeverLost(t: seq<State>, n: nat)
    requires Run(t) && n < |t|
    ensures OnePlaceEach(t[n].mem)
    ensures forall e :: Enabled(t[n], e) ==> (Step(t[n], e).Some? <==> !Crashes(t[n], e))
  {
    RunInv(t, n);
    var w: Account :| Sound(t[n].mem, w);
    SoundIsOnePlaceEach(t[n].mem, w);
    forall e | Enabled(t[n], e)
      ensures Step(t[n], e).Some? <==> !Crashes(t[n], e)
    {
      StepOrCrash(t[n], e);
    }
  }

  lemma StepOrCrash(s: State, e: Event)
    requires Inv(s) && Enabled(s, e)
    ensures Step(s, e).Some? <==> !Crashes(s, e)
  {
    if Crashes(s, e) { CrashesIsNone(s, e); } else { StepInv(s, e); }
  }

  /** A new queue pair starts with all the receives it asked for, taken from the pool, or it is not
      registered at all. */
  lemma CreateFills(s: State, e: Event)
    requires Enabled(s, e) && e.Create? && Step(s, e).Some?
    ensures var s' := Step(s, e).value;
            if |s.mem.pool| == 0 || e.want == 0 then s' == s
            else e.qp in s'.mem.rq && s'.mem.rq[e.qp] == e.chunks && |e.chunks| == e.want && e.number in s'.reg.conns
                 && s'.mem.pool == s.mem.pool - multiset(e.chunks)
  {
    HandedOut(s.mem.pool, e.want, e.chunks);
    if e.chunks != [] {
      var m := s.mem.(rq := s.mem.rq[e.qp := []], socks := s.mem.socks[e.sock := Lists([], [], [])]);
      PostAllExact(m, e.qp, e.chunks);
      assert [] + e.chunks == e.chunks;
    }
  }

  /** Main result for queue pairs: each is in one book, the count is right, none is deleted
      twice, and a lookup never finds a socket whose destructor has started. */
  lemma QueuePairsAccounted(t: seq<State>, n: nat)
    requires Run(t) && n < |t|
    ensures var r := t[n].reg;
            && r.count == |r.conns|
            && (forall q :: q in r.qps ==> (Registered(r, q) <==> !Dead(r, q)))
            && NoDup(r.dead) && NoDup(r.batch) && (forall q :: q in r.dead ==> q !in r.batch)
            && NoDup(r.deletions) && (forall q :: q in r.deletions ==> q !in r.qps && !Dead(r, q))
    ensures forall k, number :: GetConn(t[n].reg, number) == Some(k) ==> k in t[n].open && k !in t[n].closing
  {
    RunInv(t, n);
  }

  /** The hardware's last word on a queue pair with a live socket makes it dead; otherwise it changes nothing. */
  lemma LastWqeEffect(s: State, n: nat)
    requires Inv(s)
    ensures var s', live := Step(s, LastWqeReached(n)).value, GetConn(s.reg, n).Some?;
            && s' == s.(reg := s'.reg) && (!live ==> s'.reg == s.reg)
            && (live ==> n in s.reg.conns && s'.reg.dead == s.reg.dead + [s.reg.conns[n].qp] && n !in s'.reg.conns
                         && s'.reg.count == s.reg.count - 1 && s'.reg.qps == s.reg.qps)
  {
  }

  lemma OnlyDeleteQpDeletes(s: State, e: Event)
    requires Enabled(s, e) && Step(s, e).Some? && Step(s, e).value.reg.deletions != s.reg.deletions
    ensures e.DeleteQp? && Step(s, e).value.reg == DeleteFirst(s.reg)
  {
  }

  lemma RunPc(t: seq<State>, n: nat)
    requires Run(t) && n < |t|
    ensures PcOk(t[n])
  {
    RunInv(t, n);
  }

  /** A queue pair is deleted only in an iteration whose two polls both came back empty,
      and only after it was swapped out. */
  lemma DeletedOnlyWhenIdle(t: seq<State>, n: nat, e: Event)
    requires Run(t) && n < |t| && Enabled(t[n], e)
    requires Step(t[n], e).Some? && Step(t[n], e).value.reg.deletions != t[n].reg.deletions
    ensures t[n].txRet == 0 && t[n].rxRet == 0 && t[n].reg.batch != []
    ensures Step(t[n], e).value.reg.deletions == t[n].reg.deletions + [t[n].reg.batch[0]]
  {
    OnlyDeleteQpDeletes(t[n], e);
    RunPc(t, n);
  }

  lemma EnqueueOwn(r: Registry, q: QpId)
    requires RegistryInv(r) && q in r.qps
    ensures EnqueueDead(r, r.qps[q].number).dead == if Registered(r, q) then r.dead + [q] else r.dead
  {
  }

  lemma FirstOk(s: State)
    requires TxOk(s) && s.pc.HandlingTx?
    ensures s.pc.batch != [] && BeaconOk(s.reg, s.pc.batch[0])
  {
  }

  lemma BeaconEffect(s: State)
    requires RegistryInv(s.reg) && s.pc.HandlingTx? && s.pc.batch != [] && s.pc.batch[0].Beacon? && BeaconOk(s.reg, s.pc.batch[0])
    ensures var q, r' := s.pc.batch[0].qp, Step(s, HandleTx).value.reg;
            q in s.reg.qps && s.reg.qps[q].dying && r'.dead == if Registered(s.reg, q) then s.reg.dead + [q] else s.reg.dead
  {
    EnqueueOwn(s.reg, s.pc.batch[0].qp);
  }

  /** A beacon moves its own, dying, queue pair and no other to the dead list. */
  lemma BeaconKillsItsOwn(t: seq<State>, n: nat)
    requires Run(t) && n < |t| && t[n].pc.HandlingTx? && t[n].pc.batch != [] && t[n].pc.batch[0].Beacon?
    ensures var q, r' := t[n].pc.batch[0].qp, Step(t[n], HandleTx).value.reg;
            q in t[n].reg.qps && t[n].reg.qps[q].dying
            && r'.dead == if Registered(t[n].reg, q) then t[n].reg.dead + [q] else t[n].reg.dead
  {
    RunInv(t, n);
    FirstOk(t[n]);
    BeaconEffect(t[n]);
  }

  // ---------- The exit test ----------

  ghost predicate Testing(pc: Pc) { pc.CountZero? || pc.DoneSeen? || pc.Exited? }

  /** What the dispatcher's destructor asserts. */
  ghost predicate NothingLeft(r: Registry) { r.conns == map[] && r.count == 0 && r.dead == [] }

  /** Only the polling thread moves itself. */
  lemma PcStays(s: State, e: Event)
    requires Enabled(s, e) && Step(s, e).Some? && !ByPolling(e)
    ensures Step(s, e).value.pc == s.pc
  {
  }

  /** The test goes on, or it has just begun with a count of zero. */
  lemma TestStep(s: State, e: Event)
    requires Enabled(s, e) && Step(s, e).Some? && Testing(Step(s, e).value.pc)
    ensures var s' := Step(s, e).value;
            || (Testing(s.pc) && s'.pc.at == s.pc.at)
            || (s.pc == Checking && s.reg.count == 0 && s'.pc.at == s.registered)
  {
    if !ByPolling(e) {
      PcStays(s, e);
    } else if e.PollRx? {
      PollRxStep(s, e);
    }
  }

  lemma TestBefore(t: seq<State>, n: nat)
    requires Run(t) && n < |t| && Testing(t[n].pc)
    ensures n > 0
    ensures || (Testing(t[n - 1].pc) && t[n].pc.at == t[n - 1].pc.at)
            || (t[n - 1].pc == Checking && t[n - 1].reg.count == 0 && t[n].pc.at == t[n - 1].registered)
  {
    assert n > 0 && Follows(t[n - 1], t[n]);
    var e :| Enabled(t[n - 1], e) && Step(t[n - 1], e) == Some(t[n]);
    TestStep(t[n - 1], e);
  }

  lemma {:induction false} TestBegan(t: seq<State>, n: nat) returns (m: nat)
    requires Run(t) && n < |t| && Testing(t[n].pc)
    ensures m < n && t[m].pc == Checking && t[m].reg.count == 0 && t[m].registered == t[n].pc.at
    ensures forall j :: m < j <= n ==> Testing(t[j].pc)
  {
    TestBefore(t, n);
    if Testing(t[n - 1].pc) { m := TestBegan(t, n - 1); } else { m := n - 1; }
  }

  /** Main result for the exit: the three unlocked reads of the test leave a gap. When the polling thread
      has ended, the destructor's assertions hold exactly if no queue pair was registered since that
      test read the count. */
  lemma ExitIff(t: seq<State>, n: nat) returns (m: nat)
    requires Run(t) && n < |t| && t[n].pc.Exited?
    ensures m < n && t[m].pc == Checking && t[m].reg.count == 0 && (forall j :: m < j <= n ==> Testing(t[j].pc))
    ensures NothingLeft(t[n].reg) <==> t[n].registered == t[m].registered
  {
    m := TestBegan(t, n);
    RunInv(t, n);
    assert ExitOk(t[n]);
  }
}
