/** The dispatcher and the receive path as objects whose fields the methods update. Every method
    is tied to the function of `QpRegistry`, `RxMemory` or `Dispatcher` that specifies it. */
module DispatcherObjects {
  import opened Common
  import opened QpRegistry
  import opened RxMemory
  import opened Dispatcher

  /** The book of queue pairs of `RDMADispatcher`. */
  class RdmaDispatcher {
    var qpConns: map<nat, Entry>
    var numQpConn: int
    var deadQueuePairs: seq<QpId>
    var deadQps: seq<QpId>
    var qps: map<QpId, QpInfo>
    ghost var deletions: seq<QpId>

    ghost function View(): Registry
      reads this
    {
      Registry(qpConns, numQpConn, deadQueuePairs, deadQps, qps, deletions)
    }

    constructor ()
      ensures View() == NoQps
    {
      qpConns, numQpConn, deadQueuePairs, deadQps, qps, deletions := map[], 0, [], [], map[], [];
    }

    /** `ok` is false when the assertion that the number is new fails. */
    method RegisterQp(q: QpId, number: nat, conn: SockId) returns (ok: bool)
      modifies this
      ensures ok == Register(old(View()), q, number, conn).Some?
      ensures View() == if ok then Register(old(View()), q, number, conn).value else old(View())
    {
      if number in qpConns { return false; }
      qpConns := qpConns[number := Entry(q, Some(conn))];
      qps := qps[q := QpInfo(number, false)];
      numQpConn := numQpConn + 1;
      ok := true;
    }

    method GetConnLockless(number: nat) returns (r: Option<SockId>)
      ensures r == GetConn(View(), number)
    {
      if number !in qpConns || qpConns[number].qp !in qps || qps[qpConns[number].qp].dying {
        return None;
      }
      r := qpConns[number].conn;
    }

    /** Searches the registered queue pairs, then the dead ones. */
    method GetQpLockless(number: nat) returns (r: Option<QpId>)
      ensures r == GetQp(View(), number)
    {
      if number in qpConns { return Some(qpConns[number].qp); }
      var i := 0;
      while i < |deadQueuePairs|
        invariant i <= |deadQueuePairs|
        invariant GetQp(View(), number) == FindDead(View(), number, i)
      {
        if deadQueuePairs[i] in qps && qps[deadQueuePairs[i]].number == number {
          return Some(deadQueuePairs[i]);
        }
        i := i + 1;
      }
      r := None;
    }

    method EnqueueDeadQp(number: nat)
      modifies this
      ensures View() == EnqueueDead(old(View()), number)
    {
      if number !in qpConns { return; }
      deadQueuePairs := deadQueuePairs + [qpConns[number].qp];
      qpConns := qpConns - {number};
      numQpConn := numQpConn - 1;
    }

    /** `toDeadOk` says whether the hardware accepts the error transition and the beacon. */
    method ScheduleQpDestroy(number: nat, toDeadOk: bool)
      modifies this
      ensures View() == ScheduleDestroy(old(View()), number, toDeadOk)
    {
      if number !in qpConns { return; }
      var e := qpConns[number];
      if e.qp !in qps { return; }
      if qps[e.qp].dying || toDeadOk {
        qps := qps[e.qp := qps[e.qp].(dying := true)];
        qpConns := qpConns[number := e.(conn := None)];
      } else {
        deadQueuePairs := deadQueuePairs + [e.qp];
        qpConns := qpConns - {number};
        numQpConn := numQpConn - 1;
      }
    }

    /** A batch of send completions. The lookup takes no lock: `there[i]` says whether the socket found for
        completion `i` still exists when it is called. `ok` is false when one that does not is called. */
    method HandleTxEvent(cqe: seq<TxEntry>, there: seq<bool>) returns (ok: bool)
      requires |there| == |cqe|
      modifies this
      ensures ok == HandleTxAll(old(View()), cqe, there).Some?
      ensures ok ==> View() == HandleTxAll(old(View()), cqe, there).value
    {
      var i := 0;
      assert cqe[0..] == cqe && there[0..] == there;
      while i < |cqe|
        invariant i <= |cqe| && HandleTxAll(old(View()), cqe, there) == HandleTxAll(View(), cqe[i..], there[i..])
      {
        assert cqe[i..][0] == cqe[i] && cqe[i..][1..] == cqe[i + 1..] && there[i..][0] == there[i] && there[i..][1..] == there[i + 1..];
        match cqe[i] {
          case Beacon(_, number) => EnqueueDeadQp(number);
          case Sent(_, number) =>
            var conn := GetConnLockless(number);
            if conn == None || !there[i] { return false; }
        }
        i := i + 1;
      }
      ok := true;
    }

    /** The idle branch of the polling loop; `stop` says whether the loop ends. The exit test reads the count
        first; `done` and `deadEmpty` are what its two later reads see, other threads not being locked out. */
    method IdleCleanup(done: bool, deadEmpty: bool) returns (stop: bool)
      requires deadQps == []
      modifies this
      ensures View() == DeleteAll(SwapDead(old(View())))
      ensures stop == (old(numQpConn) == 0 && done && deadEmpty)
    {
      if deadQueuePairs != [] {
        deadQueuePairs, deadQps := [], deadQueuePairs;
        while deadQps != []
          invariant deadQueuePairs == [] && numQpConn == old(numQpConn)
          invariant DeleteAll(View()) == DeleteAll(SwapDead(old(View())))
          decreases |deadQps|
        {
          qps := qps - {deadQps[0]};
          deletions := deletions + [deadQps[0]];
          deadQps := deadQps[1..];
        }
      }
      stop := numQpConn == 0 && done && deadEmpty;
    }
  }

  ghost function HandleTxOne(r: Registry, x: TxEntry, there: bool): Option<Registry> {
    match x
    case Beacon(_, number) => Some(EnqueueDead(r, number))
    case Sent(_, number) => if GetConn(r, number).None? || !there then None else Some(r)
  }

  ghost function HandleTxAll(r: Registry, xs: seq<TxEntry>, there: seq<bool>): Option<Registry>
    requires |there| == |xs|
    decreases |xs|
  {
    if xs == [] then Some(r)
    else
      match HandleTxOne(r, xs[0], there[0])
      case None => None
      case Some(r1) => HandleTxAll(r1, xs[1..], there[1..])
  }

  /** One turn of that loop is a lookup step and, whatever the other threads did since, a call step. */
  lemma TurnIsTwoSteps(s: State, s1: State)
    requires Inv(s) && Enabled(s, HandleTx) && s1.pc == Step(s, HandleTx).value.pc
    ensures var x := s.pc.batch[0];
            if x.Beacon? then forall there :: HandleTxOne(s.reg, x, there) == Some(Step(s, HandleTx).value.reg)
            else
              var there := s1.pc.conn.Some? && Exists(s1, s1.pc.conn.value);
              && Enabled(s1, CallTx) && Step(s, HandleTx).value.reg == s.reg
              && HandleTxOne(s.reg, x, there) == (if Step(s1, CallTx).Some? then Some(s.reg) else None)
  {
  }

  ghost function DeleteAll(r: Registry): Registry
    decreases |r.batch|
  {
    if r.batch == [] then r else DeleteAll(DeleteFirst(r))
  }

  /** The idle branch deletes exactly the queue pairs that were dead, each once. */
  lemma {:induction false} DeleteAllEffect(r: Registry)
    ensures var r' := DeleteAll(r);
            && r'.batch == [] && r'.conns == r.conns && r'.dead == r.dead
            && r'.deletions == r.deletions + r.batch
            && r'.qps.Keys == r.qps.Keys - (set q | q in r.batch)
    decreases |r.batch|
  {
    if r.batch == [] {
      assert r.deletions + [] == r.deletions;
    } else {
      DeleteAllEffect(DeleteFirst(r));
      assert r.batch == [r.batch[0]] + r.batch[1..];
      assert r.deletions + [r.batch[0]] + r.batch[1..] == r.deletions + r.batch;
    }
  }

  lemma {:induction false} DeleteAllInv(r: Registry)
    requires RegistryInv(r)
    ensures RegistryInv(DeleteAll(r))
    decreases |r.batch|
  {
    if r.batch != [] {
      DeleteInv(r);
      DeleteAllInv(DeleteFirst(r));
    }
  }

  /** However often beacons arrive, a queue pair is enqueued dead once: the dead list has no
      repeats and grows by what leaves the registered ones. */
  lemma {:induction false} BeaconsEnqueueOnce(r: Registry, xs: seq<TxEntry>, there: seq<bool>)
    requires RegistryInv(r) && |there| == |xs| && HandleTxAll(r, xs, there).Some?
    ensures var r' := HandleTxAll(r, xs, there).value;
            RegistryInv(r') && NoDup(r'.dead) && |r'.dead| - |r.dead| == |r.conns| - |r'.conns|
    decreases |xs|
  {
    if xs != [] {
      var r1 := HandleTxOne(r, xs[0], there[0]).value;
      if xs[0].Beacon? {
        EnqueueInv(r, xs[0].number);
        if xs[0].number in r.conns { assert r1.conns.Keys == r.conns.Keys - {xs[0].number}; }
      }
      BeaconsEnqueueOnce(r1, xs[1..], there[1..]);
    }
  }

  // ---------- The receive path ----------

  /** Completions gathered per socket before they are handed over. */
  type Polled = map<SockId, seq<Wc>>

  ghost function Flushed(m: Memory, p: Polled): Memory {
    m.(socks := map k | k in m.socks :: if k in p then m.socks[k].(wc := m.socks[k].wc + p[k]) else m.socks[k])
  }

  ghost function Gathered(p: Polled, k: SockId, w: Wc): Polled {
    p[k := (if k in p then p[k] else []) + [w]]
  }

  lemma GatherOne(socks: map<SockId, Lists>, m: Memory, p: Polled, k: SockId, w: Wc)
    requires k in m.socks && socks == Flushed(m, p).socks
    ensures socks[k := socks[k].(wc := socks[k].wc + [w])] == Flushed(m, Gathered(p, k, w)).socks
  {
    var a, b := socks[k := socks[k].(wc := socks[k].wc + [w])], Flushed(m, Gathered(p, k, w)).socks;
    assert a[k].wc == b[k].wc;
    assert a.Keys == b.Keys;
  }

  /** Posting and taking from a receive queue do not look at the sockets. */
  lemma QueuesIgnoreSocks(m: Memory, socks: map<SockId, Lists>, x: Completion, spare: Option<Chunk>)
    ensures RemoveRq(Post(m.(socks := socks), x.qp, spare), x.qp, x.chunk)
         == WithSocks(RemoveRq(Post(m, x.qp, spare), x.qp, x.chunk), socks)
    ensures WithSocks(RemoveRq(Post(m, x.qp, spare), x.qp, x.chunk), m.socks) == RemoveRq(Post(m, x.qp, spare), x.qp, x.chunk)
  {
  }

  /** Handing a completion over later is the same as handing it over at once. */
  lemma GatherThenFlush(m: Memory, p: Polled, x: Completion, k: SockId, spare: Option<Chunk>)
    requires k in m.socks
    ensures var m1 := RemoveRq(Post(m, x.qp, spare), x.qp, x.chunk);
            PassToSocket(Flushed(m, p), x, k, spare)
            == if m1.None? then None
               else Some(Flushed(m1.value.(owner := m1.value.owner[x.chunk := None]), Gathered(p, k, Wc(x.chunk, x.len))))
  {
    QueuesIgnoreSocks(m, Flushed(m, p).socks, x, spare);
    GatherOne(Flushed(m, p).socks, m, p, k, Wc(x.chunk, x.len));
  }

  lemma RecallFlushed(m: Memory, p: Polled, c: Chunk)
    ensures Recall(Flushed(m, p), c) == match Recall(m, c) case None => None case Some(m1) => Some(Flushed(m1, p))
  {
  }

  lemma {:induction false} WithoutAt(l: seq<Chunk>, c: Chunk, i: nat)
    requires i < |l| && l[i] == c && forall j :: 0 <= j < i ==> l[j] != c
    ensures Without(l, c) == l[..i] + l[i + 1..]
  {
    if i > 0 {
      WithoutAt(l[1..], c, i - 1);
      assert [l[0]] + (l[1..][..i - 1] + l[1..][i..]) == l[..i] + l[i + 1..];
    }
  }

  ghost function WithSocks(m: Option<Memory>, socks: map<SockId, Lists>): Option<Memory> {
    match m case None => None case Some(m1) => Some(m1.(socks := socks))
  }

  ghost function RecallAll(m: Memory, cs: seq<Chunk>): Option<Memory>
    decreases |cs|
  {
    if cs == [] then Some(m)
    else match Recall(m, cs[0]) case None => None case Some(m1) => RecallAll(m1, cs[1..])
  }

  lemma RecallKeepsSocks(m: Memory, c: Chunk, socks: map<SockId, Lists>)
    ensures Recall(m.(socks := socks), c) == WithSocks(Recall(m, c), socks)
    ensures Recall(m, c).Some? ==> Recall(m, c).value.socks == m.socks && Recall(m, c).value.rxcq == m.rxcq
  {
  }

  lemma {:induction false} RecallAllKeepsSocks(m: Memory, cs: seq<Chunk>, socks: map<SockId, Lists>)
    ensures RecallAll(m.(socks := socks), cs) == WithSocks(RecallAll(m, cs), socks)
    decreases |cs|
  {
    if cs != [] {
      RecallKeepsSocks(m, cs[0], socks);
      if Recall(m, cs[0]).Some? { RecallAllKeepsSocks(Recall(m, cs[0]).value, cs[1..], socks); }
    }
  }

  lemma ReturnOneCut(m: Memory, k: SockId)
    requires k in m.socks && m.socks[k].buffers != []
    ensures var bs := m.socks[k].buffers;
            ReturnBuffer(m, k) == WithSocks(Recall(m, bs[0].chunk), SetBuffers(m, k, bs[1..]).socks)
  {
    RecallKeepsSocks(m, m.socks[k].buffers[0].chunk, SetBuffers(m, k, m.socks[k].buffers[1..]).socks);
  }

  lemma CutTwice(m: Memory, m1: Memory, k: SockId, a: seq<Buf>, b: seq<Buf>)
    requires k in m.socks && m1.socks == SetBuffers(m, k, a).socks
    ensures SetBuffers(m1, k, b).socks == SetBuffers(m, k, b).socks && m1.socks[k].buffers == a
  {
  }

  lemma TailChunks(bs: seq<Buf>, n: nat)
    requires 0 < n <= |bs|
    ensures bs[1..][n - 1..] == bs[n..]
    ensures var cs := BufChunks(bs[..n]); cs != [] && cs[0] == bs[0].chunk && cs[1..] == BufChunks(bs[1..][..n - 1])
  {
  }

  /** Returning buffers one by one, and recalling them first and cutting the list afterwards. */
  lemma {:induction false} ReturnThenCut(m: Memory, k: SockId, n: nat)
    requires k in m.socks && n <= |m.socks[k].buffers|
    ensures ReturnBuffers(m, k, n)
         == WithSocks(RecallAll(m, BufChunks(m.socks[k].buffers[..n])), SetBuffers(m, k, m.socks[k].buffers[n..]).socks)
    decreases n
  {
    var bs := m.socks[k].buffers;
    if n == 0 {
      assert bs[0..] == bs && m.socks[k := m.socks[k]] == m.socks;
    } else {
      ReturnOneCut(m, k);
      TailChunks(bs, n);
      var r := ReturnBuffer(m, k);
      if r.Some? {
        CutTwice(m, r.value, k, bs[1..], bs[n..]);
        ReturnThenCut(r.value, k, n - 1);
        RecallAllKeepsSocks(Recall(m, bs[0].chunk).value, BufChunks(bs[..n])[1..], r.value.socks);
      }
    }
  }

  ghost function PrefetchAll(m: Memory, k: SockId): Option<Memory>
    requires k in m.socks
    decreases |m.socks[k].cqe|
  {
    if m.socks[k].cqe == [] then Some(m)
    else
      match PrefetchOne(m, k)
      case None => None
      case Some(m1) => if k in m1.socks && |m1.socks[k].cqe| < |m.socks[k].cqe| then PrefetchAll(m1, k) else None
  }

  /** The messages that carry data. */
  ghost function DataOf(ws: seq<Wc>): seq<Buf> {
    if ws == [] then []
    else (if ws[0].len == 0 then [] else [Buf(ws[0].chunk, ws[0].len)]) + DataOf(ws[1..])
  }

  lemma PrefetchShape(m: Memory, k: SockId)
    requires k in m.socks && m.socks[k].cqe != [] && PrefetchOne(m, k).Some?
    ensures var l := m.socks[k];
            PrefetchOne(m, k).value.socks == m.socks[k := l.(cqe := l.cqe[1..], buffers := l.buffers + DataOf(l.cqe[..1]))]
  {
    var l := m.socks[k];
    RecallKeepsSocks(m.(socks := m.socks[k := l.(cqe := l.cqe[1..])]), l.cqe[0].chunk, m.socks);
    assert DataOf(l.cqe[..1]) == if l.cqe[0].len == 0 then [] else [Buf(l.cqe[0].chunk, l.cqe[0].len)] by {
      assert l.cqe[..1][1..] == [];
    }
    assert l.buffers + [] == l.buffers;
  }

  lemma {:induction false} PrefetchAllSound(m: Memory, k: SockId)
    requires MemInv(m) && k in m.socks
    ensures PrefetchAll(m, k).Some? && MemInv(PrefetchAll(m, k).value)
    decreases |m.socks[k].cqe|
  {
    if m.socks[k].cqe != [] {
      PrefetchSound(m, k);
      PrefetchShape(m, k);
      PrefetchAllSound(PrefetchOne(m, k).value, k);
    }
  }

  /** Prefetching keeps the data messages in arrival order behind those already there. */
  lemma {:induction false} PrefetchAllEffect(m: Memory, k: SockId)
    requires k in m.socks && PrefetchAll(m, k).Some?
    ensures var l := m.socks[k];
            PrefetchAll(m, k).value.socks == m.socks[k := l.(cqe := [], buffers := l.buffers + DataOf(l.cqe))]
    decreases |m.socks[k].cqe|
  {
    var l := m.socks[k];
    if l.cqe == [] {
      assert l.(cqe := [], buffers := l.buffers + DataOf(l.cqe)) == l;
    } else {
      PrefetchShape(m, k);
      PrefetchAllEffect(PrefetchOne(m, k).value, k);
      assert l.cqe[..1][1..] == [];
      assert (l.buffers + DataOf(l.cqe[..1])) + DataOf(l.cqe[1..]) == l.buffers + DataOf(l.cqe);
    }
  }

  /** `read_buffers` as recalls followed by one cut of the list. */
  lemma ReadIsRecallThenCut(m: Memory, k: SockId, len: nat)
    requires k in m.socks
    ensures var bs := m.socks[k].buffers;
            UsedUp(bs, len) <= |bs| && ReadBuffers(m, k, len)
            == WithSocks(RecallAll(m, BufChunks(bs)[..UsedUp(bs, len)]), SetBuffers(m, k, LeftOver(bs, len)).socks)
  {
    var bs := m.socks[k].buffers;
    var n := UsedUp(bs, len);
    ReadAccounting(bs, len);
    ReturnThenCut(m, k, n);
    assert BufChunks(bs[..n]) == BufChunks(bs)[..n];
    assert SetBuffers(SetBuffers(m, k, bs[n..]), k, LeftOver(bs, len)).socks == SetBuffers(m, k, LeftOver(bs, len)).socks;
  }

  /** After `p` emptied buffers and `done` bytes, the rest of the read is a read of the rest. */
  ghost predicate ReadSoFar(bs: seq<Buf>, len: nat, p: nat, done: nat) {
    && p <= |bs| && done <= len
    && UsedUp(bs, len) == p + UsedUp(bs[p..], len - done)
    && Taken(bs, len) == done + Taken(bs[p..], len - done)
    && LeftOver(bs, len) == LeftOver(bs[p..], len - done)
  }

  ghost predicate ReadDone(bs: seq<Buf>, len: nat, p: nat, done: nat, left: seq<Buf>) {
    UsedUp(bs, len) == p && Taken(bs, len) == done && LeftOver(bs, len) == left
  }

  /** One turn of the read loop. */
  lemma ReadTurn(bs: seq<Buf>, len: nat, p: nat, done: nat)
    requires ReadSoFar(bs, len, p, done) && p < |bs|
    ensures bs[p].left < len - done ==> ReadSoFar(bs, len, p + 1, done + bs[p].left)
    ensures bs[p].left == len - done ==> ReadDone(bs, len, p + 1, len, bs[p + 1..])
    ensures bs[p].left > len - done ==>
              ReadDone(bs, len, p, len, bs[p := bs[p].(left := bs[p].left - (len - done))][p..])
  {
    assert bs[p..][1..] == bs[p + 1..];
  }

  lemma {:induction false} PostAllMore(m: Memory, q: QpId, cs: seq<Chunk>, c: Chunk)
    ensures PostAll(m, q, cs + [c]) == Post(PostAll(m, q, cs), q, Some(c))
    decreases |cs|
  {
    if cs == [] {
      assert [c][1..] == [];
      assert PostAll(Post(m, q, Some(c)), q, []) == Post(m, q, Some(c));
      assert [] + [c] == [c];
    } else {
      assert (cs + [c])[1..] == cs[1..] + [c];
      PostAllMore(Post(m, q, Some(cs[0])), q, cs[1..], c);
    }
  }

  lemma PoolHasMore(pool: multiset<Chunk>, cs: seq<Chunk>, c: Chunk)
    requires multiset(cs) <= pool && c in pool - multiset(cs)
    ensures multiset(cs + [c]) <= pool
  {
    assert multiset(cs + [c]) == multiset(cs) + multiset{c};
  }

  /** The registered chunks, the receive queues and the sockets' lists. */
  class RxPath {
    var pool: multiset<Chunk>
    var owner: map<Chunk, Option<QpId>>
    var rq: map<QpId, seq<Chunk>>
    var socks: map<SockId, Lists>
    var rxcq: seq<Completion>

    function View(): Memory
      reads this
    {
      Memory(pool, owner, rq, socks, rxcq)
    }

    constructor ()
      ensures View() == NoMemory
    {
      pool, owner, rq, socks, rxcq := multiset{}, map[], map[], map[], [];
    }

    /** Finds the chunk by a linear search and erases it; `ok` is false if the assertion fails. */
    method RemoveRqWr(q: QpId, c: Chunk) returns (ok: bool)
      modifies this
      ensures ok == RemoveRq(old(View()), q, c).Some?
      ensures View() == if ok then RemoveRq(old(View()), q, c).value else old(View())
    {
      if q !in rq { return false; }
      var l := rq[q];
      var i := 0;
      while i < |l| && l[i] != c
        invariant i <= |l| && forall j :: 0 <= j < i ==> l[j] != c
      {
        i := i + 1;
      }
      if i == |l| { return false; }
      WithoutAt(l, c, i);
      rq := rq[q := l[..i] + l[i + 1..]];
      ok := true;
    }

    method ReleaseRxBuffer(c: Chunk)
      modifies this
      ensures View() == Release(old(View()), c)
    {
      owner := owner[c := None];
      pool := pool + multiset{c};
    }

    method RecallChunkToPool(c: Chunk) returns (ok: bool)
      modifies this
      ensures ok == Recall(old(View()), c).Some?
      ensures View() == if ok then Recall(old(View()), c).value else old(View())
    {
      if c in owner && owner[c].Some? {
        ok := RemoveRqWr(owner[c].value, c);
        if !ok { return; }
      }
      ReleaseRxBuffer(c);
      ok := true;
    }

    /** Posts one receive with the chunk the pool hands out, if it hands out one. */
    method PostChunkToRq(q: QpId, spare: Option<Chunk>)
      modifies this
      ensures View() == Post(old(View()), q, spare)
    {
      if spare.None? || spare.value !in pool || q !in rq { return; }
      pool := pool - multiset{spare.value};
      owner := owner[spare.value := Some(q)];
      rq := rq[q := rq[q] + [spare.value]];
    }

    /** A completion for a live socket: a new receive is posted and the old one taken out. */
    method ReplaceReceive(x: Completion, spare: Option<Chunk>) returns (ok: bool)
      modifies this
      ensures var m1 := RemoveRq(Post(old(View()), x.qp, spare), x.qp, x.chunk);
              && ok == m1.Some? && socks == old(socks) && rxcq == old(rxcq)
              && (ok ==> View() == m1.value.(owner := m1.value.owner[x.chunk := None]))
    {
      PostChunkToRq(x.qp, spare);
      ok := RemoveRqWr(x.qp, x.chunk);
      if ok { owner := owner[x.chunk := None]; }
    }

    /** One receive completion: recalled, or replaced in the queue and gathered for its socket. */
    method HandleOneRx(d: RdmaDispatcher, x: Completion, spare: Option<Chunk>, polled: Polled) returns (ok: bool, polled': Polled)
      requires polled.Keys <= socks.Keys
      requires forall n :: n in d.qpConns && d.qpConns[n].conn.Some? ==> d.qpConns[n].conn.value in socks
      modifies this
      ensures socks == old(socks) && rxcq == old(rxcq) && polled'.Keys <= socks.Keys
      ensures HandleRx(d.View(), Flushed(old(View()), polled), x, spare)
           == if ok then Some(Flushed(View(), polled')) else None
    {
      polled' := polled;
      ghost var m := View();
      var conn := None;
      if x.qp in d.qps { conn := d.GetConnLockless(d.qps[x.qp].number); }
      if conn == None {
        RecallFlushed(m, polled, x.chunk);
        RecallKeepsSocks(m, x.chunk, socks);
        ok := RecallChunkToPool(x.chunk);
      } else {
        GatherThenFlush(m, polled, x, conn.value, spare);
        ok := ReplaceReceive(x, spare);
        if ok {
          polled' := polled[conn.value := (if conn.value in polled then polled[conn.value] else []) + [Wc(x.chunk, x.len)]];
        }
      }
    }

    /** Posts up to `num` receives with chunks taken from the pool. Nothing at all is reported back;
        a pool that runs out in between fails the assertion on the count. */
    method PostChunksToRq(q: QpId, num: nat) returns (ok: bool, posted: nat, ghost chunks: seq<Chunk>)
      requires q in rq
      modifies this
      ensures HandsOut(old(pool), num, chunks) && posted == |chunks| && View() == PostAll(old(View()), q, chunks)
      ensures rq == old(rq)[q := old(rq)[q] + chunks] && pool == old(pool) - multiset(chunks)
      ensures ok <==> !(0 < |old(pool)| < num)
    {
      posted, ok, chunks := 0, true, [];
      ghost var m := View();
      while posted < num && pool != multiset{}
        invariant posted == |chunks| && posted <= num && multiset(chunks) <= m.pool
        invariant View() == PostAll(m, q, chunks) && pool == m.pool - multiset(chunks)
        decreases num - posted
      {
        var c :| c in pool;
        PoolHasMore(m.pool, chunks, c);
        PostAllMore(m, q, chunks, c);
        PostAllExact(m, q, chunks + [c]);
        PostChunkToRq(q, Some(c));
        chunks := chunks + [c];
        posted := posted + 1;
      }
      PostAllExact(m, q, chunks);
      HandedOut(m.pool, num, chunks);
      if posted == 0 { return; }
      ok := posted == num;
    }

    /** A batch of receive completions: gathered per socket first, handed over at the end. */
    method HandleRxEvent(d: RdmaDispatcher, spares: seq<Option<Chunk>>) returns (ok: bool)
      requires |spares| <= |rxcq|
      requires forall n :: n in d.qpConns && d.qpConns[n].conn.Some? ==> d.qpConns[n].conn.value in socks
      modifies this
      ensures ok == HandleRxAll(old(d.View()), old(View()), spares).Some?
      ensures ok ==> View() == HandleRxAll(old(d.View()), old(View()), spares).value
    {
      var polled: Polled := map[];
      var i := 0;
      assert Flushed(View(), polled) == View() && spares[0..] == spares;
      while i < |spares|
        invariant i <= |spares| && polled.Keys <= socks.Keys && socks == old(socks) && |spares| - i <= |rxcq|
        invariant HandleRxAll(old(d.View()), old(View()), spares)
               == HandleRxAll(old(d.View()), Flushed(View(), polled), spares[i..])
      {
        assert spares[i..][0] == spares[i] && spares[i..][1..] == spares[i + 1..];
        var x := rxcq[0];
        ghost var f := Flushed(View(), polled);
        rxcq := rxcq[1..];
        assert Flushed(View(), polled) == f.(rxcq := f.rxcq[1..]);
        ok, polled := HandleOneRx(d, x, spares[i], polled);
        if !ok { return; }
        i := i + 1;
      }
      PassAll(polled);
      ok := true;
    }

    /** Appends each socket's gathered completions to its list, socket by socket. */
    method PassAll(polled: Polled)
      requires polled.Keys <= socks.Keys
      modifies this
      ensures View() == Flushed(old(View()), polled)
    {
      var todo := polled.Keys;
      while todo != {}
        invariant todo <= polled.Keys && socks.Keys == old(socks).Keys
        invariant View() == old(View()).(socks := socks)
        invariant forall k :: k in socks && k in polled && k !in todo ==>
          socks[k] == old(socks)[k].(wc := old(socks)[k].wc + polled[k])
        invariant forall k :: k in socks && (k !in polled || k in todo) ==> socks[k] == old(socks)[k]
        decreases todo
      {
        var k :| k in todo;
        PassWc(k, polled[k]);
        todo := todo - {k};
      }
    }

    method PassWc(k: SockId, v: seq<Wc>)
      requires k in socks
      modifies this`socks
      ensures socks == old(socks)[k := old(socks)[k].(wc := old(socks)[k].wc + v)]
    {
      if socks[k].wc == [] {
        assert [] + v == v;
        socks := socks[k := socks[k].(wc := v)];
      } else {
        socks := socks[k := socks[k].(wc := socks[k].wc + v)];
      }
    }

    /** `cqe` is the caller's own, empty, list. */
    method FetchWc(k: SockId)
      requires k in socks
      modifies this`socks
      ensures View() == GetWc(old(View()), k)
    {
      if socks[k].wc == [] { return; }
      socks := socks[k := socks[k].(wc := socks[k].cqe, cqe := socks[k].wc)];
    }

    method BufferPrefetch(k: SockId) returns (ok: bool)
      requires k in socks && socks[k].cqe == []
      modifies this
      ensures ok == PrefetchAll(GetWc(old(View()), k), k).Some?
      ensures ok ==> View() == PrefetchAll(GetWc(old(View()), k), k).value
    {
      FetchWc(k);
      while socks[k].cqe != []
        invariant k in socks
        invariant PrefetchAll(View(), k) == PrefetchAll(GetWc(old(View()), k), k)
        decreases |socks[k].cqe|
      {
        var w := socks[k].cqe[0];
        var l := socks[k];
        if w.len == 0 {
          socks := socks[k := l.(cqe := l.cqe[1..])];
          RecallKeepsSocks(View(), w.chunk, socks);
          ok := RecallChunkToPool(w.chunk);
          if !ok { return; }
        } else {
          socks := socks[k := l.(cqe := l.cqe[1..], buffers := l.buffers + [Buf(w.chunk, w.len)])];
        }
      }
      ok := true;
    }

    /** Everything received so far goes back unread. */
    method Drain(k: SockId) returns (ok: bool)
      requires k in socks && socks[k].cqe == []
      modifies this
      ensures var m := old(View()); var r := RecallAll(m, WcChunks(m.socks[k].wc));
              ok == r.Some? && (ok ==> View() == r.value.(socks := m.socks[k := m.socks[k].(wc := [])]))
    {
      FetchWc(k);
      var cqe := socks[k].cqe;
      socks := socks[k := socks[k].(cqe := [])];
      ghost var m0, cs := View(), WcChunks(cqe);
      RecallAllKeepsSocks(old(View()), cs, socks);
      var i := 0;
      assert cs[0..] == cs;
      while i < |cqe|
        invariant i <= |cqe| && socks == m0.socks
        invariant RecallAll(m0, cs) == RecallAll(View(), cs[i..])
      {
        assert cs[i..][0] == cqe[i].chunk && cs[i..][1..] == cs[i + 1..];
        RecallKeepsSocks(View(), cqe[i].chunk, socks);
        ok := RecallChunkToPool(cqe[i].chunk);
        if !ok { return; }
        i := i + 1;
      }
      ok := true;
    }

    /** Reads from one buffer; one that is emptied goes back to the pool. */
    method ReadOneBuffer(k: SockId, p: nat, want: nat) returns (ok: bool, got: nat, emptied: bool)
      requires k in socks && p < |socks[k].buffers|
      modifies this
      ensures var m, b := old(View()), old(socks)[k].buffers[p];
              && got == (if b.left < want then b.left else want) && emptied == (b.left == got)
              && (emptied ==> ok == Recall(m, b.chunk).Some? && (ok ==> View() == Recall(m, b.chunk).value && socks == m.socks))
              && (!emptied ==> ok && View() == SetBuffers(m, k, m.socks[k].buffers[p := b.(left := b.left - got)]))
    {
      var b := socks[k].buffers[p];
      got := if b.left < want then b.left else want;
      emptied := b.left == got;
      if emptied {
        RecallKeepsSocks(View(), b.chunk, socks);
        ok := RecallChunkToPool(b.chunk);
      } else {
        socks := socks[k := socks[k].(buffers := socks[k].buffers[p := b.(left := b.left - got)])];
        ok := true;
      }
    }

    /** The read loop: empties buffers in order until `len` bytes are taken. */
    method ReadLoop(k: SockId, len: nat) returns (ok: bool, readSize: nat, p: nat)
      requires k in socks && UsedUp(socks[k].buffers, len) <= |socks[k].buffers|
      modifies this
      ensures var m, bs := old(View()), old(socks)[k].buffers;
              var r := RecallAll(m, BufChunks(bs)[..UsedUp(bs, len)]);
              && ok == r.Some?
              && (ok ==> k in socks && p <= |socks[k].buffers|
                         && ReadDone(bs, len, p, readSize, socks[k].buffers[p..])
                         && View() == r.value.(socks := SetBuffers(m, k, socks[k].buffers).socks))
    {
      ghost var bs, m0 := socks[k].buffers, View();
      ghost var cs, n := BufChunks(bs), UsedUp(bs, len);
      readSize, p := 0, 0;
      assert bs[0..] == bs && m0.socks[k := m0.socks[k]] == m0.socks;
      while p < |socks[k].buffers|
        invariant ReadSoFar(bs, len, p, readSize) && p <= n
        invariant socks == m0.socks && RecallAll(m0, cs[..n]) == RecallAll(View(), cs[p..n])
        decreases |bs| - p
      {
        ReadTurn(bs, len, p, readSize);
        assert bs[p].left <= len - readSize ==> p < n && cs[p..n][0] == cs[p] && cs[p..n][1..] == cs[p + 1..n];
        var got, emptied;
        ok, got, emptied := ReadOneBuffer(k, p, len - readSize);
        if !ok { return; }
        readSize := readSize + got;
        if emptied { p := p + 1; }
        if readSize == len { break; }
      }
      ok := true;
    }

    /** The loop, then one cut that drops the emptied buffers. */
    method ReadBuffersLoop(k: SockId, len: nat) returns (ok: bool, readSize: nat)
      requires k in socks
      modifies this
      ensures ok == ReadBuffers(old(View()), k, len).Some?
      ensures ok ==> View() == ReadBuffers(old(View()), k, len).value
      ensures ok ==> readSize == if len <= Available(old(socks)[k].buffers) then len else Available(old(socks)[k].buffers)
    {
      ReadAccounting(socks[k].buffers, len);
      ReadIsRecallThenCut(View(), k, len);
      var p;
      ok, readSize, p := ReadLoop(k, len);
      if ok { socks := socks[k := socks[k].(buffers := socks[k].buffers[p..])]; }
    }

    /** Deleting a queue pair releases what its receive queue still holds. */
    method DestroyQueuePair(q: QpId)
      requires q in rq
      modifies this
      ensures View() == Destroy(old(View()), q)
    {
      var left := rq[q];
      rq, rxcq := rq - {q}, NotOf(rxcq, q);
      var i := 0;
      while i < |left|
        invariant i <= |left| && ReleaseAll(View(), left[i..]) == Destroy(old(View()), q)
      {
        assert left[i..][0] == left[i] && left[i..][1..] == left[i + 1..];
        ReleaseRxBuffer(left[i]);
        i := i + 1;
      }
    }
  }
}
