/** Where received messages go: to the list of their own socket, in order, and from there to the reader. */
module RxDelivery {
  import opened Common
  import opened QpRegistry
  import opened RxMemory
  import opened Dispatcher
  import opened DispatcherObjects
  import opened OrderlyClose

  /** The socket that a completion is for. */
  ghost function ConnOf(r: Registry, x: Completion): Option<SockId> {
    if x.qp in r.qps then GetConn(r, r.qps[x.qp].number) else None
  }

  ghost predicate Without1(l: seq<Chunk>, c: Chunk, l': seq<Chunk>) {
    exists i :: 0 <= i < |l| && l[i] == c && l' == l[..i] + l[i + 1..]
  }

  lemma {:induction false} FirstAt(l: seq<Chunk>, c: Chunk) returns (i: nat)
    requires c in l
    ensures i < |l| && l[i] == c && forall j :: 0 <= j < i ==> l[j] != c
  {
    if l[0] == c {
      i := 0;
    } else {
      i := FirstAt(l[1..], c);
      i := i + 1;
    }
  }

  lemma WithoutIs(l: seq<Chunk>, c: Chunk)
    requires c in l
    ensures Without1(l, c, Without(l, c))
  {
    var i := FirstAt(l, c);
    WithoutAt(l, c, i);
  }

  /** The chunk that replaces a received one, if the pool has it. */
  ghost function Replacement(m: Memory, spare: Option<Chunk>): seq<Chunk> {
    if spare.Some? && spare.value in m.pool then [spare.value] else []
  }

  ghost predicate Pollable(r: Registry, m: Memory) {
    && MemInv(m) && m.rq.Keys == r.qps.Keys
    && forall n :: n in r.conns && r.conns[n].conn.Some? ==> r.conns[n].conn.value in m.socks
  }

  lemma PostIs(m: Memory, q: QpId, spare: Option<Chunk>)
    requires q in m.rq
    ensures var m1, more := Post(m, q, spare), Replacement(m, spare);
            && m1.rq == m.rq[q := m.rq[q] + more] && m1.pool == m.pool - multiset(more)
            && m1.owner == (if more == [] then m.owner else m.owner[more[0] := Some(q)])
            && m1.socks == m.socks && m1.rxcq == m.rxcq
  {
    if Replacement(m, spare) == [] { assert m.rq[q] + [] == m.rq[q]; }
  }

  /** A message for a live socket goes to the end of that socket's list and to no other; its chunk leaves the
      receive queue, and a spare one from the pool goes to that queue's end. */
  lemma LiveDelivered(r: Registry, m: Memory, x: Completion, k: SockId, spare: Option<Chunk>)
    requires x.qp in m.rq && x.chunk in m.rq[x.qp] && k in m.socks && ConnOf(r, x) == Some(k)
    ensures HandleRx(r, m, x, spare).Some?
    ensures var m', more := HandleRx(r, m, x, spare).value, Replacement(m, spare);
            && m'.socks == m.socks[k := m.socks[k].(wc := m.socks[k].wc + [Wc(x.chunk, x.len)])]
            && m'.rq.Keys == m.rq.Keys && Without1(m.rq[x.qp] + more, x.chunk, m'.rq[x.qp])
            && (forall q :: q in m.rq && q != x.qp ==> m'.rq[q] == m.rq[q])
            && m'.pool == m.pool - multiset(more) && m'.rxcq == m.rxcq
            && m'.owner == (if more == [] then m.owner else m.owner[more[0] := Some(x.qp)])[x.chunk := None]
  {
    var m1 := Post(m, x.qp, spare);
    PostIs(m, x.qp, spare);
    assert x.chunk in m1.rq[x.qp];
    WithoutIs(m1.rq[x.qp], x.chunk);
    PassIsHandOver(m, x, k, spare);
  }

  /** A message for a socket that is not there goes back to the pool, and no socket notices. */
  lemma DeadRecalled(r: Registry, m: Memory, x: Completion, spare: Option<Chunk>)
    requires x.qp in m.rq && x.chunk in m.rq[x.qp] && x.chunk in m.owner && m.owner[x.chunk] == Some(x.qp) && ConnOf(r, x) == None
    ensures HandleRx(r, m, x, spare).Some?
    ensures var m' := HandleRx(r, m, x, spare).value;
            && m'.socks == m.socks && m'.pool == m.pool + multiset{x.chunk} && m'.owner == m.owner[x.chunk := None]
            && m'.rq.Keys == m.rq.Keys && Without1(m.rq[x.qp], x.chunk, m'.rq[x.qp])
            && (forall q :: q in m.rq && q != x.qp ==> m'.rq[q] == m.rq[q]) && m'.rxcq == m.rxcq
  {
    WithoutIs(m.rq[x.qp], x.chunk);
  }

  lemma CompletionPosted(m: Memory)
    requires MemInv(m) && m.rxcq != []
    ensures var x := m.rxcq[0]; x.qp in m.rq && x.chunk in m.rq[x.qp] && x.chunk in m.owner && m.owner[x.chunk] == Some(x.qp)
  {
    var w: Account :| Sound(m, w);
    PolledSound(m, w);
    var x := m.rxcq[0];
    assert Holds(m.rq[x.qp], w, InRq(x.qp));
  }

  /** One completion taken off the queue: what it does to the sockets' lists. */
  ghost function Passed(socks: map<SockId, Lists>, r: Registry, x: Completion): map<SockId, Lists> {
    var conn := ConnOf(r, x);
    if conn.Some? && conn.value in socks then
      socks[conn.value := socks[conn.value].(wc := socks[conn.value].wc + [Wc(x.chunk, x.len)])]
    else socks
  }

  lemma OneHandled(r: Registry, m: Memory, spare: Option<Chunk>)
    requires Pollable(r, m) && m.rxcq != []
    ensures var m' := HandleRx(r, m.(rxcq := m.rxcq[1..]), m.rxcq[0], spare);
            && m'.Some? && Pollable(r, m'.value) && m'.value.rxcq == m.rxcq[1..]
            && m'.value.socks == Passed(m.socks, r, m.rxcq[0])
  {
    var x, m0 := m.rxcq[0], m.(rxcq := m.rxcq[1..]);
    CompletionPosted(m);
    HandleRxSound(r, m, spare);
    match ConnOf(r, x) {
      case None => DeadRecalled(r, m0, x, spare);
      case Some(k) => LiveDelivered(r, m0, x, k, spare);
    }
  }

  /** The completions of a batch that are for socket `k`, in order. */
  ghost function Own(r: Registry, xs: seq<Completion>, k: SockId): seq<Wc> {
    if xs == [] then []
    else (if ConnOf(r, xs[0]) == Some(k) then [Wc(xs[0].chunk, xs[0].len)] else []) + Own(r, xs[1..], k)
  }

  lemma PassedIs(socks: map<SockId, Lists>, r: Registry, x: Completion, k: SockId)
    requires k in socks
    ensures Passed(socks, r, x).Keys == socks.Keys
    ensures Passed(socks, r, x)[k] == socks[k].(wc := socks[k].wc + Own(r, [x], k))
  {
    assert Own(r, [x], k) == if ConnOf(r, x) == Some(k) then [Wc(x.chunk, x.len)] else [] by {
      assert [x][1..] == [];
    }
    if ConnOf(r, x) != Some(k) { assert socks[k].wc + [] == socks[k].wc; }
  }

  /** A batch: each socket's list grows by exactly its own completions, in order, and nothing else changes in it. */
  lemma {:induction false} BatchDelivered(r: Registry, m: Memory, sp: seq<Option<Chunk>>, k: SockId)
    requires Pollable(r, m) && |sp| <= |m.rxcq| && k in m.socks
    ensures var m' := HandleRxAll(r, m, sp);
            && m'.Some? && m'.value.rxcq == m.rxcq[|sp|..] && m'.value.socks.Keys == m.socks.Keys
            && m'.value.socks[k] == m.socks[k].(wc := m.socks[k].wc + Own(r, m.rxcq[..|sp|], k))
    decreases |sp|
  {
    if sp == [] {
      assert m.socks[k].wc + [] == m.socks[k].wc;
    } else {
      OneHandled(r, m, sp[0]);
      HandleRxAllStep(r, m, sp);
      var m1 := HandleRx(r, m.(rxcq := m.rxcq[1..]), m.rxcq[0], sp[0]).value;
      PassedIs(m.socks, r, m.rxcq[0], k);
      BatchDelivered(r, m1, sp[1..], k);
      OwnFirst(r, m.rxcq, |sp|, k);
      Concat(m.socks[k].wc, Own(r, [m.rxcq[0]], k), Own(r, m1.rxcq[..|sp| - 1], k));
    }
  }

  lemma OwnFirst(r: Registry, xs: seq<Completion>, n: nat, k: SockId)
    requires 0 < n <= |xs|
    ensures Own(r, xs[..n], k) == Own(r, [xs[0]], k) + Own(r, xs[1..][..n - 1], k)
    ensures xs[1..][n - 1..] == xs[n..]
  {
    assert xs[..n][1..] == xs[1..][..n - 1] && [xs[0]][1..] == [];
  }

  // ---------- A socket's data in order ----------

  /** What the reader of a socket has before it: buffers first, then what is being prefetched, then what
      has been passed on. */
  ghost function Unread(l: Lists): seq<Buf> { l.buffers + DataOf(l.cqe) + DataOf(l.wc) }

  lemma {:induction false} DataOfBoth(a: seq<Wc>, b: seq<Wc>)
    ensures DataOf(a + b) == DataOf(a) + DataOf(b)
  {
    if a == [] {
      assert a + b == b;
    } else {
      assert (a + b)[1..] == a[1..] + b;
      DataOfBoth(a[1..], b);
    }
  }

  /** The event works on the lists of socket `k`. */
  ghost predicate Works(e: Event, k: SockId) {
    match e
    case Fetch(s) => s == k
    case Prefetch(s) => s == k
    case Drain(s) => s == k
    case ReadData(s, _) => s == k
    case CloseWc(s) => s == k
    case CloseBuffer(s) => s == k
    case CloseEnd(s) => s == k
    case PollRx(_, _) => true
    case _ => false
  }

  lemma PostAllKeepsSocks(m: Memory, q: QpId, cs: seq<Chunk>)
    ensures PostAll(m, q, cs).socks == m.socks
    decreases |cs|
  {
    if cs != [] { PostAllKeepsSocks(Post(m, q, Some(cs[0])), q, cs[1..]); }
  }

  lemma {:induction false} ReleaseAllKeepsSocks(m: Memory, cs: seq<Chunk>)
    ensures ReleaseAll(m, cs).socks == m.socks
    decreases |cs|
  {
    if cs != [] { ReleaseAllKeepsSocks(Release(m, cs[0]), cs[1..]); }
  }

  lemma ReturnBuffersOther(m: Memory, s: SockId, n: nat, k: SockId)
    requires s in m.socks && n <= |m.socks[s].buffers| && ReturnBuffers(m, s, n).Some? && k in m.socks && k != s
    ensures k in ReturnBuffers(m, s, n).value.socks && ReturnBuffers(m, s, n).value.socks[k] == m.socks[k]
    decreases n
  {
    if n > 0 { ReturnBuffersOther(ReturnBuffer(m, s).value, s, n - 1, k); }
  }

  lemma ListsOfOthers(s: State, e: Event, k: SockId)
    requires Enabled(s, e) && Step(s, e).Some? && k in s.mem.socks && !Works(e, k)
    requires e.Fetch? || e.Prefetch? || e.Drain? || e.ReadData? || e.CloseWc? || e.CloseBuffer? || e.CloseEnd?
    ensures k in Step(s, e).value.mem.socks && Step(s, e).value.mem.socks[k] == s.mem.socks[k]
  {
    if e.ReadData? { ReturnBuffersOther(s.mem, e.sock, UsedUp(s.mem.socks[e.sock].buffers, e.n), k); }
  }

  /** Nothing else touches a socket's lists. */
  lemma ListsStay(s: State, e: Event, k: SockId)
    requires Enabled(s, e) && Step(s, e).Some? && k in s.mem.socks && !Works(e, k) && (e.Create? ==> e.sock != k)
    ensures k in Step(s, e).value.mem.socks && Step(s, e).value.mem.socks[k] == s.mem.socks[k]
  {
    match e {
      case Create(k', q, _, _, cs) =>
        PostAllKeepsSocks(s.mem.(rq := s.mem.rq[q := []], socks := s.mem.socks[k' := Lists([], [], [])]), q, cs);
      case DeleteQp =>
        var q := s.reg.batch[0];
        ReleaseAllKeepsSocks(s.mem.(rq := s.mem.rq - {q}, rxcq := NotOf(s.mem.rxcq, q)), s.mem.rq[q]);
      case _ =>
        if e.Fetch? || e.Prefetch? || e.Drain? || e.ReadData? || e.CloseWc? || e.CloseBuffer? || e.CloseEnd? { ListsOfOthers(s, e, k); }
    }
  }

  /** What an event adds to the unread data of socket `k`, and how many bytes it takes. */
  ghost function Arriving(s: State, e: Event, k: SockId): seq<Buf> {
    if e.PollRx? && e.n <= |s.mem.rxcq| then DataOf(Own(s.reg, s.mem.rxcq[..e.n], k)) else []
  }

  ghost function BytesRead(s: State, e: Event, k: SockId): nat {
    if e.ReadData? && e.sock == k && k in s.mem.socks then
      var all := Available(s.mem.socks[k].buffers);
      if e.n <= all then e.n else all
    else 0
  }

  /** The data of `d` comes behind what was unread, `taken` bytes leave at the front, and nothing else happens. */
  ghost predicate InOrder(before: seq<Buf>, d: seq<Buf>, taken: nat, after: seq<Buf>) {
    && Available(after) + taken == Available(before) + Available(d)
    && |after| <= |before + d| && BufChunks(after) == BufChunks((before + d)[|before + d| - |after|..])
  }

  lemma {:induction false} AvailableBoth(a: seq<Buf>, b: seq<Buf>)
    ensures Available(a + b) == Available(a) + Available(b)
  {
    if a == [] {
      assert a + b == b;
    } else {
      assert (a + b)[1..] == a[1..] + b;
      AvailableBoth(a[1..], b);
    }
  }

  lemma AddedInOrder(before: seq<Buf>, d: seq<Buf>)
    ensures InOrder(before, d, 0, before + d)
  {
    AvailableBoth(before, d);
    assert (before + d)[0..] == before + d;
  }

  lemma NothingInOrder(before: seq<Buf>)
    ensures InOrder(before, [], 0, before)
  {
    var all := before + [];
    assert all == before;
    assert all[|all| - |before|..] == before;
  }

  lemma PollInOrder(s: State, e: Event, k: SockId)
    requires Inv(s) && Enabled(s, e) && e.PollRx? && k in s.mem.socks
    ensures Step(s, e).Some? && k in Step(s, e).value.mem.socks
    ensures Unread(Step(s, e).value.mem.socks[k]) == Unread(s.mem.socks[k]) + Arriving(s, e, k)
  {
    ConnsInSocks(s);
    BatchDelivered(s.reg, s.mem, e.spares, k);
    PollRxStep(s, e);
    var l := s.mem.socks[k];
    DataOfBoth(l.wc, Own(s.reg, s.mem.rxcq[..e.n], k));
    Concat(l.buffers + DataOf(l.cqe), DataOf(l.wc), Arriving(s, e, k));
  }

  lemma PrefetchInOrder(s: State, e: Event, k: SockId)
    requires Enabled(s, e) && Step(s, e).Some? && (e == Fetch(k) || e == Prefetch(k))
    ensures k in Step(s, e).value.mem.socks && Unread(Step(s, e).value.mem.socks[k]) == Unread(s.mem.socks[k])
  {
    var l := s.mem.socks[k];
    if e.Fetch? {
      assert l.buffers + DataOf(l.wc) + DataOf(l.cqe) == l.buffers + DataOf(l.cqe) + DataOf(l.wc);
    } else {
      PrefetchShape(s.mem, k);
      assert l.cqe == l.cqe[..1] + l.cqe[1..];
      DataOfBoth(l.cqe[..1], l.cqe[1..]);
      Concat(l.buffers, DataOf(l.cqe[..1]), DataOf(l.cqe[1..]));
    }
  }

  lemma LeftOverInOrder(bs: seq<Buf>, rest: seq<Buf>, n: nat)
    ensures InOrder(bs + rest, [], if n <= Available(bs) then n else Available(bs), LeftOver(bs, n) + rest)
  {
    ReadAccounting(bs, n);
    AvailableBoth(bs, rest);
    AvailableBoth(LeftOver(bs, n), rest);
    var all, after := bs + rest, LeftOver(bs, n) + rest;
    assert all + [] == all;
    assert all[|all| - |after|..] == bs[UsedUp(bs, n)..] + rest;
    ChunksOfBoth(bs[UsedUp(bs, n)..], rest);
    ChunksOfBoth(LeftOver(bs, n), rest);
  }

  lemma ChunksOfBoth(a: seq<Buf>, b: seq<Buf>)
    ensures BufChunks(a + b) == BufChunks(a) + BufChunks(b)
  {
  }

  lemma ReadLists(m: Memory, k: SockId, n: nat)
    requires MemInv(m) && k in m.socks
    ensures ReadBuffers(m, k, n).Some? && k in ReadBuffers(m, k, n).value.socks
    ensures ReadBuffers(m, k, n).value.socks[k] == m.socks[k].(buffers := LeftOver(m.socks[k].buffers, n))
  {
    ReadBuffersSound(m, k, n);
    ReadIsRecallThenCut(m, k, n);
  }

  lemma ReadInOrder(s: State, e: Event, k: SockId)
    requires MemInv(s.mem) && Enabled(s, e) && e.ReadData? && e.sock == k
    ensures Step(s, e).Some? && k in Step(s, e).value.mem.socks
    ensures InOrder(Unread(s.mem.socks[k]), [], BytesRead(s, e, k), Unread(Step(s, e).value.mem.socks[k]))
  {
    ReadLists(s.mem, k, e.n);
    var l := s.mem.socks[k];
    LeftOverInOrder(l.buffers, DataOf(l.cqe) + DataOf(l.wc), e.n);
    Concat(l.buffers, DataOf(l.cqe), DataOf(l.wc));
    Concat(LeftOver(l.buffers, e.n), DataOf(l.cqe), DataOf(l.wc));
  }

  /** The socket stays open and throws nothing away unread. */
  ghost predicate Reads(e: Event, k: SockId) { !(e.Drain? && e.sock == k) && !(e.CloseStart? && e.sock == k) }

  /** Every event keeps an open socket's data in order. */
  lemma StepInOrder(s: State, e: Event, k: SockId)
    requires Inv(s) && Enabled(s, e) && Step(s, e).Some? && k in s.open && k in s.mem.socks && Reads(e, k)
    ensures k in Step(s, e).value.open && k in Step(s, e).value.mem.socks
    ensures InOrder(Unread(s.mem.socks[k]), Arriving(s, e, k), BytesRead(s, e, k), Unread(Step(s, e).value.mem.socks[k]))
  {
    OpenStays(s, e, k);
    if e.PollRx? {
      PollInOrder(s, e, k);
      AddedInOrder(Unread(s.mem.socks[k]), Arriving(s, e, k));
    } else if e.ReadData? && e.sock == k {
      ReadInOrder(s, e, k);
    } else {
      NothingInOrder(Unread(s.mem.socks[k]));
      OpenNotClosing(s, k);
      UnreadStays(s, e, k);
    }
  }

  lemma OpenNotClosing(s: State, k: SockId)
    requires Fits(s) && k in s.open
    ensures k !in s.closing
  {
  }

  lemma UnreadStays(s: State, e: Event, k: SockId)
    requires Enabled(s, e) && Step(s, e).Some? && k in s.open && k !in s.closing && k in s.mem.socks && Reads(e, k)
    requires !e.PollRx? && !(e.ReadData? && e.sock == k)
    ensures k in Step(s, e).value.mem.socks && Unread(Step(s, e).value.mem.socks[k]) == Unread(s.mem.socks[k])
  {
    if e == Fetch(k) || e == Prefetch(k) { PrefetchInOrder(s, e, k); } else { ListsStay(s, e, k); }
  }

  lemma ChunkSuffix(xs: seq<Buf>, n: nat)
    requires n <= |xs|
    ensures BufChunks(xs[n..]) == BufChunks(xs)[n..]
  {
  }

  lemma InOrderOn(b: seq<Buf>, d1: seq<Buf>, t1: nat, m: seq<Buf>, d2: seq<Buf>, t2: nat, a: seq<Buf>)
    requires InOrder(b, d1, t1, m) && InOrder(m, d2, t2, a)
    ensures InOrder(b, d1 + d2, t1 + t2, a)
  {
    AvailableBoth(d1, d2);
    var u, v, w := b + d1, m + d2, b + (d1 + d2);
    Concat(b, d1, d2);
    assert w == u + d2;
    ChunksOfBoth(m, d2);
    ChunksOfBoth(u, d2);
    ChunkSuffix(u, |u| - |m|);
    ChunkSuffix(v, |v| - |a|);
    ChunkSuffix(w, |w| - |a|);
    assert BufChunks(v) == BufChunks(w)[|u| - |m|..];
  }

  ghost function AllArriving(s: State, es: seq<Event>, k: SockId): seq<Buf>
    requires Play(s, es).Some?
    decreases |es|
  {
    if es == [] then [] else Arriving(s, es[0], k) + AllArriving(Step(s, es[0]).value, es[1..], k)
  }

  ghost function AllBytesRead(s: State, es: seq<Event>, k: SockId): nat
    requires Play(s, es).Some?
    decreases |es|
  {
    if es == [] then 0 else BytesRead(s, es[0], k) + AllBytesRead(Step(s, es[0]).value, es[1..], k)
  }

  ghost predicate StreamKept(s: State, es: seq<Event>, k: SockId)
    requires Play(s, es).Some? && k in s.mem.socks
  {
    var s' := Play(s, es).value;
    && k in s'.mem.socks
    && InOrder(Unread(s.mem.socks[k]), AllArriving(s, es, k), AllBytesRead(s, es, k), Unread(s'.mem.socks[k]))
  }

  lemma StreamUnfolds(s: State, es: seq<Event>, k: SockId)
    requires Play(s, es).Some? && es != []
    ensures var s1 := Step(s, es[0]).value;
            && Play(s, es) == Play(s1, es[1..])
            && AllArriving(s, es, k) == Arriving(s, es[0], k) + AllArriving(s1, es[1..], k)
            && AllBytesRead(s, es, k) == BytesRead(s, es[0], k) + AllBytesRead(s1, es[1..], k)
  {
  }

  lemma StreamOneMore(s: State, es: seq<Event>, k: SockId)
    requires Play(s, es).Some? && es != [] && k in s.mem.socks
    requires var s1 := Step(s, es[0]).value;
             && k in s1.mem.socks && StreamKept(s1, es[1..], k)
             && InOrder(Unread(s.mem.socks[k]), Arriving(s, es[0], k), BytesRead(s, es[0], k), Unread(s1.mem.socks[k]))
    ensures StreamKept(s, es, k)
  {
    StreamUnfolds(s, es, k);
    var s1 := Step(s, es[0]).value;
    InOrderOn(Unread(s.mem.socks[k]), Arriving(s, es[0], k), BytesRead(s, es[0], k), Unread(s1.mem.socks[k]),
              AllArriving(s1, es[1..], k), AllBytesRead(s1, es[1..], k), Unread(Play(s1, es[1..]).value.mem.socks[k]));
  }

  lemma FollowsInv(s: State, e: Event)
    requires Inv(s) && Enabled(s, e) && Step(s, e).Some?
    ensures Inv(Step(s, e).value)
  {
    StepOrCrash(s, e);
    StepInv(s, e);
  }

  lemma OpenHasLists(s: State, k: SockId)
    requires Inv(s) && k in s.open
    ensures k in s.mem.socks
  {
  }

  /** Main result for data: as long as a socket is open and drains nothing, what it has unread is what it
      had and what arrived for it since, in the order of arrival, less the bytes it has read from the front. */
  lemma {:induction false} DataInOrder(s: State, es: seq<Event>, k: SockId)
    requires Inv(s) && Play(s, es).Some? && k in s.open && forall e :: e in es ==> Reads(e, k)
    ensures k in s.mem.socks && StreamKept(s, es, k)
    decreases |es|
  {
    OpenHasLists(s, k);
    if es == [] {
      NothingInOrder(Unread(s.mem.socks[k]));
    } else {
      assert es[0] in es;
      StepInOrder(s, es[0], k);
      FollowsInv(s, es[0]);
      DataInOrder(Step(s, es[0]).value, es[1..], k);
      StreamOneMore(s, es, k);
    }
  }
}
