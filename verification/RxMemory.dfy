/** Receive chunks: where each one is, and the operations that move it between the pool,
    a queue pair's receive queue, and a socket's completion and buffer lists. */
module RxMemory {
  import opened Common
  import opened QpRegistry

  type Chunk = nat

  /** A polled completion, and a chunk with the number of its bytes still unread. */
  datatype Wc = Wc(chunk: Chunk, len: nat)
  datatype Buf = Buf(chunk: Chunk, left: nat)

  /** A receive the hardware has completed and nobody has polled. */
  datatype Completion = Completion(qp: QpId, chunk: Chunk, len: nat)

  /** `cqe` is the list that `buffer_prefetch` has taken out of `wc`. */
  datatype Lists = Lists(wc: seq<Wc>, cqe: seq<Wc>, buffers: seq<Buf>)

  /** `owner` is each chunk's queue pair field; its keys are all the chunks there are. */
  datatype Memory = Memory(
    pool: multiset<Chunk>, owner: map<Chunk, Option<QpId>>, rq: map<QpId, seq<Chunk>>,
    socks: map<SockId, Lists>, rxcq: seq<Completion>)

  const NoMemory := Memory(multiset{}, map[], map[], map[], [])

  // ---------- Operations ----------

  function Without<T(==)>(s: seq<T>, x: T): seq<T> {
    if s == [] then [] else if s[0] == x then s[1..] else [s[0]] + Without(s[1..], x)
  }

  function Release(m: Memory, c: Chunk): Memory {
    m.(owner := m.owner[c := None], pool := m.pool + multiset{c})
  }

  /** `None` is the failed assertion that the chunk is in the receive queue. */
  function RemoveRq(m: Memory, q: QpId, c: Chunk): Option<Memory> {
    if q !in m.rq || c !in m.rq[q] then None else Some(m.(rq := m.rq[q := Without(m.rq[q], c)]))
  }

  function Recall(m: Memory, c: Chunk): Option<Memory> {
    if c in m.owner && m.owner[c].Some? then
      match RemoveRq(m, m.owner[c].value, c)
      case None => None
      case Some(m1) => Some(Release(m1, c))
    else Some(Release(m, c))
  }

  /** Posts one receive, if the pool has a chunk to give. */
  function Post(m: Memory, q: QpId, spare: Option<Chunk>): Memory {
    if spare.None? || spare.value !in m.pool || q !in m.rq then m
    else m.(pool := m.pool - multiset{spare.value}, owner := m.owner[spare.value := Some(q)],
            rq := m.rq[q := m.rq[q] + [spare.value]])
  }

  function PostAll(m: Memory, q: QpId, cs: seq<Chunk>): Memory
    decreases |cs|
  {
    if cs == [] then m else PostAll(Post(m, q, Some(cs[0])), q, cs[1..])
  }

  /** A successful receive for a live connection. */
  function PassToSocket(m: Memory, x: Completion, s: SockId, spare: Option<Chunk>): Option<Memory> {
    match RemoveRq(Post(m, x.qp, spare), x.qp, x.chunk)
    case None => None
    case Some(m1) =>
      if s !in m1.socks then None
      else
        Some(m1.(owner := m1.owner[x.chunk := None],
                 socks := m1.socks[s := m1.socks[s].(wc := m1.socks[s].wc + [Wc(x.chunk, x.len)])]))
  }

  function GetWc(m: Memory, s: SockId): Memory
    requires s in m.socks
  {
    if m.socks[s].wc == [] then m else m.(socks := m.socks[s := m.socks[s].(wc := m.socks[s].cqe, cqe := m.socks[s].wc)])
  }

  /** One turn of the prefetch loop: an empty message goes back, data is kept for reading. */
  function PrefetchOne(m: Memory, s: SockId): Option<Memory>
    requires s in m.socks && m.socks[s].cqe != []
  {
    var l := m.socks[s];
    var w := l.cqe[0];
    if w.len == 0 then Recall(m.(socks := m.socks[s := l.(cqe := l.cqe[1..])]), w.chunk)
    else Some(m.(socks := m.socks[s := l.(cqe := l.cqe[1..], buffers := l.buffers + [Buf(w.chunk, w.len)])]))
  }

  /** One turn of draining: the chunk goes back unread. */
  function DrainOne(m: Memory, s: SockId): Option<Memory>
    requires s in m.socks && m.socks[s].cqe != []
  {
    var l := m.socks[s];
    Recall(m.(socks := m.socks[s := l.(cqe := l.cqe[1..])]), l.cqe[0].chunk)
  }

  /** The whole buffers that a read of `len` bytes uses up, and what is left of the next. */
  function UsedUp(bs: seq<Buf>, len: nat): nat {
    if bs == [] || bs[0].left > len then 0
    else if bs[0].left == len then 1
    else 1 + UsedUp(bs[1..], len - bs[0].left)
  }

  function Taken(bs: seq<Buf>, len: nat): nat {
    if bs == [] then 0
    else if bs[0].left >= len then len
    else bs[0].left + Taken(bs[1..], len - bs[0].left)
  }

  function LeftOver(bs: seq<Buf>, len: nat): seq<Buf> {
    if bs == [] then []
    else if bs[0].left > len then [bs[0].(left := bs[0].left - len)] + bs[1..]
    else if bs[0].left == len then bs[1..]
    else LeftOver(bs[1..], len - bs[0].left)
  }

  function Available(bs: seq<Buf>): nat {
    if bs == [] then 0 else bs[0].left + Available(bs[1..])
  }

  /** Gives the first `n` buffers back, one after another. */
  function ReturnBuffers(m: Memory, s: SockId, n: nat): Option<Memory>
    requires s in m.socks && n <= |m.socks[s].buffers|
    decreases n
  {
    if n == 0 then Some(m)
    else
      match ReturnBuffer(m, s)
      case None => None
      case Some(m1) =>
        if s in m1.socks && n - 1 <= |m1.socks[s].buffers| then ReturnBuffers(m1, s, n - 1) else None
  }

  function ReturnBuffer(m: Memory, s: SockId): Option<Memory>
    requires s in m.socks && m.socks[s].buffers != []
  {
    var l := m.socks[s];
    Recall(m.(socks := m.socks[s := l.(buffers := l.buffers[1..])]), l.buffers[0].chunk)
  }

  function ReturnWc(m: Memory, s: SockId): Option<Memory>
    requires s in m.socks && m.socks[s].wc != []
  {
    var l := m.socks[s];
    Recall(m.(socks := m.socks[s := l.(wc := l.wc[1..])]), l.wc[0].chunk)
  }

  function SetBuffers(m: Memory, s: SockId, bs: seq<Buf>): Memory
    requires s in m.socks
  {
    m.(socks := m.socks[s := m.socks[s].(buffers := bs)])
  }

  function NotOf(xs: seq<Completion>, q: QpId): seq<Completion> {
    if xs == [] then [] else if xs[0].qp == q then NotOf(xs[1..], q) else [xs[0]] + NotOf(xs[1..], q)
  }

  function ReleaseAll(m: Memory, cs: seq<Chunk>): Memory
    decreases |cs|
  {
    if cs == [] then m else ReleaseAll(Release(m, cs[0]), cs[1..])
  }

  /** Deleting a queue pair: the hardware drops its unpolled completions,
      then every chunk still in the receive queue is released. */
  function Destroy(m: Memory, q: QpId): Memory
    requires q in m.rq
  {
    ReleaseAll(m.(rq := m.rq - {q}, rxcq := NotOf(m.rxcq, q)), m.rq[q])
  }

  // ---------- Places ----------

  datatype Place = InPool | InRq(q: QpId) | InWc(s: SockId) | InCqe(s: SockId) | InBuffers(s: SockId)

  ghost function WcChunks(ws: seq<Wc>): seq<Chunk> { seq(|ws|, i requires 0 <= i < |ws| => ws[i].chunk) }

  ghost function BufChunks(bs: seq<Buf>): seq<Chunk> { seq(|bs|, i requires 0 <= i < |bs| => bs[i].chunk) }

  ghost predicate In(m: Memory, c: Chunk, p: Place) {
    match p
    case InPool => c in m.pool
    case InRq(q) => q in m.rq && c in m.rq[q]
    case InWc(s) => s in m.socks && c in WcChunks(m.socks[s].wc)
    case InCqe(s) => s in m.socks && c in WcChunks(m.socks[s].cqe)
    case InBuffers(s) => s in m.socks && c in BufChunks(m.socks[s].buffers)
  }

  /** No list names a chunk twice, and the pool has no chunk twice. */
  ghost predicate NoRepeats(m: Memory) {
    && (forall c :: m.pool[c] <= 1)
    && (forall q :: q in m.rq ==> NoDup(m.rq[q]))
    && (forall s :: s in m.socks ==>
          NoDup(WcChunks(m.socks[s].wc)) && NoDup(WcChunks(m.socks[s].cqe)) && NoDup(BufChunks(m.socks[s].buffers)))
  }

  /** Every chunk is in exactly one place, once, and its queue pair field says whether it is posted. */
  ghost predicate OnePlaceEach(m: Memory) {
    && NoRepeats(m)
    && (forall c :: c in m.owner ==> exists p :: In(m, c, p))
    && (forall c, p, p' :: In(m, c, p) && In(m, c, p') ==> p == p')
    && (forall c, p :: In(m, c, p) ==> c in m.owner && m.owner[c] == if p.InRq? then Some(p.q) else None)
  }

  // An explicit account of where every chunk is, which the proofs carry along.
  type Account = map<Chunk, Place>

  /** List `l` holds exactly the chunks that `w` puts at `p`, once each. */
  ghost predicate Holds(l: seq<Chunk>, w: Account, p: Place) {
    NoDup(l) && forall c {:trigger c in l} :: c in l <==> c in w && w[c] == p
  }

  ghost predicate SockHolds(l: Lists, w: Account, s: SockId) {
    Holds(WcChunks(l.wc), w, InWc(s)) && Holds(WcChunks(l.cqe), w, InCqe(s)) && Holds(BufChunks(l.buffers), w, InBuffers(s))
  }

  ghost predicate PoolPlaced(pool: multiset<Chunk>, w: Account) {
    forall c :: pool[c] == if c in w && w[c] == InPool then 1 else 0
  }

  ghost predicate RqPlaced(rq: map<QpId, seq<Chunk>>, w: Account) {
    && (forall q :: q in rq ==> Holds(rq[q], w, InRq(q)))
    && (forall c :: c in w && w[c].InRq? ==> w[c].q in rq)
  }

  ghost predicate SocksPlaced(socks: map<SockId, Lists>, w: Account) {
    && (forall s :: s in socks ==> SockHolds(socks[s], w, s))
    && (forall c :: c in w && OnSocket(w[c]) ==> w[c].s in socks)
  }

  ghost predicate OnSocket(p: Place) { p.InWc? || p.InCqe? || p.InBuffers? }

  ghost predicate Placed(m: Memory, w: Account) {
    PoolPlaced(m.pool, w) && RqPlaced(m.rq, w) && SocksPlaced(m.socks, w)
  }

  ghost predicate OwnerIsQueue(m: Memory, w: Account) {
    w.Keys == m.owner.Keys
    && forall c {:trigger m.owner[c]} :: c in w ==> m.owner[c] == if w[c].InRq? then Some(w[c].q) else None
  }

  /** Unpolled completions are for chunks still posted, one each. */
  ghost predicate CompletionsPosted(m: Memory, w: Account) {
    && (forall i :: 0 <= i < |m.rxcq| ==> m.rxcq[i].chunk in w && w[m.rxcq[i].chunk] == InRq(m.rxcq[i].qp))
    && (forall i, j :: 0 <= i < j < |m.rxcq| ==> m.rxcq[i].chunk != m.rxcq[j].chunk)
  }

  ghost predicate Sound(m: Memory, w: Account) {
    Placed(m, w) && OwnerIsQueue(m, w) && CompletionsPosted(m, w)
  }

  lemma InIsPlace(m: Memory, w: Account, c: Chunk, p: Place)
    requires Sound(m, w)
    ensures In(m, c, p) <==> c in w && w[c] == p
  {
    match p
    case InPool =>
    case InRq(q) => assert q in m.rq ==> Holds(m.rq[q], w, InRq(q));
    case InWc(s) => assert s in m.socks ==> SockHolds(m.socks[s], w, s);
    case InCqe(s) => assert s in m.socks ==> SockHolds(m.socks[s], w, s);
    case InBuffers(s) => assert s in m.socks ==> SockHolds(m.socks[s], w, s);
  }

  lemma SoundIsOnePlaceEach(m: Memory, w: Account)
    requires Sound(m, w)
    ensures OnePlaceEach(m)
  {
    forall c, p
      ensures In(m, c, p) <==> c in w && w[c] == p
    {
      InIsPlace(m, w, c, p);
    }
    forall c | c in m.owner
      ensures exists p :: In(m, c, p)
    {
      assert In(m, c, w[c]);
    }
    assert forall s :: s in m.socks ==> SockHolds(m.socks[s], w, s);
  }

  // ---------- Lists ----------

  /** Moving `c` elsewhere does not disturb a list it was not on. */
  lemma HoldsOther(l: seq<Chunk>, w: Account, p: Place, c: Chunk, p': Place)
    requires Holds(l, w, p) && (c !in w || w[c] != p) && p' != p
    ensures Holds(l, w[c := p'], p)
  {
  }

  lemma {:induction false} WithoutOne<T>(s: seq<T>, x: T)
    requires NoDup(s)
    ensures NoDup(Without(s, x)) && forall y :: y in Without(s, x) <==> y in s && y != x
  {
    if s != [] {
      assert s == [s[0]] + s[1..];
      assert s[0] !in s[1..];
      WithoutOne(s[1..], x);
    }
  }

  lemma HoldsWithout(l: seq<Chunk>, w: Account, p: Place, c: Chunk, p': Place)
    requires Holds(l, w, p) && p' != p
    ensures Holds(Without(l, c), w[c := p'], p)
  {
    WithoutOne(l, c);
  }

  lemma HoldsTail(l: seq<Chunk>, w: Account, p: Place, p': Place)
    requires Holds(l, w, p) && p' != p && l != []
    ensures l[0] in w && w[l[0]] == p && Holds(l[1..], w[l[0] := p'], p)
  {
    assert l == [l[0]] + l[1..];
    assert l[0] in l && l[0] !in l[1..];
    assert forall c :: c in l[1..] <==> c in l && c != l[0];
  }

  lemma HoldsMore(l: seq<Chunk>, w: Account, p: Place, c: Chunk)
    requires Holds(l, w, p) && (c !in w || w[c] != p)
    ensures Holds(l + [c], w[c := p], p)
  {
    assert c !in l;
    assert forall x :: x in l + [c] <==> x in l || x == c;
  }

  lemma ListEnds(ws: seq<Wc>, x: Wc, bs: seq<Buf>, b: Buf)
    ensures WcChunks(ws + [x]) == WcChunks(ws) + [x.chunk] && BufChunks(bs + [b]) == BufChunks(bs) + [b.chunk]
    ensures ws != [] ==> WcChunks(ws[1..]) == WcChunks(ws)[1..] && WcChunks(ws)[0] == ws[0].chunk
    ensures bs != [] ==> BufChunks(bs[1..]) == BufChunks(bs)[1..] && BufChunks(bs)[0] == bs[0].chunk
  {
  }

  // ---------- Each operation moves the chunks it should ----------

  lemma PoolGains(pool: multiset<Chunk>, w: Account, c: Chunk)
    requires PoolPlaced(pool, w) && c in w && w[c] != InPool
    ensures PoolPlaced(pool + multiset{c}, w[c := InPool])
  {
  }

  lemma PoolLoses(pool: multiset<Chunk>, w: Account, c: Chunk, p: Place)
    requires PoolPlaced(pool, w) && c in w && w[c] == InPool && p != InPool
    ensures PoolPlaced(pool - multiset{c}, w[c := p])
  {
  }

  lemma PoolKeeps(pool: multiset<Chunk>, w: Account, c: Chunk, p: Place)
    requires PoolPlaced(pool, w) && c in w && w[c] != InPool && p != InPool
    ensures PoolPlaced(pool, w[c := p])
  {
  }

  lemma RqKeeps(rq: map<QpId, seq<Chunk>>, w: Account, c: Chunk, p: Place)
    requires RqPlaced(rq, w) && c in w && !w[c].InRq? && !p.InRq?
    ensures RqPlaced(rq, w[c := p])
  {
    forall q | q in rq
      ensures Holds(rq[q], w[c := p], InRq(q))
    {
      HoldsOther(rq[q], w, InRq(q), c, p);
    }
  }

  lemma RqLoses(rq: map<QpId, seq<Chunk>>, w: Account, c: Chunk, p: Place)
    requires RqPlaced(rq, w) && c in w && w[c].InRq? && !p.InRq?
    ensures w[c].q in rq && c in rq[w[c].q]
    ensures RqPlaced(rq[w[c].q := Without(rq[w[c].q], c)], w[c := p])
  {
    forall q | q in rq
      ensures Holds(if q == w[c].q then Without(rq[q], c) else rq[q], w[c := p], InRq(q))
    {
      if q == w[c].q { HoldsWithout(rq[q], w, InRq(q), c, p); } else { HoldsOther(rq[q], w, InRq(q), c, p); }
    }
  }

  lemma RqGains(rq: map<QpId, seq<Chunk>>, w: Account, c: Chunk, q0: QpId)
    requires RqPlaced(rq, w) && c in w && !w[c].InRq? && q0 in rq
    ensures RqPlaced(rq[q0 := rq[q0] + [c]], w[c := InRq(q0)])
  {
    forall q | q in rq
      ensures Holds(if q == q0 then rq[q] + [c] else rq[q], w[c := InRq(q0)], InRq(q))
    {
      if q == q0 { HoldsMore(rq[q], w, InRq(q), c); } else { HoldsOther(rq[q], w, InRq(q), c, InRq(q0)); }
    }
  }

  lemma SockHoldsOther(l: Lists, w: Account, s: SockId, c: Chunk, p: Place)
    requires SockHolds(l, w, s) && c in w
    requires OnSocket(w[c]) ==> w[c].s != s
    requires OnSocket(p) ==> p.s != s
    ensures SockHolds(l, w[c := p], s)
  {
    HoldsOther(WcChunks(l.wc), w, InWc(s), c, p);
    HoldsOther(WcChunks(l.cqe), w, InCqe(s), c, p);
    HoldsOther(BufChunks(l.buffers), w, InBuffers(s), c, p);
  }

  /** Socket `s`'s lists become `l`; the other sockets' lists stay. */
  lemma SocksChange(socks: map<SockId, Lists>, w: Account, s: SockId, l: Lists, c: Chunk, p: Place)
    requires SocksPlaced(socks, w) && c in w && s in socks && SockHolds(l, w[c := p], s)
    requires (OnSocket(w[c]) ==> w[c].s == s) && (OnSocket(p) ==> p.s == s)
    ensures SocksPlaced(socks[s := l], w[c := p])
  {
    forall x | x in socks && x != s
      ensures SockHolds(socks[x], w[c := p], x)
    {
      SockHoldsOther(socks[x], w, x, c, p);
    }
  }

  lemma SocksKeep(socks: map<SockId, Lists>, w: Account, c: Chunk, p: Place)
    requires SocksPlaced(socks, w) && c in w && !OnSocket(w[c]) && !OnSocket(p)
    ensures SocksPlaced(socks, w[c := p])
  {
    forall x | x in socks
      ensures SockHolds(socks[x], w[c := p], x)
    {
      SockHoldsOther(socks[x], w, x, c, p);
    }
  }

  /** No unpolled completion names `c`. */
  ghost predicate NotCompleted(m: Memory, c: Chunk) {
    forall i :: 0 <= i < |m.rxcq| ==> m.rxcq[i].chunk != c
  }

  function OwnerAt(p: Place): Option<QpId> { if p.InRq? then Some(p.q) else None }

  /** The fields that do not hold lists. */
  lemma FieldsFollow(m: Memory, m': Memory, w: Account, c: Chunk, p: Place)
    requires OwnerIsQueue(m, w) && CompletionsPosted(m, w) && c in w && (w[c].InRq? ==> NotCompleted(m, c))
    requires m'.owner == m.owner[c := OwnerAt(p)] && m'.rxcq == m.rxcq
    ensures OwnerIsQueue(m', w[c := p]) && CompletionsPosted(m', w[c := p])
  {
  }

  /** Recalling a posted chunk takes it out of its queue; the assertion there holds. */
  lemma RecallPosted(m: Memory, w: Account, c: Chunk)
    requires Sound(m, w) && c in w && w[c].InRq? && NotCompleted(m, c)
    ensures Recall(m, c).Some? && Sound(Recall(m, c).value, w[c := InPool])
    ensures var m' := Recall(m, c).value; m'.socks == m.socks && m'.rxcq == m.rxcq && m'.rq.Keys == m.rq.Keys
  {
    RqLoses(m.rq, w, c, InPool);
    PoolGains(m.pool, w, c);
    SocksKeep(m.socks, w, c, InPool);
    FieldsFollow(m, Recall(m, c).value, w, c, InPool);
  }

  lemma ListedPlaces(m: Memory, w: Account, s: SockId, l: Lists, c: Chunk)
    requires Placed(m, w) && s in m.socks && c in w && OnSocket(w[c]) && w[c].s == s
    requires SockHolds(l, w[c := InPool], s)
    ensures Placed(Release(m.(socks := m.socks[s := l]), c), w[c := InPool])
  {
    RqKeeps(m.rq, w, c, InPool);
    PoolGains(m.pool, w, c);
    SocksChange(m.socks, w, s, l, c, InPool);
  }

  /** A chunk on one of a socket's lists goes back to the pool, leaving lists `l`. */
  lemma RecallListed(m: Memory, w: Account, s: SockId, l: Lists, c: Chunk)
    requires Sound(m, w) && s in m.socks && c in w && OnSocket(w[c]) && w[c].s == s
    requires SockHolds(l, w[c := InPool], s)
    ensures var m1 := m.(socks := m.socks[s := l]);
            Recall(m1, c) == Some(Release(m1, c)) && Sound(Release(m1, c), w[c := InPool])
  {
    var m1 := m.(socks := m.socks[s := l]);
    ListedPlaces(m, w, s, l, c);
    FieldsFollow(m, Release(m1, c), w, c, InPool);
  }

  lemma PostPlaces(m: Memory, w: Account, q: QpId, c: Chunk)
    requires Placed(m, w) && q in m.rq && c in w && w[c] == InPool && c in m.pool
    ensures Placed(Post(m, q, Some(c)), w[c := InRq(q)])
  {
    PoolLoses(m.pool, w, c, InRq(q));
    RqGains(m.rq, w, c, q);
    SocksKeep(m.socks, w, c, InRq(q));
  }

  /** The account after a post: the spare chunk, if there was one, is in the queue. */
  ghost function Posted(m: Memory, w: Account, q: QpId, spare: Option<Chunk>): Account {
    if spare.Some? && spare.value in m.pool then w[spare.value := InRq(q)] else w
  }

  lemma PostMoves(m: Memory, w: Account, q: QpId, spare: Option<Chunk>)
    requires Sound(m, w) && q in m.rq
    ensures Sound(Post(m, q, spare), Posted(m, w, q, spare))
    ensures var m' := Post(m, q, spare); m'.rxcq == m.rxcq && m'.socks == m.socks && m'.rq.Keys == m.rq.Keys
    ensures forall c :: c in w && w[c] != InPool ==> Posted(m, w, q, spare)[c] == w[c]
  {
    if spare.Some? && spare.value in m.pool {
      var c := spare.value;
      assert m.pool[c] >= 1;
      PostPlaces(m, w, q, c);
      FieldsFollow(m, Post(m, q, spare), w, c, InRq(q));
    }
  }

  lemma WcGains(l: Lists, w: Account, s: SockId, x: Wc)
    requires SockHolds(l, w, s) && x.chunk in w && !OnSocket(w[x.chunk])
    ensures SockHolds(l.(wc := l.wc + [x]), w[x.chunk := InWc(s)], s)
  {
    ListEnds(l.wc, x, l.buffers, Buf(x.chunk, 0));
    HoldsMore(WcChunks(l.wc), w, InWc(s), x.chunk);
    HoldsOther(WcChunks(l.cqe), w, InCqe(s), x.chunk, InWc(s));
    HoldsOther(BufChunks(l.buffers), w, InBuffers(s), x.chunk, InWc(s));
  }

  /** The second half of handing a chunk over, once the replacement is posted. */
  function HandOver(m: Memory, x: Completion, s: SockId): Memory
    requires x.qp in m.rq && s in m.socks
  {
    m.(rq := m.rq[x.qp := Without(m.rq[x.qp], x.chunk)], owner := m.owner[x.chunk := None],
       socks := m.socks[s := m.socks[s].(wc := m.socks[s].wc + [Wc(x.chunk, x.len)])])
  }

  lemma HandOverPlaces(m: Memory, w: Account, x: Completion, s: SockId)
    requires Placed(m, w) && x.chunk in w && w[x.chunk] == InRq(x.qp) && s in m.socks
    ensures x.qp in m.rq && x.chunk in m.rq[x.qp]
    ensures Placed(HandOver(m, x, s), w[x.chunk := InWc(s)])
  {
    RqLoses(m.rq, w, x.chunk, InWc(s));
    PoolKeeps(m.pool, w, x.chunk, InWc(s));
    WcGains(m.socks[s], w, s, Wc(x.chunk, x.len));
    SocksChange(m.socks, w, s, m.socks[s].(wc := m.socks[s].wc + [Wc(x.chunk, x.len)]), x.chunk, InWc(s));
  }

  lemma HandOverSound(m: Memory, w: Account, x: Completion, s: SockId)
    requires Sound(m, w) && x.chunk in w && w[x.chunk] == InRq(x.qp) && NotCompleted(m, x.chunk) && s in m.socks
    ensures x.qp in m.rq && x.chunk in m.rq[x.qp]
    ensures Sound(HandOver(m, x, s), w[x.chunk := InWc(s)])
  {
    HandOverPlaces(m, w, x, s);
    FieldsFollow(m, HandOver(m, x, s), w, x.chunk, InWc(s));
  }

  lemma PassIsHandOver(m: Memory, x: Completion, s: SockId, spare: Option<Chunk>)
    requires var m1 := Post(m, x.qp, spare); x.qp in m1.rq && x.chunk in m1.rq[x.qp] && s in m1.socks
    ensures PassToSocket(m, x, s, spare) == Some(HandOver(Post(m, x.qp, spare), x, s))
    ensures var m1 := Post(m, x.qp, spare); var m' := HandOver(m1, x, s);
            m'.rq.Keys == m1.rq.Keys && m'.socks.Keys == m1.socks.Keys && m'.rxcq == m1.rxcq
  {
  }

  /** Handing a completed chunk to its live socket: the assertion in the queue holds. */
  lemma PassMoves(m: Memory, w: Account, x: Completion, s: SockId, spare: Option<Chunk>)
    requires Sound(m, w) && x.chunk in w && w[x.chunk] == InRq(x.qp) && x.qp in m.rq && NotCompleted(m, x.chunk) && s in m.socks
    ensures var m' := PassToSocket(m, x, s, spare);
            m'.Some? && Sound(m'.value, Posted(m, w, x.qp, spare)[x.chunk := InWc(s)])
            && m'.value.rq.Keys == m.rq.Keys && m'.value.socks.Keys == m.socks.Keys && m'.value.rxcq == m.rxcq
  {
    PostMoves(m, w, x.qp, spare);
    HandOverSound(Post(m, x.qp, spare), Posted(m, w, x.qp, spare), x, s);
    PassIsHandOver(m, x, s, spare);
  }

  // ---------- A socket's own lists ----------

  lemma CqeTail(l: Lists, w: Account, s: SockId, p: Place)
    requires SockHolds(l, w, s) && l.cqe != [] && !OnSocket(p)
    ensures var c := l.cqe[0].chunk; c in w && w[c] == InCqe(s) && SockHolds(l.(cqe := l.cqe[1..]), w[c := p], s)
  {
    var c := l.cqe[0].chunk;
    ListEnds(l.cqe, l.cqe[0], l.buffers, Buf(c, 0));
    HoldsTail(WcChunks(l.cqe), w, InCqe(s), p);
    HoldsOther(WcChunks(l.wc), w, InWc(s), c, p);
    HoldsOther(BufChunks(l.buffers), w, InBuffers(s), c, p);
  }

  lemma WcTail(l: Lists, w: Account, s: SockId, p: Place)
    requires SockHolds(l, w, s) && l.wc != [] && !OnSocket(p)
    ensures var c := l.wc[0].chunk; c in w && w[c] == InWc(s) && SockHolds(l.(wc := l.wc[1..]), w[c := p], s)
  {
    var c := l.wc[0].chunk;
    ListEnds(l.wc, l.wc[0], l.buffers, Buf(c, 0));
    HoldsTail(WcChunks(l.wc), w, InWc(s), p);
    HoldsOther(WcChunks(l.cqe), w, InCqe(s), c, p);
    HoldsOther(BufChunks(l.buffers), w, InBuffers(s), c, p);
  }

  lemma BuffersTail(l: Lists, w: Account, s: SockId, p: Place)
    requires SockHolds(l, w, s) && l.buffers != [] && !OnSocket(p)
    ensures var c := l.buffers[0].chunk; c in w && w[c] == InBuffers(s) && SockHolds(l.(buffers := l.buffers[1..]), w[c := p], s)
  {
    var c := l.buffers[0].chunk;
    ListEnds(l.wc, Wc(c, 0), l.buffers, l.buffers[0]);
    HoldsTail(BufChunks(l.buffers), w, InBuffers(s), p);
    HoldsOther(WcChunks(l.wc), w, InWc(s), c, p);
    HoldsOther(WcChunks(l.cqe), w, InCqe(s), c, p);
  }

  lemma CqeToBuffers(l: Lists, w: Account, s: SockId)
    requires SockHolds(l, w, s) && l.cqe != []
    ensures var x := l.cqe[0];
            x.chunk in w && w[x.chunk] == InCqe(s)
            && SockHolds(l.(cqe := l.cqe[1..], buffers := l.buffers + [Buf(x.chunk, x.len)]), w[x.chunk := InBuffers(s)], s)
  {
    var x := l.cqe[0];
    ListEnds(l.cqe, x, l.buffers, Buf(x.chunk, x.len));
    HoldsTail(WcChunks(l.cqe), w, InCqe(s), InBuffers(s));
    HoldsMore(BufChunks(l.buffers), w, InBuffers(s), x.chunk);
    HoldsOther(WcChunks(l.wc), w, InWc(s), x.chunk, InBuffers(s));
  }

  /** Every turn of the prefetch loop succeeds and keeps the account. */
  lemma PrefetchMoves(m: Memory, w: Account, s: SockId)
    requires Sound(m, w) && s in m.socks && m.socks[s].cqe != []
    ensures var x, m' := m.socks[s].cqe[0], PrefetchOne(m, s);
            m'.Some? && Sound(m'.value, w[x.chunk := if x.len == 0 then InPool else InBuffers(s)])
            && m'.value.rq == m.rq && m'.value.socks.Keys == m.socks.Keys && m'.value.rxcq == m.rxcq
  {
    var l := m.socks[s];
    var x := l.cqe[0];
    assert SockHolds(l, w, s);
    if x.len == 0 {
      CqeTail(l, w, s, InPool);
      RecallListed(m, w, s, l.(cqe := l.cqe[1..]), x.chunk);
    } else {
      CqeToBuffers(l, w, s);
      KeptForReading(m, w, s, l.(cqe := l.cqe[1..], buffers := l.buffers + [Buf(x.chunk, x.len)]), x.chunk);
    }
  }

  lemma KeptForReading(m: Memory, w: Account, s: SockId, l: Lists, c: Chunk)
    requires Sound(m, w) && s in m.socks && c in w && w[c] == InCqe(s) && SockHolds(l, w[c := InBuffers(s)], s)
    ensures Sound(m.(socks := m.socks[s := l]), w[c := InBuffers(s)])
  {
    var m' := m.(socks := m.socks[s := l]);
    PoolKeeps(m.pool, w, c, InBuffers(s));
    RqKeeps(m.rq, w, c, InBuffers(s));
    SocksChange(m.socks, w, s, l, c, InBuffers(s));
    assert m'.owner == m.owner[c := None];
    FieldsFollow(m, m', w, c, InBuffers(s));
  }

  lemma DrainMoves(m: Memory, w: Account, s: SockId)
    requires Sound(m, w) && s in m.socks && m.socks[s].cqe != []
    ensures var m' := DrainOne(m, s);
            m'.Some? && Sound(m'.value, w[m.socks[s].cqe[0].chunk := InPool])
            && m'.value.rq == m.rq && m'.value.socks.Keys == m.socks.Keys && m'.value.rxcq == m.rxcq
  {
    assert SockHolds(m.socks[s], w, s);
    CqeTail(m.socks[s], w, s, InPool);
    RecallListed(m, w, s, m.socks[s].(cqe := m.socks[s].cqe[1..]), m.socks[s].cqe[0].chunk);
  }

  lemma ReturnWcMoves(m: Memory, w: Account, s: SockId)
    requires Sound(m, w) && s in m.socks && m.socks[s].wc != []
    ensures var m' := ReturnWc(m, s);
            m'.Some? && Sound(m'.value, w[m.socks[s].wc[0].chunk := InPool])
            && m'.value.rq == m.rq && m'.value.socks.Keys == m.socks.Keys && m'.value.rxcq == m.rxcq
  {
    assert SockHolds(m.socks[s], w, s);
    WcTail(m.socks[s], w, s, InPool);
    RecallListed(m, w, s, m.socks[s].(wc := m.socks[s].wc[1..]), m.socks[s].wc[0].chunk);
  }

  lemma ReturnBufferMoves(m: Memory, w: Account, s: SockId)
    requires Sound(m, w) && s in m.socks && m.socks[s].buffers != []
    ensures var m' := ReturnBuffer(m, s);
            m'.Some? && Sound(m'.value, w[m.socks[s].buffers[0].chunk := InPool])
            && m'.value.rq == m.rq && m'.value.rxcq == m.rxcq
            && m'.value.socks == m.socks[s := m.socks[s].(buffers := m.socks[s].buffers[1..])]
  {
    assert SockHolds(m.socks[s], w, s);
    BuffersTail(m.socks[s], w, s, InPool);
    RecallListed(m, w, s, m.socks[s].(buffers := m.socks[s].buffers[1..]), m.socks[s].buffers[0].chunk);
  }

  // ---------- Several chunks at once ----------

  /** Taking the completion list out of the socket moves all its chunks together. */
  ghost function Swapped(w: Account, s: SockId): Account {
    map c | c in w :: if w[c] == InWc(s) then InCqe(s) else w[c]
  }

  lemma GetWcMoves(m: Memory, w: Account, s: SockId)
    requires Sound(m, w) && s in m.socks && m.socks[s].cqe == [] && m.socks[s].wc != []
    ensures Sound(GetWc(m, s), Swapped(w, s))
  {
    var w', l := Swapped(w, s), m.socks[s];
    assert SockHolds(l, w, s);
    assert WcChunks(l.cqe) == [];
    forall c
      ensures c !in w || w[c] != InCqe(s)
    {
      assert c !in WcChunks(l.cqe);
    }
    assert SockHolds(GetWc(m, s).socks[s], w', s);
    forall x | x in m.socks && x != s
      ensures SockHolds(m.socks[x], w', x)
    {
      assert SockHolds(m.socks[x], w, x);
    }
    forall q | q in m.rq
      ensures Holds(m.rq[q], w', InRq(q))
    {
      assert Holds(m.rq[q], w, InRq(q));
    }
  }

  /** Reading bytes without using a buffer up changes no place. */
  lemma PartReadKeeps(m: Memory, w: Account, s: SockId, bs: seq<Buf>)
    requires Sound(m, w) && s in m.socks && BufChunks(bs) == BufChunks(m.socks[s].buffers)
    ensures Sound(SetBuffers(m, s, bs), w)
  {
    assert SockHolds(m.socks[s], w, s);
    assert SockHolds(m.socks[s].(buffers := bs), w, s);
  }

  ghost predicate MemInv(m: Memory) {
    exists w :: Sound(m, w)
  }

  lemma ReturnBufferInv(m: Memory, s: SockId)
    requires MemInv(m) && s in m.socks && m.socks[s].buffers != []
    ensures var m' := ReturnBuffer(m, s);
            m'.Some? && MemInv(m'.value) && m'.value.rq == m.rq && m'.value.rxcq == m.rxcq
            && m'.value.socks == m.socks[s := m.socks[s].(buffers := m.socks[s].buffers[1..])]
  {
    var w: Account :| Sound(m, w);
    ReturnBufferMoves(m, w, s);
  }

  lemma CutOneMore(socks: map<SockId, Lists>, socks1: map<SockId, Lists>, s: SockId, n: nat)
    requires s in socks && 0 < n <= |socks[s].buffers| && socks1 == socks[s := socks[s].(buffers := socks[s].buffers[1..])]
    ensures socks1[s := socks1[s].(buffers := socks1[s].buffers[n - 1..])] == socks[s := socks[s].(buffers := socks[s].buffers[n..])]
  {
    assert socks[s].buffers[1..][n - 1..] == socks[s].buffers[n..];
  }

  /** The read loop's returns all succeed. */
  lemma {:induction false} ReturnBuffersSound(m: Memory, s: SockId, n: nat)
    requires MemInv(m) && s in m.socks && n <= |m.socks[s].buffers|
    ensures ReturnBuffers(m, s, n).Some? && MemInv(ReturnBuffers(m, s, n).value)
    ensures var m' := ReturnBuffers(m, s, n).value;
            m'.rq == m.rq && m'.rxcq == m.rxcq && m'.socks == m.socks[s := m.socks[s].(buffers := m.socks[s].buffers[n..])]
    decreases n
  {
    if n == 0 {
      assert m.socks[s].buffers[0..] == m.socks[s].buffers;
    } else {
      ReturnBufferInv(m, s);
      var m1 := ReturnBuffer(m, s).value;
      CutOneMore(m.socks, m1.socks, s, n);
      ReturnBuffersSound(m1, s, n - 1);
    }
  }

  lemma {:induction false} PostAllSound(m: Memory, q: QpId, cs: seq<Chunk>)
    requires MemInv(m) && q in m.rq
    ensures var m' := PostAll(m, q, cs); MemInv(m') && m'.rxcq == m.rxcq && m'.socks == m.socks && m'.rq.Keys == m.rq.Keys
    decreases |cs|
  {
    if cs != [] {
      var w: Account :| Sound(m, w);
      PostMoves(m, w, q, Some(cs[0]));
      PostAllSound(Post(m, q, Some(cs[0])), q, cs[1..]);
    }
  }

  lemma FirstAndRest(pool: multiset<Chunk>, cs: seq<Chunk>)
    requires cs != [] && multiset(cs) <= pool
    ensures cs[0] in pool && multiset(cs[1..]) <= pool - multiset{cs[0]}
    ensures pool - multiset{cs[0]} - multiset(cs[1..]) == pool - multiset(cs)
  {
    assert cs == [cs[0]] + cs[1..];
    assert multiset(cs) == multiset{cs[0]} + multiset(cs[1..]);
  }

  lemma PostedTwice(rq: map<QpId, seq<Chunk>>, q: QpId, cs: seq<Chunk>)
    requires q in rq && cs != []
    ensures var rq1 := rq[q := rq[q] + [cs[0]]]; rq1[q := rq1[q] + cs[1..]] == rq[q := rq[q] + cs]
  {
    assert cs == [cs[0]] + cs[1..];
    assert rq[q] + [cs[0]] + cs[1..] == rq[q] + cs;
  }

  /** Chunks that are in the pool are all posted, in order. */
  lemma {:induction false} PostAllExact(m: Memory, q: QpId, cs: seq<Chunk>)
    requires q in m.rq && multiset(cs) <= m.pool
    ensures PostAll(m, q, cs).rq == m.rq[q := m.rq[q] + cs] && PostAll(m, q, cs).pool == m.pool - multiset(cs)
    decreases |cs|
  {
    if cs == [] {
      assert m.rq[q] + [] == m.rq[q];
    } else {
      FirstAndRest(m.pool, cs);
      PostAllExact(Post(m, q, Some(cs[0])), q, cs[1..]);
      PostedTwice(m.rq, q, cs);
    }
  }

  /** The receive queue of a queue pair under deletion, part of it released. */
  lemma {:induction false} ReleaseAllSound(m: Memory, w: Account, q: QpId, cs: seq<Chunk>)
    requires PoolPlaced(m.pool, w) && RqPlaced(m.rq[q := cs], w) && q !in m.rq && SocksPlaced(m.socks, w)
    requires OwnerIsQueue(m, w) && CompletionsPosted(m, w) && (forall i :: 0 <= i < |m.rxcq| ==> m.rxcq[i].qp != q)
    ensures var m' := ReleaseAll(m, cs); MemInv(m') && m'.rq == m.rq && m'.socks == m.socks && m'.rxcq == m.rxcq
    decreases |cs|
  {
    var rq := m.rq[q := cs];
    assert Holds(rq[q], w, InRq(q));
    if cs == [] {
      forall q' | q' in m.rq
        ensures Holds(m.rq[q'], w, InRq(q'))
      {
        assert Holds(rq[q'], w, InRq(q'));
      }
      forall c | c in w && w[c].InRq?
        ensures w[c].q in m.rq
      {
        assert w[c].q in rq && c !in rq[q];
      }
      assert RqPlaced(m.rq, w);
      assert Sound(m, w);
    } else {
      var c := cs[0];
      assert c in rq[q];
      var m1 := Release(m, c);
      RqLoses(rq, w, c, InPool);
      assert rq[q := Without(cs, c)] == m1.rq[q := cs[1..]];
      PoolGains(m.pool, w, c);
      SocksKeep(m.socks, w, c, InPool);
      FieldsFollow(m, m1, w, c, InPool);
      ReleaseAllSound(m1, w[c := InPool], q, cs[1..]);
    }
  }

  lemma {:induction false} NotOfKeeps(xs: seq<Completion>, q: QpId)
    ensures forall x :: x in NotOf(xs, q) <==> x in xs && x.qp != q
    ensures (forall i, j :: 0 <= i < j < |xs| ==> xs[i].chunk != xs[j].chunk) ==>
              forall i, j :: 0 <= i < j < |NotOf(xs, q)| ==> NotOf(xs, q)[i].chunk != NotOf(xs, q)[j].chunk
  {
    if xs != [] {
      assert xs == [xs[0]] + xs[1..];
      NotOfKeeps(xs[1..], q);
      if forall i, j :: 0 <= i < j < |xs| ==> xs[i].chunk != xs[j].chunk {
        assert forall x :: x in xs[1..] ==> x.chunk != xs[0].chunk;
      }
    }
  }

  lemma DroppedCompletions(m: Memory, w: Account, q: QpId)
    requires CompletionsPosted(m, w)
    ensures var m1 := m.(rq := m.rq - {q}, rxcq := NotOf(m.rxcq, q));
            CompletionsPosted(m1, w) && forall i :: 0 <= i < |m1.rxcq| ==> m1.rxcq[i].qp != q
  {
    var m1 := m.(rq := m.rq - {q}, rxcq := NotOf(m.rxcq, q));
    NotOfKeeps(m.rxcq, q);
    forall i | 0 <= i < |m1.rxcq|
      ensures m1.rxcq[i].chunk in w && w[m1.rxcq[i].chunk] == InRq(m1.rxcq[i].qp) && m1.rxcq[i].qp != q
    {
      assert m1.rxcq[i] in m.rxcq;
    }
  }

  /** Deleting a queue pair returns every chunk it still held, once. */
  lemma DestroySound(m: Memory, q: QpId)
    requires MemInv(m) && q in m.rq
    ensures MemInv(Destroy(m, q)) && Destroy(m, q).rq == m.rq - {q} && Destroy(m, q).socks == m.socks
    ensures Destroy(m, q).rxcq == NotOf(m.rxcq, q)
  {
    var w: Account :| Sound(m, w);
    DroppedCompletions(m, w, q);
    DestroyFrom(m, w, q);
  }

  lemma DestroyFrom(m: Memory, w: Account, q: QpId)
    requires q in m.rq && PoolPlaced(m.pool, w) && RqPlaced(m.rq, w) && SocksPlaced(m.socks, w) && OwnerIsQueue(m, w)
    requires var m1 := m.(rq := m.rq - {q}, rxcq := NotOf(m.rxcq, q));
             CompletionsPosted(m1, w) && forall i :: 0 <= i < |m1.rxcq| ==> m1.rxcq[i].qp != q
    ensures MemInv(Destroy(m, q)) && Destroy(m, q).rq == m.rq - {q} && Destroy(m, q).socks == m.socks
    ensures Destroy(m, q).rxcq == NotOf(m.rxcq, q)
  {
    var m1 := m.(rq := m.rq - {q}, rxcq := NotOf(m.rxcq, q));
    assert m1.rq[q := m.rq[q]] == m.rq;
    ReleaseAllSound(m1, w, q, m.rq[q]);
  }

  /** A read takes as many bytes as it can, keeps the rest in order,
      and gives back exactly the buffers it emptied. */
  lemma {:induction false} ReadAccounting(bs: seq<Buf>, len: nat)
    ensures Taken(bs, len) == if len <= Available(bs) then len else Available(bs)
    ensures Available(LeftOver(bs, len)) == Available(bs) - Taken(bs, len)
    ensures UsedUp(bs, len) <= |bs| && |LeftOver(bs, len)| == |bs| - UsedUp(bs, len)
    ensures BufChunks(LeftOver(bs, len)) == BufChunks(bs[UsedUp(bs, len)..])
  {
    if bs != [] && bs[0].left < len {
      ReadAccounting(bs[1..], len - bs[0].left);
      assert bs[UsedUp(bs, len)..] == bs[1..][UsedUp(bs[1..], len - bs[0].left)..];
    }
  }

  /** The whole of `read_buffers`. */
  function ReadBuffers(m: Memory, s: SockId, len: nat): Option<Memory>
    requires s in m.socks
  {
    var bs := m.socks[s].buffers;
    if UsedUp(bs, len) > |bs| then None
    else
      match ReturnBuffers(m, s, UsedUp(bs, len))
      case None => None
      case Some(m1) => if s in m1.socks then Some(SetBuffers(m1, s, LeftOver(bs, len))) else None
  }

  lemma ReadBuffersSound(m: Memory, s: SockId, len: nat)
    requires MemInv(m) && s in m.socks
    ensures ReadBuffers(m, s, len).Some? && MemInv(ReadBuffers(m, s, len).value)
    ensures var m' := ReadBuffers(m, s, len).value;
            m'.rq == m.rq && m'.rxcq == m.rxcq && m'.socks.Keys == m.socks.Keys
            && m'.socks[s].buffers == LeftOver(m.socks[s].buffers, len)
  {
    var bs := m.socks[s].buffers;
    ReadAccounting(bs, len);
    ReturnBuffersSound(m, s, UsedUp(bs, len));
    var m1 := ReturnBuffers(m, s, UsedUp(bs, len)).value;
    var w: Account :| Sound(m1, w);
    PartReadKeeps(m1, w, s, LeftOver(bs, len));
  }
}
