/** Chain replication over byte streams: the head sends requests to the mid, which forwards them
    to the tail, which acknowledges to the head. */
module Chain {
  import opened Common

  const ACK_SIZE: nat := 64

  /** `size` is the size of a request, `num` how many may be outstanding at the head. */
  datatype Config = Config(size: nat, num: nat)

  ghost predicate Legal(c: Config) { c.size > 0 }

  datatype SendPc = Loading | Loaded(seen: int) | Sending
  datatype PollPc = Polling | Checked

  /** `toMid`, `toTail` and `toHead` are the bytes in transit on the three streams; `midLen`,
      `tailLen` and `headLen` are the poll loops' `read_len`. The rest counts what has happened:
      requests reserved, sent, forwarded, acknowledged by the tail and released by the head, and
      bytes ever read by mid and tail. */
  datatype State = State(
    inflight: int, sendPc: SendPc, pollPc: PollPc,
    toMid: nat, midLen: nat, toTail: nat, tailLen: nat, toHead: nat, headLen: nat,
    reserved: nat, sent: nat, forwarded: nat, acks: nat, released: nat, midRead: nat, tailRead: nat)

  const Start := State(0, Loading, Polling, 0, 0, 0, 0, 0, 0, 0, 0, 0, 0, 0, 0, 0)

  datatype Event =
    | Load
    | Reserve
    | SendOne
    | AllSent
    | MidReads(n: nat)
    | MidForwards
    | TailReads(n: nat)
    | TailAcks
    | HeadReads(n: nat)
    | HeadChecks
    | HeadReleases

  predicate Enabled(c: Config, s: State, e: Event) {
    match e
    case Load => s.sendPc == Loading
    case Reserve => s.sendPc.Loaded? && s.sendPc.seen <= c.num * c.size && c.size > 0
    case SendOne => s.sendPc == Sending && s.sent < s.reserved
    case AllSent => s.sendPc == Sending && s.sent == s.reserved
    case MidReads(n) => n <= s.toMid
    case MidForwards => s.midLen >= c.size
    case TailReads(n) => n <= s.toTail
    case TailAcks => s.tailLen >= c.size
    case HeadReads(n) => s.pollPc == Polling && n <= s.toHead
    case HeadChecks => s.pollPc == Polling && s.headLen >= ACK_SIZE
    case HeadReleases => s.pollPc == Checked && s.headLen >= ACK_SIZE
  }

  /** `None` is the failed assertion in `InflightRelease`. */
  function Step(c: Config, s: State, e: Event): Option<State>
    requires Enabled(c, s, e)
  {
    match e
    case Load => Some(if s.inflight <= c.num / 2 * c.size then s.(sendPc := Loaded(s.inflight)) else s)
    case Reserve =>
      var n := (c.num * c.size - s.sendPc.seen) / c.size;
      Some(s.(inflight := s.inflight + n * c.size, reserved := s.reserved + n, sendPc := Sending))
    case SendOne => Some(s.(toMid := s.toMid + c.size, sent := s.sent + 1))
    case AllSent => Some(s.(sendPc := Loading))
    case MidReads(n) => Some(s.(toMid := s.toMid - n, midLen := s.midLen + n, midRead := s.midRead + n))
    case MidForwards => Some(s.(midLen := s.midLen - c.size, toTail := s.toTail + c.size, forwarded := s.forwarded + 1))
    case TailReads(n) => Some(s.(toTail := s.toTail - n, tailLen := s.tailLen + n, tailRead := s.tailRead + n))
    case TailAcks => Some(s.(tailLen := s.tailLen - c.size, toHead := s.toHead + ACK_SIZE, acks := s.acks + 1))
    case HeadReads(n) => Some(s.(toHead := s.toHead - n, headLen := s.headLen + n))
    case HeadChecks => if s.inflight < c.size then None else Some(s.(pollPc := Checked))
    case HeadReleases =>
      Some(s.(inflight := s.inflight - c.size, released := s.released + 1, headLen := s.headLen - ACK_SIZE, pollPc := Polling))
  }

  // ---------- Conservation ----------

  /** Every byte sent on a stream is in transit, waiting at the reader, or part of a consumed request. */
  ghost predicate Bytes(c: Config, s: State) {
    && c.size * s.sent == s.toMid + s.midRead
    && s.midRead == s.midLen + c.size * s.forwarded
    && c.size * s.forwarded == s.toTail + s.tailRead
    && s.tailRead == s.tailLen + c.size * s.acks
    && ACK_SIZE * s.acks == s.toHead + s.headLen + ACK_SIZE * s.released
  }

  ghost predicate Flow(c: Config, s: State) {
    && s.inflight == c.size * (s.reserved - s.released)
    && s.sent <= s.reserved <= s.released + c.num
    && (s.sendPc.Loaded? ==> s.inflight <= s.sendPc.seen <= c.num * c.size)
    && (!s.sendPc.Sending? ==> s.sent == s.reserved)
    && (s.pollPc == Checked ==> s.headLen >= ACK_SIZE)
  }

  ghost predicate Inv(c: Config, s: State) { Legal(c) && Bytes(c, s) && Flow(c, s) }

  lemma Whole(size: nat, total: nat, left: nat, n: nat)
    requires size > 0 && total == left + size * n
    ensures n <= total / size
  {
    var q := total / size;
    DivMod(total, size);
    Distribute(size, q);
    LessCancel(size, n, q + 1);
  }

  /** The order of the counts along the chain, from the bytes alone. */
  lemma CountsOrdered(c: Config, s: State)
    requires Legal(c) && Bytes(c, s)
    ensures s.released <= s.acks <= s.tailRead / c.size <= s.forwarded <= s.midRead / c.size <= s.sent
  {
    Whole(c.size, s.tailRead, s.tailLen, s.acks);
    Whole(c.size, s.midRead, s.midLen, s.forwarded);
    AtMost(c.size, s.tailRead, s.forwarded);
    AtMost(c.size, s.midRead, s.sent);
  }

  lemma AtMost(size: nat, total: nat, n: nat)
    requires size > 0 && total <= size * n
    ensures total / size <= n
  {
    DivMod(total, size);
    LeCancel(size, total / size, n);
  }

  lemma StepBytes(c: Config, s: State, e: Event)
    requires Bytes(c, s) && Enabled(c, s, e) && Step(c, s, e).Some?
    ensures Bytes(c, Step(c, s, e).value)
  {
    match e {
      case SendOne => Distribute(c.size, s.sent);
      case MidForwards => Distribute(c.size, s.forwarded);
      case TailAcks => Distribute(c.size, s.acks);
      case _ =>
    }
  }

  lemma ReserveFits(c: Config, s: State)
    requires Inv(c, s) && s.sendPc.Loaded?
    ensures var n := (c.num * c.size - s.sendPc.seen) / c.size;
            && n >= 0 && s.inflight + n * c.size == c.size * (s.reserved + n - s.released)
            && s.reserved + n <= s.released + c.num
  {
    CountsOrdered(c, s);
    WindowFits(c.size, c.num * c.size, s.sendPc.seen, s.reserved - s.released);
    Quotient(c.size, c.num, 0, c.num * c.size);
  }

  /** The head waits exactly while more than half the window is in flight. */
  lemma WaitsAboveHalf(c: Config, s: State)
    requires Enabled(c, s, Load)
    ensures Step(c, s, Load).Some?
    ensures if s.inflight > c.num / 2 * c.size then Step(c, s, Load).value == s
            else Step(c, s, Load).value == s.(sendPc := Loaded(s.inflight))
  {
  }

  /** A reservation fills the window: no further request would fit in what was seen free. */
  lemma ReserveFills(c: Config, s: State)
    requires Enabled(c, s, Reserve)
    ensures var s' := Step(c, s, Reserve).value;
            var n := s'.reserved - s.reserved;
            && s.sendPc.seen + n * c.size <= c.num * c.size < s.sendPc.seen + n * c.size + c.size
            && s'.inflight == s.inflight + n * c.size
  {
    DivMod(c.num * c.size - s.sendPc.seen, c.size);
  }

  lemma SomethingOutstanding(c: Config, s: State)
    requires Inv(c, s) && s.headLen >= ACK_SIZE
    ensures s.inflight >= c.size && s.released < s.reserved
  {
    CountsOrdered(c, s);
    MulLe(c.size, 1, s.reserved - s.released);
  }

  lemma StepFlow(c: Config, s: State, e: Event)
    requires Inv(c, s) && Enabled(c, s, e)
    ensures Step(c, s, e).Some? && Flow(c, Step(c, s, e).value)
  {
    match e {
      case Reserve => ReserveFits(c, s);
      case HeadChecks => SomethingOutstanding(c, s);
      case HeadReleases =>
        SomethingOutstanding(c, s);
        Distribute(c.size, s.reserved - s.released - 1);
      case Load =>
        HalfOfWindow(c.size, c.num);
      case _ =>
    }
  }

  lemma HalfOfWindow(size: nat, num: nat)
    ensures num / 2 * size <= num * size
  {
  }

  // ---------- Runs ----------

  ghost predicate Follows(c: Config, s: State, s': State) {
    exists e :: Enabled(c, s, e) && Step(c, s, e) == Some(s')
  }

  ghost predicate StepsAt(c: Config, t: seq<State>, i: int) {
    0 < i < |t| && Follows(c, t[i - 1], t[i])
  }

  ghost predicate Run(c: Config, t: seq<State>) {
    |t| > 0 && t[0] == Start && forall i :: 0 < i < |t| ==> StepsAt(c, t, i)
  }

  lemma {:induction false} RunInv(c: Config, t: seq<State>, n: nat)
    requires Legal(c) && Run(c, t) && n < |t|
    ensures Inv(c, t[n])
  {
    if n > 0 {
      RunInv(c, t, n - 1);
      assert StepsAt(c, t, n);
      var e :| Enabled(c, t[n - 1], e) && Step(c, t[n - 1], e) == Some(t[n]);
      StepBytes(c, t[n - 1], e);
      StepFlow(c, t[n - 1], e);
    }
  }

  /** In every run, however the bytes are split into reads: released at the head <= acknowledged by
      the tail <= fully received by the tail <= forwarded by the mid <= fully received by the mid
      <= sent <= reserved; the bytes in flight are those of the unreleased requests and never
      exceed the window; no assertion fails. */
  lemma ChainSafety(c: Config, t: seq<State>, n: nat)
    requires Legal(c) && Run(c, t) && n < |t|
    ensures var s := t[n];
            && s.released <= s.acks <= s.tailRead / c.size <= s.forwarded <= s.midRead / c.size <= s.sent <= s.reserved
            && s.inflight == c.size * (s.reserved - s.released) && 0 <= s.inflight <= c.num * c.size
            && forall e :: Enabled(c, s, e) ==> Step(c, s, e).Some?
  {
    RunInv(c, t, n);
    var s := t[n];
    CountsOrdered(c, s);
    WithinWindow(c.size, s.reserved - s.released, c.num);
    forall e | Enabled(c, s, e)
      ensures Step(c, s, e).Some?
    {
      StepFlow(c, s, e);
    }
  }

  lemma WithinWindow(size: nat, out: nat, num: nat)
    requires out <= num
    ensures 0 <= size * out <= num * size
  {
  }

  /** When all streams and read buffers are empty, every request sent has been released. */
  lemma DrainedMeansDone(c: Config, t: seq<State>, n: nat)
    requires Legal(c) && Run(c, t) && n < |t|
    requires var s := t[n]; s.toMid + s.toTail + s.toHead == 0 && s.midLen < c.size && s.tailLen < c.size && s.headLen < ACK_SIZE
    ensures t[n].released == t[n].sent
  {
    RunInv(c, t, n);
    var s := t[n];
    Remainder(c.size, s.sent, s.forwarded, s.midLen);
    Remainder(c.size, s.forwarded, s.acks, s.tailLen);
  }

  lemma Remainder(size: nat, a: nat, b: nat, left: nat)
    requires size * a == left + size * b && left < size
    ensures a == b
  {
    Distribute(size, b);
    LessCancel(size, a, b + 1);
    LeCancel(size, b, a);
  }

  // ---------- The poll loops ----------

  /** Mid and tail: `ready` is how often the downstream client answers that it is ready. */
  class Relay {
    const unit: nat
    var readLen: nat

    constructor (unit: nat)
      ensures this.unit == unit && readLen == 0
    {
      this.unit, readLen := unit, 0;
    }

    /** One successful read of `rs` bytes, and the loop that follows it. */
    method OnRead(rs: nat, ready: nat) returns (sends: nat)
      requires unit > 0
      modifies this`readLen
      ensures readLen + unit * sends == old(readLen) + rs
      ensures sends <= ready && (sends < ready ==> readLen < unit)
    {
      readLen := readLen + rs;
      sends := 0;
      while readLen >= unit && sends < ready
        invariant sends <= ready && readLen + unit * sends == old(readLen) + rs
        decreases readLen
      {
        assert unit * (sends + 1) == unit * sends + unit;
        sends := sends + 1;
        readLen := readLen - unit;
      }
    }
  }

  /** The head's sending loop and its poll loop. */
  class Head {
    const c: Config
    var inflight: int
    var readLen: nat

    constructor (c: Config)
      ensures this.c == c && inflight == 0 && readLen == 0
    {
      this.c, inflight, readLen := c, 0, 0;
    }

    /** One turn of the sending loop; `n` is the number of requests to send. */
    method Reserve() returns (n: nat)
      requires c.size > 0
      modifies this`inflight
      ensures inflight == old(inflight) + n * c.size
      ensures old(inflight) > c.num / 2 * c.size ==> n == 0
      ensures old(inflight) <= c.num / 2 * c.size ==> inflight <= c.num * c.size < inflight + c.size
    {
      n := 0;
      var seen := inflight;
      if seen <= c.num / 2 * c.size {
        HalfOfWindow(c.size, c.num);
        n := (c.num * c.size - seen) / c.size;
        inflight := inflight + n * c.size;
      }
    }

    method InflightRelease() returns (ok: bool)
      modifies this`inflight
      ensures ok == (old(inflight) >= c.size)
      ensures inflight == if ok then old(inflight) - c.size else old(inflight)
    {
      if inflight < c.size { return false; }
      inflight := inflight - c.size;
      ok := true;
    }

    /** One successful read: an acknowledgement for every 64 bytes. `ok` is false when there are
        more of them than requests in flight, so that the assertion fails. */
    method OnRead(rs: nat) returns (ok: bool, acks: nat)
      requires inflight >= 0
      modifies this
      ensures var k := (old(readLen) + rs) / 64;
              && ok == (c.size * k <= old(inflight))
              && (ok ==> acks == k && readLen == (old(readLen) + rs) % 64 && inflight == old(inflight) - c.size * k)
    {
      readLen := readLen + rs;
      ok, acks := true, 0;
      ghost var total := readLen;
      while readLen >= ACK_SIZE
        invariant readLen + ACK_SIZE * acks == total && ok
        invariant 0 <= inflight == old(inflight) - c.size * acks
        decreases readLen
      {
        Distribute(c.size, acks);
        MulLe(c.size, acks + 1, total / ACK_SIZE);
        ok := InflightRelease();
        if !ok { return; }
        acks := acks + 1;
        readLen := readLen - ACK_SIZE;
      }
    }
  }

  // ---------- The window of transmit chunks ----------

  const TX_QUEUE_LEN: nat := 128

  /** `held` chunks are counted for the request being filled, `posted` ones have been sent and not completed. */
  datatype Chunks = Chunks(counter: int, held: nat, posted: nat)

  datatype ChunkEvent = Take | Post(k: nat) | Completed

  predicate ChunkEnabled(s: Chunks, e: ChunkEvent) {
    match e
    case Take => s.counter < TX_QUEUE_LEN
    case Post(k) => s.held == k
    case Completed => s.posted > 0
  }

  /** `None` is the failed assertion in the completion callback. */
  function ChunkStep(s: Chunks, e: ChunkEvent): Option<Chunks>
    requires ChunkEnabled(s, e)
  {
    match e
    case Take => Some(s.(counter := s.counter + 1, held := s.held + 1))
    case Post(k) => Some(s.(posted := s.posted + k, held := 0))
    case Completed => if s.counter < 1 then None else Some(s.(counter := s.counter - 1, posted := s.posted - 1))
  }

  ghost predicate ChunkInv(s: Chunks) { s.counter == s.held + s.posted && s.counter <= TX_QUEUE_LEN }

  /** The counter counts exactly the chunks held and posted, never above the queue's length,
      and the completion assertion holds. */
  lemma ChunkWindow(s: Chunks, e: ChunkEvent)
    requires ChunkInv(s) && ChunkEnabled(s, e)
    ensures ChunkStep(s, e).Some? && ChunkInv(ChunkStep(s, e).value)
    ensures var s' := ChunkStep(s, e).value;
            match e
            case Take => s'.held == s.held + 1 && s'.posted == s.posted
            case Post(_) => s'.held == 0 && s'.posted == s.posted + s.held
            case Completed => s'.held == s.held && s'.posted == s.posted - 1
  {
  }

  function ChunkRun(s: Chunks, es: seq<ChunkEvent>): Option<Chunks>
    decreases |es|
  {
    if es == [] then Some(s)
    else if !ChunkEnabled(s, es[0]) then None
    else match ChunkStep(s, es[0]) case None => None case Some(s1) => ChunkRun(s1, es[1..])
  }

  predicate NoPost(es: seq<ChunkEvent>) { forall i :: 0 <= i < |es| ==> !es[i].Post? }

  /** A request of `k` chunks can get all of them, so that it can be posted, exactly if the
      window is not smaller than the request. */
  lemma RequestFitsIff(s: Chunks, k: nat)
    requires ChunkInv(s) && s.held <= k
    ensures (exists es :: ChunkRun(s, es).Some? && ChunkRun(s, es).value.held == k && NoPost(es))
       <==> k <= 128
  {
    if k <= TX_QUEUE_LEN {
      var es := Filling(s, k);
      assert ChunkRun(s, es).Some?;
    }
    forall es | ChunkRun(s, es).Some?
      ensures ChunkInv(ChunkRun(s, es).value)
    {
      ChunkRunInv(s, es);
    }
  }

  lemma {:induction false} ChunkRunInv(s: Chunks, es: seq<ChunkEvent>)
    requires ChunkInv(s) && ChunkRun(s, es).Some?
    ensures ChunkInv(ChunkRun(s, es).value)
    decreases |es|
  {
    if es != [] {
      ChunkWindow(s, es[0]);
      ChunkRunInv(ChunkStep(s, es[0]).value, es[1..]);
    }
  }

  /** Completions make room, then the chunks are taken. */
  lemma {:induction false} Filling(s: Chunks, k: nat) returns (es: seq<ChunkEvent>)
    requires ChunkInv(s) && s.held <= k <= TX_QUEUE_LEN
    ensures ChunkRun(s, es).Some? && ChunkRun(s, es).value.held == k && NoPost(es)
    decreases s.posted + k - s.held
  {
    if s.held == k {
      es := [];
    } else {
      var e := if s.posted > 0 then Completed else Take;
      var rest := Filling(ChunkStep(s, e).value, k);
      es := [e] + rest;
      assert es[1..] == rest;
    }
  }
}
