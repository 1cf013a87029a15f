/** File events of an event centre and their mirror in an epoll or select driver. */
module FileEvents {
  import opened Common

  /** Event masks: two bits. */
  type Mask = bv2
  const NONE: Mask := 0
  const READABLE: Mask := 1
  const WRITABLE: Mask := 2

  datatype FileEvent = FileEvent(mask: Mask, readCb: Option<nat>, writeCb: Option<nat>)

  const NoEvent := FileEvent(NONE, None, None)

  /** The interest kept by the kernel for epoll, or in the two descriptor sets for select. */
  datatype Driver = Epoll(interest: map<nat, Mask>) | Select(rfds: set<nat>, wfds: set<nat>, maxFd: nat)

  datatype Center = Center(events: seq<FileEvent>, driver: Driver)

  datatype Op = Create(fd: nat, mask: Mask, cb: nat) | Delete(fd: nat, mask: Mask)

  /** How the kernel answers: adding a present descriptor, or changing or deleting an absent one, is an error. */
  datatype Ctl = Add | Mod | Del

  function EpollCtl(interest: map<nat, Mask>, op: Ctl, fd: nat, mask: Mask): Option<map<nat, Mask>> {
    match op
    case Add => if fd in interest then None else Some(interest[fd := mask])
    case Mod => if fd in interest then Some(interest[fd := mask]) else None
    case Del => if fd in interest then Some(interest - {fd}) else None
  }

  function AddEvent(d: Driver, fd: nat, cur: Mask, add: Mask): Option<Driver> {
    var mask := cur | add;
    match d
    case Epoll(interest) =>
      (match EpollCtl(interest, if cur == NONE then Add else Mod, fd, mask)
       case None => None
       case Some(i) => Some(Epoll(i)))
    case Select(r, w, m) =>
      Some(Select(if mask & READABLE != 0 then r + {fd} else r, if mask & WRITABLE != 0 then w + {fd} else w,
                  if fd > m then fd else m))
  }

  function DelEvent(d: Driver, fd: nat, cur: Mask, del: Mask): Option<Driver> {
    var mask := cur & !del;
    match d
    case Epoll(interest) =>
      (match EpollCtl(interest, if mask != NONE then Mod else Del, fd, mask)
       case None => None
       case Some(i) => Some(Epoll(i)))
    case Select(r, w, m) =>
      Some(Select(if del & READABLE != 0 then r - {fd} else r, if del & WRITABLE != 0 then w - {fd} else w, m))
  }

  // ---------- Growth of the table ----------

  /** The table quadruples until it covers the descriptor. */
  function Grown(n: nat, fd: nat): (r: nat)
    requires n > 0
    ensures r > fd && r > n
    decreases fd - n
  {
    if fd < 4 * n then 4 * n else Grown(4 * n, fd)
  }

  /** It never grows beyond four times what is needed, so a 32-bit size does not overflow
      for descriptors and tables below 2^29. */
  lemma {:induction false} GrownBound(n: nat, fd: nat)
    requires n > 0
    ensures 4 * n <= Grown(n, fd) <= 4 * (if fd < n then n else fd)
    ensures n < 0x2000_0000 && fd < 0x2000_0000 ==> Grown(n, fd) < 0x8000_0000
    decreases fd - n
  {
    if fd >= 4 * n { GrownBound(4 * n, fd); }
  }

  function Quadrupled(n: nat, rounds: nat): nat {
    if rounds == 0 then n else 4 * Quadrupled(n, rounds - 1)
  }

  lemma {:induction false} QuadrupledGrows(n: nat, rounds: nat)
    ensures if n == 0 then Quadrupled(n, rounds) == 0 else Quadrupled(n, rounds) > rounds
  {
    if rounds > 0 { QuadrupledGrows(n, rounds - 1); }
  }

  /** The growth loop ends exactly if the table is not empty to begin with. */
  lemma GrowthEnds(n: nat, fd: nat)
    ensures (exists rounds :: Quadrupled(n, rounds) > fd) <==> n > 0
  {
    QuadrupledGrows(n, fd);
    forall rounds
      ensures n == 0 ==> Quadrupled(n, rounds) == 0
    {
      QuadrupledGrows(n, rounds);
    }
  }

  function Padded(events: seq<FileEvent>, n: nat): seq<FileEvent> {
    if |events| >= n then events else events + seq(n - |events|, i => NoEvent)
  }

  // ---------- The two operations ----------

  function Covering(c: Center, fd: nat): Center
    requires |c.events| > 0
  {
    if fd < |c.events| then c else c.(events := Padded(c.events, Grown(|c.events|, fd)))
  }

  /** `None` is the abort after a failed driver call. */
  function CreateEvent(c0: Center, fd: nat, mask: Mask, cb: nat): Option<Center>
    requires |c0.events| > 0
  {
    var c := Covering(c0, fd);
    var e := c.events[fd];
    if e.mask == mask then Some(c)
    else
      match AddEvent(c.driver, fd, e.mask, mask)
      case None => None
      case Some(d) =>
        var e' := FileEvent(e.mask | mask, if mask & READABLE != 0 then Some(cb) else e.readCb,
                            if mask & WRITABLE != 0 then Some(cb) else e.writeCb);
        Some(Center(c.events[fd := e'], d))
  }

  function DeleteEvent(c: Center, fd: nat, mask: Mask): Option<Center> {
    if fd >= |c.events| || c.events[fd].mask == NONE then Some(c)
    else
      var e := c.events[fd];
      match DelEvent(c.driver, fd, e.mask, mask)
      case None => None
      case Some(d) =>
        var e' := FileEvent(e.mask & !mask, if mask & READABLE != 0 then None else e.readCb,
                            if mask & WRITABLE != 0 then None else e.writeCb);
        Some(Center(c.events[fd := e'], d))
  }

  function Apply(c: Center, op: Op): Option<Center>
    requires |c.events| > 0
  {
    match op
    case Create(fd, mask, cb) => CreateEvent(c, fd, mask, cb)
    case Delete(fd, mask) => DeleteEvent(c, fd, mask)
  }

  // ---------- Invariant ----------

  /** What the driver watches a descriptor for. */
  function Watched(d: Driver, fd: nat): Mask {
    match d
    case Epoll(interest) => if fd in interest then interest[fd] else NONE
    case Select(r, w, _) => (if fd in r then READABLE else NONE) | (if fd in w then WRITABLE else NONE)
  }

  function Registered(c: Center, fd: nat): Mask {
    if fd < |c.events| then c.events[fd].mask else NONE
  }

  ghost predicate CallbacksMatch(e: FileEvent) {
    (e.mask & READABLE != 0 <==> e.readCb.Some?) && (e.mask & WRITABLE != 0 <==> e.writeCb.Some?)
  }

  /** The driver's own bookkeeping: epoll holds no empty entry, select scans far enough. */
  ghost predicate DriverOk(d: Driver) {
    match d
    case Epoll(interest) => forall fd :: fd in interest ==> interest[fd] != NONE
    case Select(r, w, m) => forall fd :: fd in r || fd in w ==> fd <= m
  }

  ghost predicate Inv(c: Center) {
    && |c.events| > 0 && DriverOk(c.driver)
    && (forall i :: 0 <= i < |c.events| ==> CallbacksMatch(c.events[i]))
    && forall fd: nat :: Watched(c.driver, fd) == Registered(c, fd)
  }

  lemma CoveringInv(c: Center, fd: nat)
    requires Inv(c)
    ensures var c' := Covering(c, fd);
            && Inv(c') && fd < |c'.events| && c'.driver == c.driver
            && c'.events[..|c.events|] == c.events && (forall x: nat :: Registered(c', x) == Registered(c, x))
  {
  }

  lemma Bits(a: Mask, b: Mask)
    ensures (a | b) & READABLE != 0 <==> a & READABLE != 0 || b & READABLE != 0
    ensures (a | b) & WRITABLE != 0 <==> a & WRITABLE != 0 || b & WRITABLE != 0
    ensures (a & !b) & READABLE != 0 <==> a & READABLE != 0 && b & READABLE == 0
    ensures (a & !b) & WRITABLE != 0 <==> a & WRITABLE != 0 && b & WRITABLE == 0
    ensures a == (if a & READABLE != 0 then READABLE else NONE) | (if a & WRITABLE != 0 then WRITABLE else NONE)
    ensures (a | b == NONE) <==> a == NONE && b == NONE
  {
  }

  /** Watching a descriptor for more: exactly that descriptor changes, and the driver call
      succeeds whenever the mask it is told is the one it has. */
  lemma AddWatches(d: Driver, fd: nat, cur: Mask, add: Mask)
    requires DriverOk(d) && Watched(d, fd) == cur && cur != add
    ensures AddEvent(d, fd, cur, add).Some? && DriverOk(AddEvent(d, fd, cur, add).value)
    ensures forall x: nat ::
              Watched(AddEvent(d, fd, cur, add).value, x) == if x == fd then cur | add else Watched(d, x)
  {
    Bits(cur, add);
    Bits(cur | add, NONE);
  }

  lemma DelWatches(d: Driver, fd: nat, cur: Mask, del: Mask)
    requires DriverOk(d) && Watched(d, fd) == cur && cur != NONE
    ensures DelEvent(d, fd, cur, del).Some? && DriverOk(DelEvent(d, fd, cur, del).value)
    ensures forall x: nat ::
              Watched(DelEvent(d, fd, cur, del).value, x) == if x == fd then cur & !del else Watched(d, x)
  {
    Bits(cur, del);
    Bits(cur & !del, NONE);
  }

  /** Creating never aborts, keeps the mirror, adds exactly the mask to exactly that descriptor. */
  lemma CreateKeeps(c: Center, fd: nat, mask: Mask, cb: nat)
    requires Inv(c)
    ensures var r := CreateEvent(c, fd, mask, cb);
            && r.Some? && Inv(r.value)
            && forall x: nat :: Registered(r.value, x) == if x == fd then Registered(c, fd) | mask else Registered(c, x)
  {
    CoveringInv(c, fd);
    var c1 := Covering(c, fd);
    var e := c1.events[fd];
    Bits(e.mask, mask);
    assert Watched(c1.driver, fd) == Registered(c1, fd);
    if e.mask != mask {
      AddWatches(c1.driver, fd, e.mask, mask);
    } else {
      assert e.mask | mask == e.mask;
    }
  }

  lemma DeleteKeeps(c: Center, fd: nat, mask: Mask)
    requires Inv(c)
    ensures var r := DeleteEvent(c, fd, mask);
            && r.Some? && Inv(r.value)
            && forall x: nat :: Registered(r.value, x) == if x == fd then Registered(c, fd) & !mask else Registered(c, x)
  {
    if fd < |c.events| && c.events[fd].mask != NONE {
      Bits(c.events[fd].mask, mask);
      assert Watched(c.driver, fd) == Registered(c, fd);
      DelWatches(c.driver, fd, c.events[fd].mask, mask);
    }
  }

  /** The callback of a requested bit is the new one unless the descriptor already had exactly
      this mask: then the call returns early and the old callback stays. */
  lemma CallbackInstalled(c: Center, fd: nat, mask: Mask, cb: nat)
    requires Inv(c)
    ensures var r, c1 := CreateEvent(c, fd, mask, cb), Covering(c, fd);
            && r.Some? && fd < |r.value.events|
            && (mask & READABLE != 0 ==>
                  (r.value.events[fd].readCb == Some(cb) <==> Registered(c, fd) != mask || c1.events[fd].readCb == Some(cb)))
            && (mask & WRITABLE != 0 ==>
                  (r.value.events[fd].writeCb == Some(cb) <==> Registered(c, fd) != mask || c1.events[fd].writeCb == Some(cb)))
            && (mask & READABLE == 0 ==> r.value.events[fd].readCb == c1.events[fd].readCb)
            && (mask & WRITABLE == 0 ==> r.value.events[fd].writeCb == c1.events[fd].writeCb)
  {
    CreateKeeps(c, fd, mask, cb);
    CoveringInv(c, fd);
  }

  // ---------- Handlers ----------

  /** What is called when the descriptor is ready in this way. */
  function Handler(c: Center, fd: nat, bit: Mask): Option<nat> {
    if fd >= |c.events| then None else if bit == READABLE then c.events[fd].readCb else c.events[fd].writeCb
  }

  ghost predicate OneBit(bit: Mask) { bit == READABLE || bit == WRITABLE }

  /** A removal takes away the handlers it names, of that descriptor, and no other. */
  lemma DeleteEffect(c: Center, fd: nat, mask: Mask)
    requires Inv(c)
    ensures var r := DeleteEvent(c, fd, mask);
            && r.Some? && |r.value.events| == |c.events|
            && (forall x: nat, bit :: OneBit(bit) ==>
                  Handler(r.value, x, bit) == if x == fd && mask & bit != 0 then None else Handler(c, x, bit))
            && (forall x :: 0 <= x < |c.events| && x != fd ==> r.value.events[x] == c.events[x])
  {
    DeleteKeeps(c, fd, mask);
    if fd < |c.events| { assert CallbacksMatch(c.events[fd]); }
  }

  /** A registration sets the handlers it names, of that descriptor, unless that mask is registered already. */
  lemma CreateEffect(c: Center, fd: nat, mask: Mask, cb: nat)
    requires Inv(c)
    ensures var r := CreateEvent(c, fd, mask, cb);
            && r.Some? && |r.value.events| >= |c.events|
            && (forall x: nat, bit :: OneBit(bit) ==>
                  Handler(r.value, x, bit)
                  == if x == fd && mask & bit != 0 && Registered(c, fd) != mask then Some(cb) else Handler(c, x, bit))
            && (forall x :: 0 <= x < |c.events| && x != fd ==> r.value.events[x] == c.events[x])
            && (forall x :: |c.events| <= x < |r.value.events| && x != fd ==> r.value.events[x] == NoEvent)
  {
    CreateKeeps(c, fd, mask, cb);
    CoveringEffect(c, fd);
  }

  lemma CoveringEffect(c: Center, fd: nat)
    requires |c.events| > 0
    ensures var c' := Covering(c, fd);
            && fd < |c'.events| && |c'.events| >= |c.events| && c'.driver == c.driver
            && (forall x :: 0 <= x < |c.events| ==> c'.events[x] == c.events[x])
            && (forall x :: |c.events| <= x < |c'.events| ==> c'.events[x] == NoEvent)
  {
  }

  // ---------- Every run ----------

  function Start(n: nat, select: bool): Center {
    Center(seq(n, i => NoEvent), if select then Select({}, {}, 0) else Epoll(map[]))
  }

  function RunFrom(c: Center, ops: seq<Op>): Option<Center>
    requires |c.events| > 0
    decreases |ops|
  {
    if ops == [] then Some(c)
    else
      match Apply(c, ops[0])
      case None => None
      case Some(c1) => if |c1.events| > 0 then RunFrom(c1, ops[1..]) else None
  }

  lemma {:induction false} RunInv(c: Center, ops: seq<Op>)
    requires Inv(c)
    ensures RunFrom(c, ops).Some? && Inv(RunFrom(c, ops).value)
    decreases |ops|
  {
    if ops != [] {
      match ops[0] {
        case Create(fd, mask, cb) => CreateKeeps(c, fd, mask, cb);
        case Delete(fd, mask) => DeleteKeeps(c, fd, mask);
      }
      RunInv(Apply(c, ops[0]).value, ops[1..]);
    }
  }

  /** After any sequence of operations, with either driver and no failed driver call, the driver
      watches exactly the registered masks, a bit is set exactly when its callback is there,
      epoll has an entry exactly for the registered descriptors, and select scans all of them. */
  lemma MirrorInEveryRun(n: nat, select: bool, ops: seq<Op>)
    requires n > 0
    ensures var r := RunFrom(Start(n, select), ops);
            && r.Some?
            && (forall fd: nat :: Watched(r.value.driver, fd) == Registered(r.value, fd))
            && (forall i :: 0 <= i < |r.value.events| ==> CallbacksMatch(r.value.events[i]))
            && (r.value.driver.Epoll? ==> forall fd: nat :: fd in r.value.driver.interest <==> Registered(r.value, fd) != NONE)
            && (r.value.driver.Select? ==> forall fd: nat :: Registered(r.value, fd) != NONE ==> fd <= r.value.driver.maxFd)
  {
    RunInv(Start(n, select), ops);
  }

  /** The two handlers of one descriptor. */
  datatype Pair = Pair(read: Option<nat>, write: Option<nat>)

  function MaskOf(h: Pair): Mask {
    (if h.read.Some? then READABLE else NONE) | (if h.write.Some? then WRITABLE else NONE)
  }

  /** What the operations on descriptor `fd`, and they alone, make of its handlers: the last registration
      of each bit since its last removal, except those that repeat the mask in force. */
  function HandlersAfter(h: Pair, ops: seq<Op>, fd: nat): Pair
    decreases |ops|
  {
    if ops == [] then h
    else
      var h1 := match ops[0]
        case Create(f, mask, cb) =>
          if f != fd || mask == MaskOf(h) then h
          else Pair(if mask & READABLE != 0 then Some(cb) else h.read, if mask & WRITABLE != 0 then Some(cb) else h.write)
        case Delete(f, mask) =>
          if f != fd then h
          else Pair(if mask & READABLE != 0 then None else h.read, if mask & WRITABLE != 0 then None else h.write);
      HandlersAfter(h1, ops[1..], fd)
  }

  function HandlersOf(c: Center, fd: nat): Pair { Pair(Handler(c, fd, READABLE), Handler(c, fd, WRITABLE)) }

  lemma MaskOfHandlers(c: Center, fd: nat)
    requires Inv(c)
    ensures MaskOf(HandlersOf(c, fd)) == Registered(c, fd)
  {
    if fd < |c.events| {
      assert CallbacksMatch(c.events[fd]);
      Bits(c.events[fd].mask, NONE);
    }
  }

  lemma OneOpHandlers(c: Center, op: Op, fd: nat)
    requires Inv(c)
    ensures Apply(c, op).Some? && Inv(Apply(c, op).value)
    ensures HandlersOf(Apply(c, op).value, fd) == HandlersAfter(HandlersOf(c, fd), [op], fd)
  {
    assert [op][1..] == [];
    MaskOfHandlers(c, fd);
    match op {
      case Create(f, mask, cb) =>
        CreateKeeps(c, f, mask, cb);
        CreateEffect(c, f, mask, cb);
      case Delete(f, mask) =>
        DeleteKeeps(c, f, mask);
        DeleteEffect(c, f, mask);
    }
  }

  /** After any operations each descriptor has exactly the handlers that its own operations leave it. */
  lemma {:induction false} HandlersInEveryRun(c: Center, ops: seq<Op>, fd: nat)
    requires Inv(c)
    ensures RunFrom(c, ops).Some? && HandlersOf(RunFrom(c, ops).value, fd) == HandlersAfter(HandlersOf(c, fd), ops, fd)
    decreases |ops|
  {
    if ops != [] {
      OneOpHandlers(c, ops[0], fd);
      assert [ops[0]][1..] == [];
      HandlersInEveryRun(Apply(c, ops[0]).value, ops[1..], fd);
    }
  }

  /** The drivers cannot be told apart: the same operations lead to the same table and the same interest. */
  lemma {:induction false} DriversAgree(c: Center, d: Center, ops: seq<Op>)
    requires Inv(c) && Inv(d) && c.events == d.events
    ensures var r, r' := RunFrom(c, ops), RunFrom(d, ops);
            && r.Some? && r'.Some? && r.value.events == r'.value.events
            && forall fd: nat :: Watched(r.value.driver, fd) == Watched(r'.value.driver, fd)
    decreases |ops|
  {
    if ops == [] {
      assert forall fd: nat :: Registered(c, fd) == Registered(d, fd);
    } else {
      match ops[0] {
        case Create(fd, mask, cb) =>
          CreateKeeps(c, fd, mask, cb);
          CreateKeeps(d, fd, mask, cb);
        case Delete(fd, mask) =>
          DeleteKeeps(c, fd, mask);
          DeleteKeeps(d, fd, mask);
      }
      DriversAgree(Apply(c, ops[0]).value, Apply(d, ops[0]).value, ops[1..]);
    }
  }

  // ---------- The object ----------

  class FileEventCenter {
    var fileEvents: seq<FileEvent>
    var driver: Driver

    function View(): Center
      reads this
    {
      Center(fileEvents, driver)
    }

    constructor (n: nat, select: bool)
      ensures View() == Start(n, select)
    {
      fileEvents := seq(n, i => NoEvent);
      driver := if select then Select({}, {}, 0) else Epoll(map[]);
    }

    method Grow(fd: nat)
      requires |fileEvents| > 0 && fd >= |fileEvents|
      modifies this`fileEvents
      ensures fileEvents == Padded(old(fileEvents), Grown(|old(fileEvents)|, fd))
      ensures |fileEvents| > fd && fileEvents[..|old(fileEvents)|] == old(fileEvents)
    {
      var n := |fileEvents|;
      var newSize := 4 * n;
      while fd >= newSize
        invariant newSize >= 4 * n
        invariant Grown(n, fd) == if fd < newSize then newSize else Grown(newSize, fd)
        decreases fd - newSize
      {
        newSize := 4 * newSize;
      }
      fileEvents := fileEvents + seq(newSize - n, i => NoEvent);
    }

    method CreateFileEvent(fd: nat, mask: Mask, cb: nat) returns (ok: bool)
      requires |fileEvents| > 0
      modifies this
      ensures ok == CreateEvent(old(View()), fd, mask, cb).Some?
      ensures ok ==> View() == CreateEvent(old(View()), fd, mask, cb).value
    {
      if fd >= |fileEvents| { Grow(fd); }
      if fileEvents[fd].mask == mask { return true; }
      var d := AddEvent(driver, fd, fileEvents[fd].mask, mask);
      if d.None? { return false; }
      driver := d.value;
      var e := fileEvents[fd].(mask := fileEvents[fd].mask | mask);
      if mask & READABLE != 0 { e := e.(readCb := Some(cb)); }
      if mask & WRITABLE != 0 { e := e.(writeCb := Some(cb)); }
      fileEvents := fileEvents[fd := e];
      ok := true;
    }

    method DeleteFileEvent(fd: nat, mask: Mask) returns (ok: bool)
      modifies this
      ensures ok == DeleteEvent(old(View()), fd, mask).Some?
      ensures ok ==> View() == DeleteEvent(old(View()), fd, mask).value
    {
      if fd >= |fileEvents| || fileEvents[fd].mask == NONE { return true; }
      var d := DelEvent(driver, fd, fileEvents[fd].mask, mask);
      if d.None? { return false; }
      driver := d.value;
      var e := fileEvents[fd];
      if mask & READABLE != 0 && e.readCb.Some? { e := e.(readCb := None); }
      if mask & WRITABLE != 0 && e.writeCb.Some? { e := e.(writeCb := None); }
      fileEvents := fileEvents[fd := e.(mask := e.mask & !mask)];
      ok := true;
    }
  }
}
