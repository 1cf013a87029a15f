/** The dispatcher's book of queue pairs: registered, dying with a beacon posted, dead, deleted.
    `Registry` and its functions are the specification; class `RdmaDispatcher` is the object. */
module QpRegistry {
  import opened Common

  type QpId = nat
  type SockId = nat

  /** An entry of `qp_conns`. */
  datatype Entry = Entry(qp: QpId, conn: Option<SockId>)

  datatype QpInfo = QpInfo(number: nat, dying: bool)

  /** `qps` holds the queue pair objects not yet deleted, `batch` the list swapped out for
      deletion, `deletions` every deletion so far. */
  datatype Registry = Registry(
    conns: map<nat, Entry>, count: int, dead: seq<QpId>, batch: seq<QpId>,
    qps: map<QpId, QpInfo>, deletions: seq<QpId>)

  const NoQps := Registry(map[], 0, [], [], map[], [])

  /** `None` stands for a failed assertion. */
  function Register(r: Registry, q: QpId, number: nat, c: SockId): Option<Registry> {
    if number in r.conns then None
    else Some(r.(conns := r.conns[number := Entry(q, Some(c))], count := r.count + 1,
                 qps := r.qps[q := QpInfo(number, false)]))
  }

  function GetConn(r: Registry, number: nat): Option<SockId> {
    if number !in r.conns || r.conns[number].qp !in r.qps || r.qps[r.conns[number].qp].dying then None
    else r.conns[number].conn
  }

  function FindDead(r: Registry, number: nat, i: nat): Option<QpId>
    requires i <= |r.dead|
    decreases |r.dead| - i
  {
    if i == |r.dead| then None
    else if r.dead[i] in r.qps && r.qps[r.dead[i]].number == number then Some(r.dead[i])
    else FindDead(r, number, i + 1)
  }

  function GetQp(r: Registry, number: nat): Option<QpId> {
    if number in r.conns then Some(r.conns[number].qp) else FindDead(r, number, 0)
  }

  function EnqueueDead(r: Registry, number: nat): Registry {
    if number !in r.conns then r
    else r.(dead := r.dead + [r.conns[number].qp], conns := r.conns - {number}, count := r.count - 1)
  }

  /** The error transition and the beacon succeed together, or the queue pair counts as failed. */
  function ScheduleDestroy(r: Registry, number: nat, ok: bool): Registry {
    if number !in r.conns then r
    else
      var e := r.conns[number];
      if e.qp !in r.qps then r
      else if r.qps[e.qp].dying || ok then MarkDying(r, number)
      else EnqueueDead(r, number)
  }

  function SwapDead(r: Registry): Registry {
    r.(batch := r.dead, dead := [])
  }

  function DeleteFirst(r: Registry): Registry
    requires r.batch != []
  {
    r.(batch := r.batch[1..], qps := r.qps - {r.batch[0]}, deletions := r.deletions + [r.batch[0]])
  }

  ghost predicate Registered(r: Registry, q: QpId) {
    q in r.qps && r.qps[q].number in r.conns && r.conns[r.qps[q].number].qp == q
  }

  ghost predicate Dead(r: Registry, q: QpId) {
    q in r.dead || q in r.batch
  }

  ghost predicate NumbersDistinct(r: Registry) {
    forall q, q' :: q in r.qps && q' in r.qps && q != q' ==> r.qps[q].number != r.qps[q'].number
  }

  /** The count is right and entries lead to queue pairs of that number; one without its socket is dying. */
  ghost predicate ConnsOk(r: Registry) {
    && r.count == |r.conns|
    && (forall n :: n in r.conns ==> r.conns[n].qp in r.qps && r.qps[r.conns[n].qp].number == n)
    && (forall n :: n in r.conns && r.conns[n].conn == None ==> r.qps[r.conns[n].qp].dying)
  }

  /** Nothing is dead twice or deleted twice; what is deleted is gone. */
  ghost predicate ListsOk(r: Registry) {
    && NoDup(r.dead) && NoDup(r.batch) && (forall q :: q in r.dead ==> q !in r.batch)
    && (forall q :: Dead(r, q) ==> q in r.qps)
    && NoDup(r.deletions)
    && (forall q :: q in r.deletions ==> q !in r.qps)
  }

  /** Every queue pair object is registered or dead, and not both. */
  ghost predicate BooksOk(r: Registry) {
    forall q :: q in r.qps ==> (Registered(r, q) <==> !Dead(r, q))
  }

  ghost predicate RegistryInv(r: Registry) {
    ConnsOk(r) && ListsOk(r) && BooksOk(r) && NumbersDistinct(r)
  }

  /** The hardware gives a new queue pair an identity and a number that no other one has. */
  ghost predicate FreshQp(r: Registry, q: QpId, number: nat) {
    q !in r.qps && q !in r.deletions && forall q' :: q' in r.qps ==> r.qps[q'].number != number
  }

  lemma RegisterConns(r: Registry, q: QpId, number: nat, c: SockId)
    requires ConnsOk(r) && NumbersDistinct(r) && FreshQp(r, q, number)
    ensures Register(r, q, number, c).Some?
    ensures ConnsOk(Register(r, q, number, c).value) && NumbersDistinct(Register(r, q, number, c).value)
  {
  }

  lemma RegisterLists(r: Registry, q: QpId, number: nat, c: SockId)
    requires ListsOk(r) && FreshQp(r, q, number) && number !in r.conns
    ensures ListsOk(Register(r, q, number, c).value)
  {
    assert forall x :: Dead(Register(r, q, number, c).value, x) <==> Dead(r, x);
  }

  lemma RegisterBooks(r: Registry, q: QpId, number: nat, c: SockId)
    requires RegistryInv(r) && FreshQp(r, q, number) && number !in r.conns
    ensures BooksOk(Register(r, q, number, c).value)
  {
    var r' := Register(r, q, number, c).value;
    forall x | x in r'.qps
      ensures Registered(r', x) <==> !Dead(r', x)
    {
      assert x != q ==> r.qps[x].number != number;
      assert Dead(r', x) <==> Dead(r, x);
    }
  }

  lemma RegisterInv(r: Registry, q: QpId, number: nat, c: SockId)
    requires RegistryInv(r) && FreshQp(r, q, number)
    ensures Register(r, q, number, c).Some? && RegistryInv(Register(r, q, number, c).value)
  {
    RegisterConns(r, q, number, c);
    RegisterLists(r, q, number, c);
    RegisterBooks(r, q, number, c);
  }

  lemma EnqueueInv(r: Registry, number: nat)
    requires RegistryInv(r)
    ensures RegistryInv(EnqueueDead(r, number))
  {
    if number in r.conns {
      var r', q := EnqueueDead(r, number), r.conns[number].qp;
      assert Registered(r, q);
      assert r'.conns.Keys == r.conns.Keys - {number};
      assert forall x :: Dead(r', x) <==> x == q || Dead(r, x);
      assert forall x :: x in r.qps ==> (Registered(r', x) <==> Registered(r, x) && x != q);
    }
  }

  /** The entry stays, without its socket, until the beacon comes back. */
  function MarkDying(r: Registry, number: nat): Registry
    requires number in r.conns && r.conns[number].qp in r.qps
  {
    var e := r.conns[number];
    r.(conns := r.conns[number := e.(conn := None)], qps := r.qps[e.qp := r.qps[e.qp].(dying := true)])
  }

  lemma MarkDyingInv(r: Registry, number: nat)
    requires RegistryInv(r) && number in r.conns
    ensures RegistryInv(MarkDying(r, number))
  {
    var r' := MarkDying(r, number);
    assert r'.conns.Keys == r.conns.Keys && r'.qps.Keys == r.qps.Keys;
    assert forall q :: q in r.qps ==> r'.qps[q].number == r.qps[q].number;
    assert forall n :: n in r.conns ==> r'.conns[n].qp == r.conns[n].qp;
    forall x | x in r'.qps
      ensures Registered(r', x) <==> !Dead(r', x)
    {
      assert Dead(r', x) <==> Dead(r, x);
      assert Registered(r', x) <==> Registered(r, x);
    }
  }

  lemma ScheduleInv(r: Registry, number: nat, ok: bool)
    requires RegistryInv(r)
    ensures RegistryInv(ScheduleDestroy(r, number, ok))
  {
    if number in r.conns {
      if r.qps[r.conns[number].qp].dying || ok {
        MarkDyingInv(r, number);
      } else {
        EnqueueInv(r, number);
      }
    }
  }

  lemma SwapInv(r: Registry)
    requires RegistryInv(r) && r.batch == []
    ensures RegistryInv(SwapDead(r))
  {
    var r' := SwapDead(r);
    assert forall x :: Dead(r', x) <==> Dead(r, x);
    assert forall x :: Registered(r', x) <==> Registered(r, x);
  }

  lemma DeleteInv(r: Registry)
    requires RegistryInv(r) && r.batch != []
    ensures RegistryInv(DeleteFirst(r))
  {
    var r', q := DeleteFirst(r), r.batch[0];
    assert Dead(r, q);
    assert r.batch == [q] + r'.batch;
    assert forall x :: Dead(r', x) <==> Dead(r, x) && x != q;
    assert forall x :: x != q ==> (Registered(r', x) <==> Registered(r, x));
  }

  lemma {:induction false} FindDeadExact(r: Registry, number: nat, i: nat)
    requires i <= |r.dead| && NumbersDistinct(r) && forall j :: i <= j < |r.dead| ==> r.dead[j] in r.qps
    ensures forall q :: FindDead(r, number, i) == Some(q) <==> q in r.dead[i..] && r.qps[q].number == number
    decreases |r.dead| - i
  {
    if i < |r.dead| {
      FindDeadExact(r, number, i + 1);
      assert r.dead[i..] == [r.dead[i]] + r.dead[i + 1..];
    } else {
      assert r.dead[i..] == [];
    }
  }

  /** A lookup by number finds a queue pair exactly if one of that number exists and has not been
      swapped out for deletion; a lookup of the socket needs it registered and not dying. */
  lemma LookupExact(r: Registry, number: nat, q: QpId)
    requires RegistryInv(r)
    ensures GetQp(r, number) == Some(q) <==> q in r.qps && r.qps[q].number == number && q !in r.batch
    ensures GetConn(r, number).Some? ==> GetQp(r, number).Some? && !r.qps[GetQp(r, number).value].dying
  {
    assert forall j :: 0 <= j < |r.dead| ==> Dead(r, r.dead[j]);
    FindDeadExact(r, number, 0);
    assert r.dead[0..] == r.dead;
    if number in r.conns {
      assert Registered(r, r.conns[number].qp);
    }
    if q in r.qps { assert Registered(r, q) <==> !Dead(r, q); }
  }

  /** A registration adds one entry, found under its number, and leaves every other lookup as it was. */
  lemma RegisterFinds(r: Registry, q: QpId, number: nat, c: SockId)
    requires ConnsOk(r) && FreshQp(r, q, number)
    ensures Register(r, q, number, c).Some?
    ensures var r' := Register(r, q, number, c).value;
            && GetConn(r', number) == Some(c) && r'.count == r.count + 1 && r'.conns.Keys == r.conns.Keys + {number}
            && (forall n :: n != number ==> GetConn(r', n) == GetConn(r, n))
            && GetQp(r', number) == Some(q) && r'.dead == r.dead && r'.batch == r.batch
  {
    assert number !in r.conns;
    assert forall n :: n in r.conns ==> r.conns[n].qp != q;
  }

  /** Scheduling a destruction: the queue pair is dying and waits for its beacon, or it is dead at once if the
      error transition fails; no other one is touched. */
  lemma ScheduleEffect(r: Registry, number: nat, ok: bool)
    requires RegistryInv(r) && number in r.conns
    ensures var q, r' := r.conns[number].qp, ScheduleDestroy(r, number, ok);
            && q in r.qps && r'.qps.Keys == r.qps.Keys && r'.batch == r.batch && r'.deletions == r.deletions
            && GetConn(r', number) == None
            && (forall n :: n != number ==> (n in r'.conns <==> n in r.conns) && GetConn(r', n) == GetConn(r, n))
            && (forall x :: x in r.qps && x != q ==> r'.qps[x] == r.qps[x])
            && if ok || r.qps[q].dying then
                 r'.dead == r.dead && r'.count == r.count && number in r'.conns && r'.qps[q].dying
               else
                 r'.dead == r.dead + [q] && r'.count == r.count - 1 && number !in r'.conns && !r'.qps[q].dying
  {
    forall n | n != number && n in r.conns
      ensures r.conns[n].qp != r.conns[number].qp
    {
      assert r.qps[r.conns[n].qp].number == n;
    }
  }
}
