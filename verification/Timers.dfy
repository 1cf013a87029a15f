/** Timers of an event centre: a list ordered by expiry and an index from ids into it. */
module Timers {
  import opened Common

  /** `node` is the identity that an iterator into the ordered list stands for. */
  datatype Timer = Timer(node: nat, expire: nat, id: nat, cb: nat)

  /** `fired` and `deleted` are history: ids whose callback was called, ids removed before that. */
  datatype Center = Center(
    events: seq<Timer>, index: map<nat, nat>, nextId: nat, nextNode: nat, fired: seq<nat>, deleted: set<nat>)

  const NoTimers := Center([], map[], 1, 0, [], {})

  /** What a callback may do: create a timer at the clock's time, or delete one. */
  datatype Op = Create(clock: nat, delay: nat, cb: nat) | Delete(id: nat)

  /** A new timer goes behind those that expire at the same time. */
  function Insert(events: seq<Timer>, e: Timer): seq<Timer> {
    if events == [] || e.expire < events[0].expire then [e] + events else [events[0]] + Insert(events[1..], e)
  }

  function Erase(events: seq<Timer>, node: nat): seq<Timer> {
    if events == [] then [] else if events[0].node == node then events[1..] else [events[0]] + Erase(events[1..], node)
  }

  function CreateTimer(t: Center, clock: nat, delay: nat, cb: nat): Center {
    t.(events := Insert(t.events, Timer(t.nextNode, clock + delay, t.nextId, cb)),
       index := t.index[t.nextId := t.nextNode], nextId := t.nextId + 1, nextNode := t.nextNode + 1)
  }

  function DeleteTimer(t: Center, id: nat): Center {
    if id >= t.nextId || id == 0 || id !in t.index then t
    else t.(events := Erase(t.events, t.index[id]), index := t.index - {id}, deleted := t.deleted + {id})
  }

  function Apply(t: Center, op: Op): Center {
    match op
    case Create(clock, delay, cb) => CreateTimer(t, clock, delay, cb)
    case Delete(id) => DeleteTimer(t, id)
  }

  function ApplyAll(t: Center, ops: seq<Op>): Center
    decreases |ops|
  {
    if ops == [] then t else ApplyAll(Apply(t, ops[0]), ops[1..])
  }

  function TakeFirst(t: Center): Center
    requires t.events != []
  {
    t.(events := t.events[1..], index := t.index - {t.events[0].id}, fired := t.fired + [t.events[0].id])
  }

  /** `returned` is false if the callbacks given do not suffice for the call to come to its end. */
  datatype Outcome = Outcome(after: Center, fired: seq<Timer>, returned: bool)

  /** One call at the sampled time `now`; the i-th callback called performs `script[i]`. */
  function Process(t: Center, now: nat, script: seq<seq<Op>>): Outcome
    decreases |script|
  {
    if t.events == [] || t.events[0].expire > now then Outcome(t, [], true)
    else if script == [] then Outcome(t, [], false)
    else
      var o := Process(ApplyAll(TakeFirst(t), script[0]), now, script[1..]);
      o.(fired := [t.events[0]] + o.fired)
  }

  // ---------- Invariant ----------

  /** Earlier expiry first; timers that expire together in the order of their creation. */
  ghost predicate Precedes(a: Timer, b: Timer) {
    a.expire < b.expire || (a.expire == b.expire && a.id < b.id)
  }

  ghost predicate Sorted(events: seq<Timer>) {
    forall i, j :: 0 <= i < j < |events| ==> Precedes(events[i], events[j])
  }

  ghost predicate Distinct(events: seq<Timer>) {
    forall i, j :: 0 <= i < j < |events| ==> events[i].id != events[j].id && events[i].node != events[j].node
  }

  /** The list and the index hold the same timers. */
  ghost predicate Linked(events: seq<Timer>, index: map<nat, nat>) {
    && (forall e :: e in events ==> e.id in index && index[e.id] == e.node)
    && (forall id :: id in index ==> exists e :: e in events && e.id == id)
  }

  /** Every id ever given out is pending, fired or deleted, and only one of these, once. */
  ghost predicate Conserved(t: Center) {
    && NoDup(t.fired)
    && (forall id :: id in t.index ==> id !in t.fired && id !in t.deleted)
    && (forall id :: id in t.fired ==> id !in t.deleted)
    && (forall id :: 1 <= id < t.nextId <==> id in t.index || id in t.fired || id in t.deleted)
  }

  ghost predicate Inv(t: Center) {
    && Sorted(t.events) && Distinct(t.events) && Linked(t.events, t.index) && Conserved(t)
    && t.nextId >= 1 && forall e :: e in t.events ==> e.node < t.nextNode
  }

  lemma {:induction false} InsertEffect(events: seq<Timer>, e: Timer)
    requires Sorted(events) && forall x :: x in events ==> x.id < e.id
    ensures Sorted(Insert(events, e))
    ensures forall x :: x in Insert(events, e) <==> x in events || x == e
  {
    if events != [] {
      assert events == [events[0]] + events[1..];
      if e.expire >= events[0].expire {
        assert events[0] in events;
        InsertEffect(events[1..], e);
        var r := Insert(events[1..], e);
        forall i | 0 <= i < |r|
          ensures Precedes(events[0], r[i])
        {
          assert r[i] in r;
        }
      }
    }
  }

  lemma {:induction false} InsertDistinct(events: seq<Timer>, e: Timer)
    requires Distinct(events) && forall x :: x in events ==> x.id != e.id && x.node != e.node
    ensures Distinct(Insert(events, e))
    ensures forall x :: x in Insert(events, e) <==> x in events || x == e
  {
    if events != [] && e.expire >= events[0].expire {
      assert events == [events[0]] + events[1..];
      assert forall x :: x in events[1..] ==> x in events;
      InsertDistinct(events[1..], e);
      var r := Insert(events[1..], e);
      forall i | 0 <= i < |r|
        ensures r[i].id != events[0].id && r[i].node != events[0].node
      {
        assert r[i] in r;
      }
    }
  }

  lemma {:induction false} EraseMembers(events: seq<Timer>, node: nat)
    requires Distinct(events)
    ensures forall x :: x in Erase(events, node) <==> x in events && x.node != node
  {
    if events != [] {
      assert events == [events[0]] + events[1..];
      if events[0].node != node { EraseMembers(events[1..], node); }
    }
  }

  lemma {:induction false} EraseOrder(events: seq<Timer>, node: nat)
    requires Sorted(events) && Distinct(events)
    ensures Sorted(Erase(events, node)) && Distinct(Erase(events, node))
  {
    if events != [] && events[0].node != node {
      EraseOrder(events[1..], node);
      EraseMembers(events[1..], node);
      var r := Erase(events[1..], node);
      forall i | 0 <= i < |r|
        ensures r[i].id != events[0].id && r[i].node != events[0].node && Precedes(events[0], r[i])
      {
        assert r[i] in r && r[i] in events[1..];
      }
    }
  }

  lemma EraseEffect(events: seq<Timer>, node: nat)
    requires Sorted(events) && Distinct(events)
    ensures Sorted(Erase(events, node)) && Distinct(Erase(events, node))
    ensures forall x :: x in Erase(events, node) <==> x in events && x.node != node
  {
    EraseMembers(events, node);
    EraseOrder(events, node);
  }

  lemma CreateInv(t: Center, clock: nat, delay: nat, cb: nat)
    requires Inv(t)
    ensures Inv(CreateTimer(t, clock, delay, cb))
  {
    var e, t' := Timer(t.nextNode, clock + delay, t.nextId, cb), CreateTimer(t, clock, delay, cb);
    assert t.nextId !in t.index && t.nextId !in t.fired && t.nextId !in t.deleted;
    assert forall x :: x in t.events ==> x.id in t.index;
    InsertEffect(t.events, e);
    InsertDistinct(t.events, e);
    CreateLinked(t.events, t.index, e);
    assert Conserved(t');
  }

  lemma CreateLinked(events: seq<Timer>, index: map<nat, nat>, e: Timer)
    requires Linked(events, index) && e.id !in index && forall x :: x in Insert(events, e) <==> x in events || x == e
    ensures Linked(Insert(events, e), index[e.id := e.node])
  {
    var index' := index[e.id := e.node];
    forall id | id in index'
      ensures exists x :: x in Insert(events, e) && x.id == id
    {
      if id == e.id {
        assert e in Insert(events, e);
      } else {
        var x :| x in events && x.id == id;
        assert x in Insert(events, e);
      }
    }
  }

  lemma DeleteInv(t: Center, id: nat)
    requires Inv(t)
    ensures Inv(DeleteTimer(t, id))
  {
    var t' := DeleteTimer(t, id);
    if t' != t {
      var d :| d in t.events && d.id == id;
      assert d.node == t.index[id];
      EraseEffect(t.events, t.index[id]);
      SameNodeSameId(t.events, d);
      forall i | i in t'.index
        ensures exists x :: x in t'.events && x.id == i
      {
        var x :| x in t.events && x.id == i;
        assert x.node != d.node;
        assert x in t'.events;
      }
    }
  }

  lemma SameNodeSameId(events: seq<Timer>, d: Timer)
    requires Distinct(events) && d in events
    ensures forall x :: x in events && (x.node == d.node || x.id == d.id) ==> x == d
  {
  }

  lemma TakeFirstLinked(events: seq<Timer>, index: map<nat, nat>)
    requires events != [] && Distinct(events) && Linked(events, index)
    ensures Linked(events[1..], index - {events[0].id})
  {
    var d := events[0];
    assert events == [d] + events[1..];
    forall i | i in index && i != d.id
      ensures exists x :: x in events[1..] && x.id == i
    {
      var x :| x in events && x.id == i;
      assert x in events[1..];
    }
    forall e | e in events[1..]
      ensures e.id in index && index[e.id] == e.node && e.id != d.id
    {
      var i :| 0 <= i < |events[1..]| && events[1..][i] == e;
      assert events[i + 1] == e;
    }
  }

  lemma TakeFirstInv(t: Center)
    requires Inv(t) && t.events != []
    ensures Inv(TakeFirst(t))
  {
    TakeFirstLinked(t.events, t.index);
    assert t.events[0] in t.events;
    assert forall i :: 0 <= i < |t.events[1..]| ==> t.events[1..][i] == t.events[i + 1];
    TakeFirstConserved(t);
  }

  lemma TakeFirstConserved(t: Center)
    requires Conserved(t) && t.events != [] && t.events[0].id in t.index
    ensures Conserved(TakeFirst(t))
  {
  }

  lemma {:induction false} ApplyAllInv(t: Center, ops: seq<Op>)
    requires Inv(t)
    ensures Inv(ApplyAll(t, ops))
    decreases |ops|
  {
    if ops != [] {
      match ops[0] {
        case Create(clock, delay, cb) => CreateInv(t, clock, delay, cb);
        case Delete(id) => DeleteInv(t, id);
      }
      ApplyAllInv(Apply(t, ops[0]), ops[1..]);
    }
  }

  // ---------- What one call does ----------

  /** Callbacks see a clock that has not gone back behind the sampled time. */
  ghost predicate ClockFrom(ops: seq<Op>, now: nat) {
    forall i :: 0 <= i < |ops| && ops[i].Create? ==> ops[i].clock >= now
  }

  /** All come after a timer of this expiry and id. */
  ghost predicate NoneBefore(events: seq<Timer>, lo: nat, id: nat) {
    forall e :: e in events ==> e.expire > lo || (e.expire == lo && e.id > id)
  }

  lemma IdsKnown(t: Center)
    requires Inv(t)
    ensures forall e :: e in t.events ==> 1 <= e.id < t.nextId
  {
    forall e | e in t.events
      ensures 1 <= e.id < t.nextId
    {
      assert e.id in t.index;
    }
  }

  lemma ApplyLate(t: Center, op: Op, now: nat, lo: nat, id: nat)
    requires Inv(t) && (op.Create? ==> op.clock >= now) && NoneBefore(t.events, lo, id) && lo <= now && id < t.nextId
    ensures NoneBefore(Apply(t, op).events, lo, id) && Apply(t, op).fired == t.fired && id < Apply(t, op).nextId
  {
    match op {
      case Create(clock, delay, cb) =>
        IdsKnown(t);
        InsertEffect(t.events, Timer(t.nextNode, clock + delay, t.nextId, cb));
      case Delete(d) =>
        if Apply(t, op) != t { EraseEffect(t.events, t.index[d]); }
    }
  }

  lemma {:induction false} ApplyAllLate(t: Center, ops: seq<Op>, now: nat, lo: nat, id: nat)
    requires Inv(t) && ClockFrom(ops, now) && NoneBefore(t.events, lo, id) && lo <= now && id < t.nextId
    ensures NoneBefore(ApplyAll(t, ops).events, lo, id) && ApplyAll(t, ops).fired == t.fired
    decreases |ops|
  {
    if ops != [] {
      ApplyLate(t, ops[0], now, lo, id);
      ApplyInv(t, ops[0]);
      forall i | 0 <= i < |ops[1..]| && ops[1..][i].Create?
        ensures ops[1..][i].clock >= now
      {
        assert ops[1..][i] == ops[i + 1];
      }
      ApplyAllLate(Apply(t, ops[0]), ops[1..], now, lo, id);
    }
  }

  ghost function Ids(es: seq<Timer>): seq<nat> { seq(|es|, i requires 0 <= i < |es| => es[i].id) }

  /** What a call promises about its firings. */
  ghost predicate FiredWell(t: Center, now: nat, o: Outcome, lo: nat, id: nat) {
    && Sorted(o.fired) && NoneBefore(o.fired, lo, id)
    && (forall e :: e in o.fired ==> e.expire <= now)
    && o.after.fired == t.fired + Ids(o.fired)
    && (o.returned ==> forall e :: e in o.after.events ==> e.expire > now)
  }

  lemma FiredOneMore(t: Center, t2: Center, now: nat, o1: Outcome, lo: nat, id: nat)
    requires t.events != [] && t2.fired == t.fired + [t.events[0].id]
    requires FiredWell(t2, now, o1, t.events[0].expire, t.events[0].id)
    requires t.events[0].expire <= now && NoneBefore([t.events[0]], lo, id)
    ensures FiredWell(t, now, o1.(fired := [t.events[0]] + o1.fired), lo, id)
  {
    var e := t.events[0];
    var fired := [e] + o1.fired;
    assert t.fired + [e.id] + Ids(o1.fired) == t.fired + Ids(fired);
    assert e in [e];
    forall i, j | 0 <= i < j < |fired|
      ensures Precedes(fired[i], fired[j])
    {
      assert fired[j] == o1.fired[j - 1] && o1.fired[j - 1] in o1.fired;
    }
  }

  lemma OneFiring(t: Center, now: nat, ops: seq<Op>)
    requires Inv(t) && t.events != [] && t.events[0].expire <= now && ClockFrom(ops, now)
    ensures var t', e := ApplyAll(TakeFirst(t), ops), t.events[0];
            Inv(t') && NoneBefore(t'.events, e.expire, e.id) && t'.fired == t.fired + [e.id]
  {
    var e := t.events[0];
    IdsKnown(t);
    assert e in t.events;
    TakeFirstInv(t);
    TakeFirstLate(t.events);
    ApplyAllInv(TakeFirst(t), ops);
    ApplyAllLate(TakeFirst(t), ops, now, e.expire, e.id);
  }

  lemma TakeFirstLate(events: seq<Timer>)
    requires events != [] && Sorted(events)
    ensures NoneBefore(events[1..], events[0].expire, events[0].id)
  {
    forall e | e in events[1..]
      ensures Precedes(events[0], e)
    {
      var i :| 0 <= i < |events[1..]| && events[1..][i] == e;
      assert events[i + 1] == e;
    }
  }

  lemma NoneExpired(t: Center, now: nat, lo: nat, id: nat)
    requires Sorted(t.events) && (t.events == [] || t.events[0].expire > now)
    ensures FiredWell(t, now, Outcome(t, [], true), lo, id)
  {
    assert t.fired + [] == t.fired;
    if t.events != [] { TakeFirstLate(t.events); }
    assert t.events != [] ==> t.events == [t.events[0]] + t.events[1..];
  }

  /** One call fires in order of expiry, those that expire together in order of creation, and only
      what has expired at its sampled time; it records each firing, and when it returns nothing
      expired is left. */
  lemma {:induction false} ProcessFires(t: Center, now: nat, script: seq<seq<Op>>, lo: nat, id: nat)
    requires Inv(t) && NoneBefore(t.events, lo, id) && forall i :: 0 <= i < |script| ==> ClockFrom(script[i], now)
    ensures FiredWell(t, now, Process(t, now, script), lo, id)
    decreases |script|
  {
    if t.events != [] && t.events[0].expire <= now && script != [] {
      OneFiring(t, now, script[0]);
      assert t.events[0] in t.events;
      var t2 := ApplyAll(TakeFirst(t), script[0]);
      ProcessFires(t2, now, script[1..], t.events[0].expire, t.events[0].id);
      FiredOneMore(t, t2, now, Process(t2, now, script[1..]), lo, id);
    } else if t.events == [] || t.events[0].expire > now {
      NoneExpired(t, now, lo, id);
    } else {
      assert t.fired + [] == t.fired;
    }
  }

  /** A timer pending and expired when a call starts has been fired or deleted when it returns,
      and none that was fired or deleted before is fired by it. */
  lemma ExpiredAreServed(t: Center, now: nat, script: seq<seq<Op>>, e: Timer)
    requires Inv(t) && forall i :: 0 <= i < |script| ==> ClockFrom(script[i], now)
    requires e in t.events && e.expire <= now && Process(t, now, script).returned
    ensures var o := Process(t, now, script);
            (e.id in Ids(o.fired) || e.id in o.after.deleted) && !(e.id in Ids(o.fired) && e.id in o.after.deleted)
            && (forall f :: f in o.fired ==> f.id !in t.fired && f.id !in o.after.deleted)
  {
    var o := Process(t, now, script);
    IdsKnown(t);
    ProcessFires(t, now, script, 0, 0);
    ProcessInv(t, now, script);
    ProcessKeeps(t, now, script);
    forall f | f in o.fired
      ensures f.id !in t.fired && f.id in o.after.fired
    {
      var i :| 0 <= i < |o.fired| && o.fired[i] == f;
      assert o.after.fired[|t.fired| + i] == f.id;
      assert forall j :: 0 <= j < |t.fired| ==> o.after.fired[j] == t.fired[j];
    }
    forall id | id in Ids(o.fired)
      ensures id in o.after.fired
    {
      var i :| 0 <= i < |o.fired| && Ids(o.fired)[i] == id;
      assert o.fired[i] in o.fired;
    }
    assert e.id in t.index && e.id !in t.fired;
    assert 1 <= e.id < t.nextId <= o.after.nextId;
    if e.id in o.after.index {
      var x :| x in o.after.events && x.id == e.id;
      StaysItself(t, now, script, e, x);
      assert false;
    }
    if e.id in o.after.fired { assert e.id in Ids(o.fired); }
  }

  lemma ApplyInv(t: Center, op: Op)
    requires Inv(t)
    ensures Inv(Apply(t, op))
  {
    match op {
      case Create(clock, delay, cb) => CreateInv(t, clock, delay, cb);
      case Delete(id) => DeleteInv(t, id);
    }
  }

  lemma ApplyKeeps(t: Center, op: Op)
    requires Inv(t)
    ensures var t' := Apply(t, op); t.nextId <= t'.nextId && (forall x :: x in t'.events ==> x in t.events || x.id >= t.nextId)
  {
    match op {
      case Create(clock, delay, cb) =>
        IdsKnown(t);
        InsertEffect(t.events, Timer(t.nextNode, clock + delay, t.nextId, cb));
      case Delete(id) => if Apply(t, op) != t { EraseEffect(t.events, t.index[id]); }
    }
  }

  /** Ids only grow; a timer keeps its expiry as long as it is pending. */
  lemma {:induction false} ApplyAllKeeps(t: Center, ops: seq<Op>)
    requires Inv(t)
    ensures var t' := ApplyAll(t, ops);
            t.nextId <= t'.nextId && (forall x :: x in t'.events ==> x in t.events || x.id >= t.nextId)
    decreases |ops|
  {
    if ops != [] {
      ApplyInv(t, ops[0]);
      ApplyKeeps(t, ops[0]);
      ApplyAllKeeps(Apply(t, ops[0]), ops[1..]);
    }
  }

  lemma {:induction false} ProcessKeeps(t: Center, now: nat, script: seq<seq<Op>>)
    requires Inv(t)
    ensures var o := Process(t, now, script);
            t.nextId <= o.after.nextId && (forall x :: x in o.after.events ==> x in t.events || x.id >= t.nextId)
    decreases |script|
  {
    if t.events != [] && t.events[0].expire <= now && script != [] {
      TakeFirstInv(t);
      ApplyAllKeeps(TakeFirst(t), script[0]);
      ApplyAllInv(TakeFirst(t), script[0]);
      ProcessKeeps(ApplyAll(TakeFirst(t), script[0]), now, script[1..]);
    }
  }

  lemma StaysItself(t: Center, now: nat, script: seq<seq<Op>>, e: Timer, x: Timer)
    requires Inv(t) && e in t.events && x in Process(t, now, script).after.events && x.id == e.id
    ensures x == e
  {
    ProcessKeeps(t, now, script);
    assert e.id in t.index;
    SameNodeSameId(t.events, e);
  }

  // ---------- Termination of a call ----------

  ghost predicate Delayed(ops: seq<Op>, now: nat) {
    forall i :: 0 <= i < |ops| && ops[i].Create? ==> ops[i].clock + ops[i].delay > now
  }

  /** How many of the timers have expired. */
  ghost function Expired(events: seq<Timer>, now: nat): nat {
    if events == [] then 0 else (if events[0].expire <= now then 1 else 0) + Expired(events[1..], now)
  }

  lemma {:induction false} InsertExpired(events: seq<Timer>, e: Timer, now: nat)
    requires e.expire > now
    ensures Expired(Insert(events, e), now) == Expired(events, now)
  {
    if events != [] && e.expire >= events[0].expire { InsertExpired(events[1..], e, now); }
  }

  lemma {:induction false} EraseExpired(events: seq<Timer>, node: nat, now: nat)
    ensures Expired(Erase(events, node), now) <= Expired(events, now)
  {
    if events != [] && events[0].node != node { EraseExpired(events[1..], node, now); }
  }

  lemma {:induction false} ApplyAllExpired(t: Center, ops: seq<Op>, now: nat)
    requires Delayed(ops, now)
    ensures Expired(ApplyAll(t, ops).events, now) <= Expired(t.events, now)
    decreases |ops|
  {
    if ops != [] {
      match ops[0] {
        case Create(clock, delay, cb) => InsertExpired(t.events, Timer(t.nextNode, clock + delay, t.nextId, cb), now);
        case Delete(id) => if id in t.index { EraseExpired(t.events, t.index[id], now); }
      }
      forall i | 0 <= i < |ops[1..]| && ops[1..][i].Create?
        ensures ops[1..][i].clock + ops[1..][i].delay > now
      {
        assert ops[1..][i] == ops[i + 1];
      }
      ApplyAllExpired(Apply(t, ops[0]), ops[1..], now);
    }
  }

  /** If no callback creates a timer that has already expired, the call returns after at most
      as many callbacks as there were expired timers. */
  lemma {:induction false} ProcessReturns(t: Center, now: nat, script: seq<seq<Op>>)
    requires (forall i :: 0 <= i < |script| ==> Delayed(script[i], now)) && |script| >= Expired(t.events, now)
    ensures Process(t, now, script).returned && |Process(t, now, script).fired| <= Expired(t.events, now)
    decreases |script|
  {
    if t.events != [] && t.events[0].expire <= now && script != [] {
      ApplyAllExpired(TakeFirst(t), script[0], now);
      ProcessReturns(ApplyAll(TakeFirst(t), script[0]), now, script[1..]);
    }
  }

  /** A callback that re-creates its timer with no delay while the clock stands still keeps the call going. */
  lemma {:induction false} ZeroDelayNeverReturns(t: Center, now: nat, script: seq<seq<Op>>)
    requires |t.events| == 1 && t.events[0].expire <= now
    requires forall i :: 0 <= i < |script| ==> script[i] == [Create(now, 0, 0)]
    ensures !Process(t, now, script).returned && |Process(t, now, script).fired| == |script|
    decreases |script|
  {
    if script != [] {
      var t1 := TakeFirst(t);
      var op := Create(now, 0, 0);
      assert script[0][0] == op && script[0][1..] == [];
      assert ApplyAll(Apply(t1, op), []) == Apply(t1, op);
      ZeroDelayNeverReturns(ApplyAll(t1, script[0]), now, script[1..]);
    }
  }

  /** Callbacks that create timers with a delay of at least `d`, by a clock that has not gone back. */
  ghost predicate DelayAtLeast(script: seq<seq<Op>>, now: nat, d: nat) {
    forall i :: 0 <= i < |script| ==> OpsDelayed(script[i], now, d)
  }

  ghost predicate OpsDelayed(ops: seq<Op>, now: nat, d: nat) {
    forall j :: 0 <= j < |ops| && ops[j].Create? ==> ops[j].clock >= now && ops[j].delay >= d
  }

  /** One expired timer, whatever its callback. */
  function OneExpired(now: nat): Center { Center([Timer(0, now, 1, 0)], map[1 := 0], 2, 1, [], {}) }

  /** A call returns, for every centre and all callbacks that keep to a delay of `d`, exactly if
      `d` is positive: with as many callbacks as there are expired timers it is done. */
  lemma ReturnsIffDelayed(now: nat, d: nat)
    ensures (forall t: Center, script :: DelayAtLeast(script, now, d) && |script| >= Expired(t.events, now) ==> Process(t, now, script).returned)
       <==> d > 0
  {
    if d > 0 {
      forall t: Center, script | DelayAtLeast(script, now, d) && |script| >= Expired(t.events, now)
        ensures Process(t, now, script).returned
      {
        forall i | 0 <= i < |script|
          ensures Delayed(script[i], now)
        {
          assert OpsDelayed(script[i], now, d);
        }
        ProcessReturns(t, now, script);
      }
    } else {
      var t, script := OneExpired(now), [[Create(now, 0, 0)]];
      assert OpsDelayed(script[0], now, d);
      ZeroDelayNeverReturns(t, now, script);
      assert t.events[1..] == [];
      assert Expired(t.events, now) == 1;
    }
  }

  /** Without a positive delay no number of callbacks is enough for a call on the centre that one
      creation makes. */
  lemma NoBoundWithoutDelay(now: nat, bound: nat)
    ensures OneExpired(now) == CreateTimer(NoTimers, now, 0, 0)
    ensures var script := seq(bound, (_: int) => [Create(now, 0, 0)]);
            DelayAtLeast(script, now, 0) && !Process(OneExpired(now), now, script).returned
  {
    ZeroDelayNeverReturns(OneExpired(now), now, seq(bound, (_: int) => [Create(now, 0, 0)]));
  }

  // ---------- Every run ----------

  datatype Action = Do(op: Op) | ProcessAt(now: nat, script: seq<seq<Op>>)

  function Act(t: Center, a: Action): Center {
    match a
    case Do(op) => Apply(t, op)
    case ProcessAt(now, script) => Process(t, now, script).after
  }

  function RunFrom(t: Center, actions: seq<Action>): Center
    decreases |actions|
  {
    if actions == [] then t else RunFrom(Act(t, actions[0]), actions[1..])
  }

  lemma {:induction false} ProcessInv(t: Center, now: nat, script: seq<seq<Op>>)
    requires Inv(t)
    ensures Inv(Process(t, now, script).after)
    decreases |script|
  {
    if t.events != [] && t.events[0].expire <= now && script != [] {
      TakeFirstInv(t);
      ApplyAllInv(TakeFirst(t), script[0]);
      ProcessInv(ApplyAll(TakeFirst(t), script[0]), now, script[1..]);
    }
  }

  lemma {:induction false} RunInvFrom(t: Center, actions: seq<Action>)
    requires Inv(t)
    ensures Inv(RunFrom(t, actions))
    decreases |actions|
  {
    if actions != [] {
      match actions[0] {
        case Do(Create(clock, delay, cb)) => CreateInv(t, clock, delay, cb);
        case Do(Delete(id)) => DeleteInv(t, id);
        case ProcessAt(now, script) => ProcessInv(t, now, script);
      }
      RunInvFrom(Act(t, actions[0]), actions[1..]);
    }
  }

  /** In every run the list and the index are in bijection by id, the list is in order of expiry,
      and each id ever given out is pending, fired once or deleted, exclusively. */
  lemma TimersAccounted(actions: seq<Action>)
    ensures var t := RunFrom(NoTimers, actions);
            && Sorted(t.events) && Distinct(t.events) && Linked(t.events, t.index) && |t.index| == |t.events|
            && Conserved(t)
  {
    RunInvFrom(NoTimers, actions);
    var t := RunFrom(NoTimers, actions);
    IndexSize(t.events, t.index);
  }

  lemma {:induction false} IndexSize(events: seq<Timer>, index: map<nat, nat>)
    requires Distinct(events) && Linked(events, index)
    ensures |index| == |events|
  {
    if events == [] {
      assert index == map[];
    } else {
      TakeFirstLinked(events, index);
      assert events[0] in events;
      IndexSize(events[1..], index - {events[0].id});
      assert (index - {events[0].id}).Keys == index.Keys - {events[0].id};
    }
  }

  // ---------- One timer from its creation on ----------

  lemma {:induction false} InsertAdds(events: seq<Timer>, e: Timer)
    ensures multiset(Insert(events, e)) == multiset(events) + multiset{e}
  {
    if events != [] {
      assert events == [events[0]] + events[1..];
      if e.expire >= events[0].expire { InsertAdds(events[1..], e); }
    }
  }

  /** The pending timers are those there were and one more, with the next id, that expires after its delay
      and carries its callback. */
  lemma CreateAdds(t: Center, clock: nat, delay: nat, cb: nat) returns (e: Timer)
    ensures var t' := CreateTimer(t, clock, delay, cb);
            && e.id == t.nextId && e.expire == clock + delay && e.cb == cb
            && multiset(t'.events) == multiset(t.events) + multiset{e}
            && t'.nextId == t.nextId + 1 && t'.fired == t.fired && t'.deleted == t.deleted
  {
    e := Timer(t.nextNode, clock + delay, t.nextId, cb);
    InsertAdds(t.events, e);
  }

  /** The pending timers after a removal are those with another id; one that was pending counts as deleted. */
  lemma DeleteRemoves(t: Center, id: nat)
    requires Inv(t)
    ensures var t' := DeleteTimer(t, id);
            && (forall e :: e in t'.events <==> e in t.events && e.id != id)
            && t'.deleted == (if exists e :: e in t.events && e.id == id then t.deleted + {id} else t.deleted)
            && t'.nextId == t.nextId && t'.fired == t.fired
  {
    IdsKnown(t);
    if id in t.index {
      var d :| d in t.events && d.id == id;
      SameNodeSameId(t.events, d);
      EraseEffect(t.events, t.index[id]);
    }
  }

  /** Timer `e` is pending as it was created, or was fired, or was deleted. */
  ghost predicate Alive(t: Center, e: Timer) {
    && e.id < t.nextId
    && (forall x :: x in t.events && x.id == e.id ==> x == e)
    && (e in t.events || e.id in t.fired || e.id in t.deleted)
  }

  lemma CreateAlive(t: Center, e: Timer, clock: nat, delay: nat, cb: nat)
    requires Alive(t, e)
    ensures Alive(CreateTimer(t, clock, delay, cb), e)
  {
    var n := CreateAdds(t, clock, delay, cb);
    var t' := CreateTimer(t, clock, delay, cb);
    forall x
      ensures x in t'.events <==> x in t.events || x == n
    {
      assert x in t'.events <==> x in multiset(t'.events);
    }
  }

  lemma ApplyAlive(t: Center, op: Op, e: Timer)
    requires Inv(t) && Alive(t, e)
    ensures Alive(Apply(t, op), e) && t.deleted <= Apply(t, op).deleted && Apply(t, op).fired == t.fired
  {
    match op {
      case Create(clock, delay, cb) => CreateAlive(t, e, clock, delay, cb);
      case Delete(id) => DeleteRemoves(t, id);
    }
  }

  lemma {:induction false} ApplyAllAlive(t: Center, ops: seq<Op>, e: Timer)
    requires Inv(t) && Alive(t, e)
    ensures Alive(ApplyAll(t, ops), e) && t.deleted <= ApplyAll(t, ops).deleted && ApplyAll(t, ops).fired == t.fired
    decreases |ops|
  {
    if ops != [] {
      ApplyAlive(t, ops[0], e);
      ApplyInv(t, ops[0]);
      ApplyAllAlive(Apply(t, ops[0]), ops[1..], e);
    }
  }

  lemma TakeFirstAlive(t: Center, e: Timer)
    requires Inv(t) && Alive(t, e) && t.events != []
    ensures Alive(TakeFirst(t), e) && (t.events[0].id == e.id ==> t.events[0] == e)
  {
    assert t.events == [t.events[0]] + t.events[1..];
    assert t.events[0] in t.events;
  }

  /** What a call at `now` does with timer `e`: it is fired only when expired, and only as it was created;
      if the call returns and it has expired, it is no longer pending. */
  ghost predicate ServedBy(t: Center, now: nat, o: Outcome, e: Timer) {
    && Alive(o.after, e) && t.deleted <= o.after.deleted && o.after.fired == t.fired + Ids(o.fired)
    && (forall f :: f in o.fired ==> f.expire <= now && (f.id == e.id ==> f == e))
    && (o.returned && e.expire <= now ==> e !in o.after.events)
  }

  lemma ServedOneMore(t: Center, t2: Center, now: nat, o: Outcome, e: Timer)
    requires t.events != [] && t.events[0].expire <= now && (t.events[0].id == e.id ==> t.events[0] == e)
    requires t2.fired == t.fired + [t.events[0].id] && t.deleted <= t2.deleted && ServedBy(t2, now, o, e)
    ensures ServedBy(t, now, o.(fired := [t.events[0]] + o.fired), e)
  {
    var fired := [t.events[0]] + o.fired;
    assert t.fired + [t.events[0].id] + Ids(o.fired) == t.fired + Ids(fired);
  }

  lemma LateOnes(t: Center, now: nat, e: Timer)
    requires Sorted(t.events) && (t.events == [] || t.events[0].expire > now) && e.expire <= now
    ensures e !in t.events
  {
    if t.events != [] {
      TakeFirstLate(t.events);
      assert t.events == [t.events[0]] + t.events[1..];
    }
  }

  lemma {:induction false} ProcessServes(t: Center, now: nat, script: seq<seq<Op>>, e: Timer)
    requires Inv(t) && Alive(t, e)
    ensures ServedBy(t, now, Process(t, now, script), e)
    decreases |script|
  {
    if t.events != [] && t.events[0].expire <= now && script != [] {
      TakeFirstInv(t);
      TakeFirstAlive(t, e);
      ApplyAllAlive(TakeFirst(t), script[0], e);
      ApplyAllInv(TakeFirst(t), script[0]);
      var t2 := ApplyAll(TakeFirst(t), script[0]);
      ProcessServes(t2, now, script[1..], e);
      ServedOneMore(t, t2, now, Process(t2, now, script[1..]), e);
    } else {
      assert t.fired + Ids([]) == t.fired;
      if (t.events == [] || t.events[0].expire > now) && e.expire <= now { LateOnes(t, now, e); }
    }
  }

  lemma {:induction false} RunAlive(t: Center, actions: seq<Action>, e: Timer)
    requires Inv(t) && Alive(t, e)
    ensures Inv(RunFrom(t, actions)) && Alive(RunFrom(t, actions), e) && t.deleted <= RunFrom(t, actions).deleted
    decreases |actions|
  {
    if actions != [] {
      match actions[0] {
        case Do(op) =>
          ApplyAlive(t, op, e);
          ApplyInv(t, op);
        case ProcessAt(now, script) =>
          ProcessServes(t, now, script, e);
          ProcessInv(t, now, script);
      }
      RunAlive(Act(t, actions[0]), actions[1..], e);
    }
  }

  lemma NewIsAlive(t: Center, clock: nat, delay: nat, cb: nat) returns (e: Timer)
    requires Inv(t)
    ensures Inv(CreateTimer(t, clock, delay, cb)) && Alive(CreateTimer(t, clock, delay, cb), e)
    ensures e.id == t.nextId && e.expire == clock + delay && e.cb == cb
  {
    e := CreateAdds(t, clock, delay, cb);
    CreateInv(t, clock, delay, cb);
    var t' := CreateTimer(t, clock, delay, cb);
    assert e in multiset(t'.events);
    SameNodeSameId(t'.events, e);
  }

  /** Main result for one timer. Created at any time in any run and whatever happens in between, a call
      before its delay has passed does not fire it; a call that returns after that leaves it fired or
      deleted; and what is fired under its id carries its callback. */
  lemma TimerServed(t: Center, clock: nat, delay: nat, cb: nat, actions: seq<Action>, now: nat, script: seq<seq<Op>>)
    requires Inv(t)
    ensures var id, t1 := t.nextId, RunFrom(CreateTimer(t, clock, delay, cb), actions);
            var o := Process(t1, now, script);
            && (forall f :: f in o.fired && f.id == id ==> f.cb == cb && f.expire == clock + delay)
            && (now < clock + delay ==> id !in Ids(o.fired))
            && (o.returned && clock + delay <= now ==> id in o.after.fired || id in o.after.deleted)
  {
    var e := NewIsAlive(t, clock, delay, cb);
    RunAlive(CreateTimer(t, clock, delay, cb), actions, e);
    var t1 := RunFrom(CreateTimer(t, clock, delay, cb), actions);
    ProcessServes(t1, now, script, e);
    var o := Process(t1, now, script);
    if e.id in Ids(o.fired) {
      var i :| 0 <= i < |o.fired| && Ids(o.fired)[i] == e.id;
      assert o.fired[i] in o.fired;
    }
  }

  /** A timer removed while pending is never fired afterwards, in any run. */
  lemma DeletedNeverFires(t: Center, id: nat, actions: seq<Action>)
    requires Inv(t) && exists e :: e in t.events && e.id == id
    ensures id !in RunFrom(DeleteTimer(t, id), actions).fired
  {
    var e :| e in t.events && e.id == id;
    DeleteInv(t, id);
    DeleteRemoves(t, id);
    IdsKnown(t);
    assert Alive(DeleteTimer(t, id), e);
    RunAlive(DeleteTimer(t, id), actions, e);
  }

  // ---------- The object ----------

  lemma {:induction false} InsertAt(events: seq<Timer>, e: Timer, i: nat)
    requires i <= |events| && (forall j :: 0 <= j < i ==> events[j].expire <= e.expire)
    requires i < |events| ==> e.expire < events[i].expire
    ensures Insert(events, e) == events[..i] + [e] + events[i..]
  {
    if i > 0 {
      InsertAt(events[1..], e, i - 1);
      assert [events[0]] + (events[1..][..i - 1] + [e] + events[1..][i - 1..]) == events[..i] + [e] + events[i..];
    }
  }

  lemma {:induction false} EraseAt(events: seq<Timer>, node: nat, i: nat)
    requires i <= |events| && (forall j :: 0 <= j < i ==> events[j].node != node)
    requires i < |events| ==> events[i].node == node
    ensures Erase(events, node) == events[..i] + (if i < |events| then events[i + 1..] else [])
  {
    if i > 0 {
      EraseAt(events[1..], node, i - 1);
      assert i < |events| ==> events[1..][i..] == events[i + 1..];
      assert [events[0]] + events[1..][..i - 1] == events[..i];
    }
  }

  class TimerCenter {
    var timeEvents: seq<Timer>
    var eventMap: map<nat, nat>
    var nextId: nat
    var nextNode: nat
    ghost var fired: seq<nat>
    ghost var deleted: set<nat>

    ghost function View(): Center
      reads this
    {
      Center(timeEvents, eventMap, nextId, nextNode, fired, deleted)
    }

    constructor ()
      ensures View() == NoTimers
    {
      timeEvents, eventMap, nextId, nextNode, fired, deleted := [], map[], 1, 0, [], {};
    }

    method CreateTimeEvent(clock: nat, delay: nat, cb: nat) returns (id: nat)
      modifies this
      ensures View() == CreateTimer(old(View()), clock, delay, cb) && id == old(nextId)
    {
      id := nextId;
      nextId := nextId + 1;
      var e := Timer(nextNode, clock + delay, id, cb);
      var i := 0;
      while i < |timeEvents| && timeEvents[i].expire <= e.expire
        invariant i <= |timeEvents| && forall j :: 0 <= j < i ==> timeEvents[j].expire <= e.expire
      {
        i := i + 1;
      }
      InsertAt(timeEvents, e, i);
      timeEvents := timeEvents[..i] + [e] + timeEvents[i..];
      eventMap := eventMap[id := nextNode];
      nextNode := nextNode + 1;
    }

    method DeleteTimeEvent(id: nat)
      modifies this
      ensures View() == DeleteTimer(old(View()), id)
    {
      if id >= nextId || id == 0 || id !in eventMap { return; }
      var i := 0;
      while i < |timeEvents| && timeEvents[i].node != eventMap[id]
        invariant i <= |timeEvents| && forall j :: 0 <= j < i ==> timeEvents[j].node != eventMap[id]
      {
        i := i + 1;
      }
      EraseAt(timeEvents, eventMap[id], i);
      timeEvents := timeEvents[..i] + (if i < |timeEvents| then timeEvents[i + 1..] else []);
      eventMap := eventMap - {id};
      deleted := deleted + {id};
    }

    /** What one callback does to this centre. */
    method DoRequest(ops: seq<Op>)
      modifies this
      ensures View() == ApplyAll(old(View()), ops)
    {
      var i := 0;
      while i < |ops|
        invariant i <= |ops| && ApplyAll(View(), ops[i..]) == ApplyAll(old(View()), ops)
      {
        assert ops[i..][0] == ops[i] && ops[i..][1..] == ops[i + 1..];
        match ops[i] {
          case Create(clock, delay, cb) => var _ := CreateTimeEvent(clock, delay, cb);
          case Delete(id) => DeleteTimeEvent(id);
        }
        i := i + 1;
      }
    }

    method ProcessTimeEvents(now: nat, script: seq<seq<Op>>) returns (processed: nat, returned: bool)
      modifies this
      ensures var o := Process(old(View()), now, script);
              View() == o.after && processed == |o.fired| && returned == o.returned
    {
      processed := 0;
      assert script[0..] == script;
      while timeEvents != [] && timeEvents[0].expire <= now
        invariant processed <= |script|
        invariant var o, o1 := Process(old(View()), now, script), Process(View(), now, script[processed..]);
                  o.after == o1.after && o.returned == o1.returned && |o.fired| == processed + |o1.fired|
        decreases |script| - processed
      {
        if processed == |script| { return processed, false; }
        assert script[processed..][1..] == script[processed + 1..];
        ghost var t := View();
        var e := timeEvents[0];
        timeEvents := timeEvents[1..];
        eventMap := eventMap - {e.id};
        fired := fired + [e.id];
        assert View() == TakeFirst(t);
        DoRequest(script[processed]);
        processed := processed + 1;
      }
      returned := true;
    }
  }
}
