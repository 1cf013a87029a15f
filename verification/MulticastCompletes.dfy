/** The undisturbed multicast exchange as a run: a session that has not begun can be brought to a
    connected sender, whatever the others have done; and what becomes of group number 0. */
module MulticastCompletes {
  import opened Sockets
  import opened Links
  import opened Multicast
  import opened MulticastHandshake

  /** The sender while it waits for its answer. */
  function WaitingSender(p: Party): Sock { NewClient(p.sender).(connecting := false, reading := true) }

  /** A receiver's answer, and the receiver once it has given it. */
  function AnswerOf(p: Party, i: nat): CmMeta
    requires i < |p.recv|
  {
    p.recv[i].(peerQpn := p.sender.localQpn)
  }

  function ActiveReceiver(p: Party, i: nat): Sock
    requires i < |p.recv|
  {
    NewServer(p.recv[i]).(peer := FirstTo(p), local := AnswerOf(p, i), qp := QpRts, active := true, peerQpn := p.sender.localQpn)
  }

  datatype Stage = Idle | Called | Replied | Acknowledged

  /** A receiver's connection at each stage of an undisturbed exchange. */
  function ReceiverAt(p: Party, i: nat, st: Stage): Link
    requires i < |p.recv|
  {
    match st
    case Idle => Link(NewServer(p.recv[i]), NoTraffic, NoTraffic)
    case Called => Link(NewServer(p.recv[i]), NoTraffic, Chan([FirstTo(p)], 0))
    case Replied => Link(ActiveReceiver(p, i), Chan([AnswerOf(p, i)], 0), Chan([FirstTo(p)], 1))
    case Acknowledged => Link(ActiveReceiver(p, i), Chan([AnswerOf(p, i)], 1), Chan([FirstTo(p), SecondTo(p, i)], 1))
  }

  function WireAt(st: Stage): Wire { if st == Idle then Dialing else Up }

  /** The session with its receivers at these stages and the group opened. */
  function SessionAt(p: Party, a: Stage, b: Stage): Session
    requires |p.recv| == MEMBERS
  {
    Session(Link(WaitingSender(p), Chan([FirstTo(p)], 1), NoTraffic), [ReceiverAt(p, 0, a), ReceiverAt(p, 1, b)],
            [WireAt(a), WireAt(b)], p.addr)
  }

  function StageAt(a: Stage, b: Stage, i: nat): Stage { if i == 0 then a else b }

  /** The stages after receiver `i` has moved on. */
  function Moved(p: Party, a: Stage, b: Stage, i: nat, st: Stage): Session
    requires |p.recv| == MEMBERS
  {
    if i == 0 then SessionAt(p, st, b) else SessionAt(p, a, st)
  }

  lemma MovedIs(p: Party, a: Stage, b: Stage, i: nat, st: Stage)
    requires |p.recv| == MEMBERS && i < MEMBERS
    ensures var s := SessionAt(p, a, b);
            Moved(p, a, b, i, st) == s.(recv := s.recv[i := ReceiverAt(p, i, st)], wire := s.wire[i := WireAt(st)])
  {
    var s := SessionAt(p, a, b);
    assert s.recv[i := ReceiverAt(p, i, st)] == Moved(p, a, b, i, st).recv;
    assert s.wire[i := WireAt(st)] == Moved(p, a, b, i, st).wire;
  }

  // ---------- What the daemon knows along the way ----------

  ghost predicate MemberAt(d: Daemon, id: nat, p: Party, i: nat, st: Stage)
    requires Known(d, id) && i < MEMBERS && |p.recv| == MEMBERS
  {
    match st
    case Idle => d.state[id].server[i] == SvInit && d.meta[id].receiver[i] == NoMeta
    case Acknowledged => d.state[id].server[i] == SvAckSent && d.meta[id].receiver[i] == AnswerOf(p, i)
    case _ => d.state[id].server[i] == SvHandshakeSent && d.meta[id].receiver[i] == NoMeta
  }

  /** The group of session `k` with its receivers at these stages; its number may be any, also 0. */
  ghost predicate GroupAt(d: Daemon, id: nat, k: nat, p: Party, a: Stage, b: Stage) {
    && |p.recv| == MEMBERS && Known(d, id) && d.addrs[id] == p.addr
    && d.conns[id] == [Conn(k, 0), Conn(k, 1), Conn(k, 2)]
    && McOf(d, Conn(k, 0)) == id && McOf(d, Conn(k, 1)) == id && McOf(d, Conn(k, 2)) == id
    && d.state[id].client == ClHandshakeReceived && d.meta[id].sender == FirstTo(p)
    && MemberAt(d, id, p, 0, a) && MemberAt(d, id, p, 1, b)
  }

  /** The daemon's numbers are as before. */
  ghost predicate SameNumbers(d: Daemon, d': Daemon) {
    d'.nextId == d.nextId && d'.meta.Keys == d.meta.Keys && d'.mcOf == d.mcOf
  }

  /** What an action does when nothing goes wrong. */
  ghost predicate Does(d: Daemon, k: nat, s: Session, act: Action, d': Daemon, s': Session) {
    CanAct(s, act) && Survives(d, k, s, act) && ActDaemon(d, k, s, act) == d' && ActSession(d, k, s, act) == s'
  }

  // ---------- One step each ----------

  lemma SenderCalls(d: Daemon, k: nat, p: Party)
    requires |p.recv| == MEMBERS
    ensures var s := NewSession(p);
            Does(d, k, s, AtSender(EvEstablished(true, true)), d, s.(sender := Link(WaitingSender(p), Chan([FirstTo(p)], 0), NoTraffic)))
  {
  }

  lemma GroupOpens(d: Daemon, k: nat, p: Party)
    requires |p.recv| == MEMBERS && d.nextId !in d.meta && McOf(d, Conn(k, 0)) == 0
    ensures var s := NewSession(p).(sender := Link(WaitingSender(p), Chan([FirstTo(p)], 0), NoTraffic));
            var d' := WithGroup(d, k, FirstTo(p), p.addr);
            Does(d, k, s, FromSender, d', SessionAt(p, Idle, Idle)) && GroupAt(d', d.nextId, k, p, Idle, Idle)
  {
    OpenGroupEffect(d, k, NewSession(p).(sender := Link(WaitingSender(p), Chan([FirstTo(p)], 0), NoTraffic)));
  }

  lemma WriteableIs(d: Daemon, id: nat, k: nat, p: Party, a: Stage, b: Stage, i: nat)
    requires GroupAt(d, id, k, p, a, b) && i < MEMBERS && StageAt(a, b, i) == Idle
    ensures ServerWriteable(d, Conn(k, i + 1), true) == Done(Opened(d, id, i), [Write(Conn(k, i + 1), FirstTo(p))], [])
  {
    assert FindConn(d.conns[id], Conn(k, i + 1), 0) == i;
  }

  lemma OpenedIs(d: Daemon, id: nat, k: nat, p: Party, a: Stage, b: Stage, i: nat)
    requires GroupAt(d, id, k, p, a, b) && i < MEMBERS && StageAt(a, b, i) == Idle
    ensures var d' := Opened(d, id, i);
            GroupAt(d', id, k, p, if i == 0 then Called else a, if i == 0 then b else Called) && SameNumbers(d, d')
  {
  }

  lemma MemberComesUp(d: Daemon, id: nat, k: nat, p: Party, a: Stage, b: Stage, i: nat)
    requires GroupAt(d, id, k, p, a, b) && i < MEMBERS && StageAt(a, b, i) == Idle
    ensures Does(d, k, SessionAt(p, a, b), MemberUp(i), Opened(d, id, i), Moved(p, a, b, i, Called))
  {
    WriteableIs(d, id, k, p, a, b, i);
    EffectOne(d, k, SessionAt(p, a, b), MemberUp(i), Opened(d, id, i), Write(Conn(k, i + 1), FirstTo(p)));
    CalledIs(p, a, b, k, i);
  }

  lemma CalledIs(p: Party, a: Stage, b: Stage, k: nat, i: nat)
    requires |p.recv| == MEMBERS && i < MEMBERS && StageAt(a, b, i) == Idle
    ensures var s := SessionAt(p, a, b);
            CanAct(s, MemberUp(i)) && Deliver(Consume(s, MemberUp(i)), Write(Conn(k, i + 1), FirstTo(p))) == Moved(p, a, b, i, Called)
  {
    MovedIs(p, a, b, i, Called);
    CalledLink(p, i);
  }

  lemma CalledLink(p: Party, i: nat)
    requires i < |p.recv|
    ensures var l := ReceiverAt(p, i, Idle); l.(down := l.down.Put([FirstTo(p)])) == ReceiverAt(p, i, Called)
  {
    assert [] + [FirstTo(p)] == [FirstTo(p)];
  }

  lemma ReceiverReplies(d: Daemon, k: nat, p: Party, a: Stage, b: Stage, i: nat)
    requires |p.recv| == MEMBERS && i < MEMBERS && StageAt(a, b, i) == Called
    ensures Does(d, k, SessionAt(p, a, b), AtReceiver(i, EvReceive(true)), d, Moved(p, a, b, i, Replied))
  {
    var s := SessionAt(p, a, b);
    assert After(s.recv[i], EvReceive(true)) == ReceiverAt(p, i, Replied);
    MovedIs(p, a, b, i, Replied);
    assert s.wire[i := Up] == s.wire;
  }

  lemma AckedIs(d: Daemon, id: nat, k: nat, p: Party, a: Stage, b: Stage, i: nat)
    requires GroupAt(d, id, k, p, a, b) && i < MEMBERS && StageAt(a, b, i) == Replied
    ensures var d' := Acked(d, id, i, AnswerOf(p, i));
            GroupAt(d', id, k, p, if i == 0 then Acknowledged else a, if i == 0 then b else Acknowledged) && SameNumbers(d, d')
  {
  }

  lemma ReceiverAcknowledged(d: Daemon, id: nat, k: nat, p: Party, a: Stage, b: Stage, i: nat)
    requires GroupAt(d, id, k, p, a, b) && i < MEMBERS && StageAt(a, b, i) == Replied && StageAt(a, b, 1 - i) != Acknowledged
    ensures Does(d, k, SessionAt(p, a, b), FromReceiver(i), Acked(d, id, i, AnswerOf(p, i)), Moved(p, a, b, i, Acknowledged))
  {
    var s := SessionAt(p, a, b);
    ReceiverCallback(d, k, s, p, i);
    RepliedEffect(d, k, s, p, i, Acked(d, id, i, AnswerOf(p, i)));
    RepliedIs(p, a, b, i);
  }

  lemma RepliedIs(p: Party, a: Stage, b: Stage, i: nat)
    requires |p.recv| == MEMBERS && i < MEMBERS && StageAt(a, b, i) == Replied
    ensures RepliedSession(SessionAt(p, a, b), p, i) == Moved(p, a, b, i, Acknowledged)
  {
    var s := SessionAt(p, a, b);
    MovedIs(p, a, b, i, Acknowledged);
    AcknowledgedLink(p, i);
    assert s.wire[i := Up] == s.wire;
  }

  lemma AcknowledgedLink(p: Party, i: nat)
    requires i < |p.recv|
    ensures var l := ReceiverAt(p, i, Replied);
            l.(up := l.up.(got := 1), down := l.down.Put([SecondTo(p, i)])) == ReceiverAt(p, i, Acknowledged)
  {
  }

  /** The daemon once everybody has been answered. */
  function AnsweredAll(d: Daemon, id: nat, p: Party): Daemon
    requires Known(d, id) && |p.recv| == MEMBERS
  {
    AllAnswered(Acked(d, id, 1, AnswerOf(p, 1)), id, p)
  }

  lemma SenderAnswered(d: Daemon, id: nat, k: nat, p: Party)
    requires GroupAt(d, id, k, p, Acknowledged, Replied)
    ensures Does(d, k, SessionAt(p, Acknowledged, Replied), FromReceiver(1), AnsweredAll(d, id, p),
                 AnsweredSession(SessionAt(p, Acknowledged, Acknowledged), p, id))
    ensures SameNumbers(d, AnsweredAll(d, id, p))
  {
    var s := SessionAt(p, Acknowledged, Replied);
    ReceiverCallback(d, k, s, p, 1);
    AnsweredEffect(d, k, s, p, 1, AnsweredAll(d, id, p), id);
    RepliedIs(p, Acknowledged, Replied, 1);
  }

  /** The session when the sender has its answer, and when it has taken it. */
  function Answered(p: Party, id: nat): Session
    requires |p.recv| == MEMBERS
  {
    AnsweredSession(SessionAt(p, Acknowledged, Acknowledged), p, id)
  }

  function Connected(p: Party, id: nat): Session
    requires |p.recv| == MEMBERS
  {
    var s := Answered(p, id);
    s.(sender := After(s.sender, EvReceive(true)))
  }

  lemma SenderConnects(d: Daemon, k: nat, p: Party, id: nat)
    requires |p.recv| == MEMBERS
    ensures Does(d, k, Answered(p, id), AtSender(EvReceive(true)), d, Connected(p, id))
    ensures var l := Connected(p, id).sender;
            l.sock.connected && !l.sock.error && l.sock.peerQpn == id && l.up.got == 1 && |l.up.log| == 2
  {
  }

  // ---------- The whole exchange ----------

  /** A run in which session `k` has come to `s` and the daemon to `d`. */
  ghost predicate Arrived(t: seq<System>, ps: seq<Party>, firstId: nat, k: nat, d: Daemon, s: Session) {
    && Run(t, ps, firstId) && k < |ps| && |t[|t| - 1].sessions| == |ps|
    && t[|t| - 1].sessions[k] == s && t[|t| - 1].daemon == d
  }

  lemma Advance(t: seq<System>, ps: seq<Party>, firstId: nat, k: nat, d: Daemon, s: Session, a: Action, d': Daemon, s': Session)
      returns (t': seq<System>)
    requires Arrived(t, ps, firstId, k, d, s) && Does(d, k, s, a, d', s')
    ensures Arrived(t', ps, firstId, k, d', s') && t'[|t'| - 1].sessions == t[|t| - 1].sessions[k := s']
  {
    var x := t[|t| - 1];
    var x' := System(d', x.sessions[k := s']);
    t' := t + [x'];
    assert StepAt(x, x', k, a);
    forall i | 0 < i < |t'|
      ensures Follows(t'[i - 1], t'[i])
    {
      if i < |t| {
        assert Follows(t[i - 1], t[i]);
      } else {
        assert t'[i - 1] == x && t'[i] == x';
      }
    }
  }

  /** The group is opened, and the receivers are called. */
  lemma FirstHalf(t0: seq<System>, ps: seq<Party>, firstId: nat, k: nat, d0: Daemon) returns (t: seq<System>, d: Daemon)
    requires k < |ps| && |ps[k].recv| == MEMBERS && Arrived(t0, ps, firstId, k, d0, NewSession(ps[k]))
    requires d0.nextId !in d0.meta && McOf(d0, Conn(k, 0)) == 0
    ensures Arrived(t, ps, firstId, k, d, SessionAt(ps[k], Called, Called)) && GroupAt(d, d0.nextId, k, ps[k], Called, Called)
    ensures SameNumbers(WithGroup(d0, k, FirstTo(ps[k]), ps[k].addr), d)
  {
    var p, id := ps[k], d0.nextId;
    var s1 := NewSession(p).(sender := Link(WaitingSender(p), Chan([FirstTo(p)], 0), NoTraffic));
    SenderCalls(d0, k, p);
    t := Advance(t0, ps, firstId, k, d0, NewSession(p), AtSender(EvEstablished(true, true)), d0, s1);
    GroupOpens(d0, k, p);
    var d1 := WithGroup(d0, k, FirstTo(p), p.addr);
    t := Advance(t, ps, firstId, k, d0, s1, FromSender, d1, SessionAt(p, Idle, Idle));
    MemberComesUp(d1, id, k, p, Idle, Idle, 0);
    OpenedIs(d1, id, k, p, Idle, Idle, 0);
    var d2 := Opened(d1, id, 0);
    t := Advance(t, ps, firstId, k, d1, SessionAt(p, Idle, Idle), MemberUp(0), d2, SessionAt(p, Called, Idle));
    MemberComesUp(d2, id, k, p, Called, Idle, 1);
    OpenedIs(d2, id, k, p, Called, Idle, 1);
    d := Opened(d2, id, 1);
    t := Advance(t, ps, firstId, k, d2, SessionAt(p, Called, Idle), MemberUp(1), d, SessionAt(p, Called, Called));
  }

  /** The receivers answer and are acknowledged, and the sender is answered. */
  lemma SecondHalf(t0: seq<System>, ps: seq<Party>, firstId: nat, k: nat, d0: Daemon, id: nat) returns (t: seq<System>, d: Daemon)
    requires k < |ps| && GroupAt(d0, id, k, ps[k], Called, Called)
    requires Arrived(t0, ps, firstId, k, d0, SessionAt(ps[k], Called, Called))
    ensures Arrived(t, ps, firstId, k, d, Connected(ps[k], id)) && SameNumbers(d0, d)
  {
    var p := ps[k];
    ReceiverReplies(d0, k, p, Called, Called, 0);
    t := Advance(t0, ps, firstId, k, d0, SessionAt(p, Called, Called), AtReceiver(0, EvReceive(true)), d0, SessionAt(p, Replied, Called));
    ReceiverReplies(d0, k, p, Replied, Called, 1);
    t := Advance(t, ps, firstId, k, d0, SessionAt(p, Replied, Called), AtReceiver(1, EvReceive(true)), d0, SessionAt(p, Replied, Replied));
    assert GroupAt(d0, id, k, p, Replied, Replied);
    ReceiverAcknowledged(d0, id, k, p, Replied, Replied, 0);
    AckedIs(d0, id, k, p, Replied, Replied, 0);
    var d1 := Acked(d0, id, 0, AnswerOf(p, 0));
    t := Advance(t, ps, firstId, k, d0, SessionAt(p, Replied, Replied), FromReceiver(0), d1, SessionAt(p, Acknowledged, Replied));
    SenderAnswered(d1, id, k, p);
    d := AnsweredAll(d1, id, p);
    t := Advance(t, ps, firstId, k, d1, SessionAt(p, Acknowledged, Replied), FromReceiver(1), d, Answered(p, id));
    SenderConnects(d, k, p, id);
    t := Advance(t, ps, firstId, k, d, Answered(p, id), AtSender(EvReceive(true)), d, Connected(p, id));
  }

  lemma Exchange(t0: seq<System>, ps: seq<Party>, firstId: nat, k: nat, d0: Daemon) returns (t: seq<System>, d: Daemon)
    requires k < |ps| && |ps[k].recv| == MEMBERS && Arrived(t0, ps, firstId, k, d0, NewSession(ps[k]))
    requires d0.nextId !in d0.meta && McOf(d0, Conn(k, 0)) == 0
    ensures Arrived(t, ps, firstId, k, d, Connected(ps[k], d0.nextId))
    ensures SameNumbers(WithGroup(d0, k, FirstTo(ps[k]), ps[k].addr), d)
  {
    t, d := FirstHalf(t0, ps, firstId, k, d0);
    t, d := SecondHalf(t, ps, firstId, k, d, d0.nextId);
  }

  /** However far the others are, a session that has not begun can be completed. */
  lemma MulticastCanComplete(t0: seq<System>, ps: seq<Party>, firstId: nat, k: nat) returns (t: seq<System>)
    requires EnoughIds(ps, firstId) && Run(t0, ps, firstId) && k < |ps| && |t0[|t0| - 1].sessions| == |ps|
    requires |ps[k].recv| == MEMBERS && t0[|t0| - 1].sessions[k] == NewSession(ps[k])
    ensures Run(t, ps, firstId) && |t[|t| - 1].sessions| == |ps|
    ensures t[|t| - 1].sessions[k].sender.sock.connected && !t[|t| - 1].sessions[k].sender.sock.error
  {
    var d0 := t0[|t0| - 1].daemon;
    NotBegun(t0, ps, firstId, k);
    var d;
    t, d := Exchange(t0, ps, firstId, k, d0);
    SenderConnects(d, k, ps[k], d0.nextId);
  }

  lemma NotBegun(t: seq<System>, ps: seq<Party>, firstId: nat, k: nat)
    requires EnoughIds(ps, firstId) && Run(t, ps, firstId) && k < |ps| && |t[|t| - 1].sessions| == |ps|
    requires |ps[k].recv| == MEMBERS && t[|t| - 1].sessions[k] == NewSession(ps[k])
    ensures var d := t[|t| - 1].daemon; d.nextId !in d.meta && McOf(d, Conn(k, 0)) == 0
  {
    var d := t[|t| - 1].daemon;
    RunInv(t, ps, firstId, |t| - 1);
    assert SessionInv(d, k, NewSession(ps[k]), ps[k]);
    ClaimedStep(d, d, k, |ps|);
  }

  // ---------- Group number 0 ----------

  /** The acknowledgement of a sender whose group is number 0 opens a second group for it. */
  lemma AcknowledgementReopens(d: Daemon, k: nat, p: Party)
    requires |p.recv| == MEMBERS && McOf(d, Conn(k, 0)) == 0 && d.nextId !in d.meta
    ensures var s := Connected(p, 0);
            CanAct(s, FromSender) && Survives(d, k, s, FromSender)
            && McOf(ActDaemon(d, k, s, FromSender), Conn(k, 0)) == d.nextId
            && ActSession(d, k, s, FromSender).sender.sock == s.sender.sock
  {
    SenderConnects(d, k, p, 0);
  }

  /** If numbers start at 0, some run connects a sender without error to peer number 0, while the
      daemon has it in group 1. */
  lemma ZeroGroupMisleads(ps: seq<Party>) returns (t: seq<System>)
    requires |ps| > 0 && forall k :: 0 <= k < |ps| ==> RealParty(ps[k])
    ensures Run(t, ps, 0) && |t[|t| - 1].sessions| == |ps|
    ensures var sock := t[|t| - 1].sessions[0].sender.sock;
            sock.connected && !sock.error && sock.peerQpn == 0 && McOf(t[|t| - 1].daemon, Conn(0, 0)) == 1
  {
    var d0 := NewDaemon(0);
    var x0 := System(d0, seq(|ps|, i requires 0 <= i < |ps| => assert RealParty(ps[i]); NewSession(ps[i])));
    assert RealParty(ps[0]);
    var d;
    t, d := Exchange([x0], ps, 0, 0, d0);
    AcknowledgementReopens(d, 0, ps[0]);
    SenderConnects(d, 0, ps[0], 0);
    var s := Connected(ps[0], 0);
    t := Advance(t, ps, 0, 0, d, s, FromSender, ActDaemon(d, 0, s, FromSender), ActSession(d, 0, s, FromSender));
  }

  /** Every session keeps its promise in every state of every run. */
  ghost predicate AllPromised(ps: seq<Party>, firstId: nat) {
    forall t, n, k :: Run(t, ps, firstId) && 0 <= n < |t| && 0 <= k < |ps| ==> PromisedAt(t, n, k, ps)
  }

  ghost predicate PromisedAt(t: seq<System>, n: nat, k: nat, ps: seq<Party>)
    requires n < |t| && k < |ps|
  {
    && k < |t[n].sessions| && RealParty(ps[k]) && Shape(t[n].sessions[k])
    && SessionPromise(t[n].daemon, k, t[n].sessions[k], ps[k])
  }

  // ---------- Numbers that wrap ----------

  /** The first `n` sessions have their groups, and the others have not begun. */
  ghost predicate FirstOpened(t: seq<System>, ps: seq<Party>, firstId: nat, n: nat) {
    && Run(t, ps, firstId)
    && var x := t[|t| - 1];
       && |x.sessions| == |ps| && x.daemon.nextId == (firstId + n) % ID_LIMIT
       && (forall g :: g in x.daemon.meta ==> firstId <= g < firstId + n)
       && forall j :: n <= j < |ps| ==> |ps[j].recv| == MEMBERS && x.sessions[j] == NewSession(ps[j]) && McOf(x.daemon, Conn(j, 0)) == 0
  }

  lemma OpenOneMore(t0: seq<System>, ps: seq<Party>, firstId: nat, n: nat) returns (t: seq<System>)
    requires FirstOpened(t0, ps, firstId, n) && n < |ps| && firstId + n < ID_LIMIT
    ensures FirstOpened(t, ps, firstId, n + 1)
  {
    var p, d := ps[n], t0[|t0| - 1].daemon;
    var s1 := NewSession(p).(sender := Link(WaitingSender(p), Chan([FirstTo(p)], 0), NoTraffic));
    SenderCalls(d, n, p);
    t := Advance(t0, ps, firstId, n, d, NewSession(p), AtSender(EvEstablished(true, true)), d, s1);
    GroupOpens(d, n, p);
    t := Advance(t, ps, firstId, n, d, s1, FromSender, WithGroup(d, n, FirstTo(p), p.addr), SessionAt(p, Idle, Idle));
  }

  lemma {:induction false} OpenFirst(ps: seq<Party>, firstId: nat, n: nat) returns (t: seq<System>)
    requires n <= |ps| && firstId < ID_LIMIT && firstId + n <= ID_LIMIT && forall k :: 0 <= k < |ps| ==> RealParty(ps[k])
    ensures FirstOpened(t, ps, firstId, n)
  {
    if n == 0 {
      t := [System(NewDaemon(firstId), seq(|ps|, i requires 0 <= i < |ps| => assert RealParty(ps[i]); NewSession(ps[i])))];
      assert forall j :: 0 <= j < |ps| ==> RealParty(ps[j]);
    } else {
      t := OpenFirst(ps, firstId, n - 1);
      t := OpenOneMore(t, ps, firstId, n - 1);
    }
  }

  /** The session that gets the wrapped number is connected to peer number 0, which stands for no group. */
  lemma WrappedMisleads(ps: seq<Party>, firstId: nat) returns (t: seq<System>)
    requires (forall k :: 0 <= k < |ps| ==> RealParty(ps[k])) && 1 <= firstId < ID_LIMIT && firstId + |ps| > ID_LIMIT
    ensures var k := ID_LIMIT - firstId;
            && Run(t, ps, firstId) && |t[|t| - 1].sessions| == |ps|
            && var sock := t[|t| - 1].sessions[k].sender.sock; sock.connected && !sock.error && sock.peerQpn == 0
  {
    var k := ID_LIMIT - firstId;
    var t0 := OpenFirst(ps, firstId, k);
    var d0 := t0[|t0| - 1].daemon;
    var d;
    t, d := Exchange(t0, ps, firstId, k, d0);
    SenderConnects(d, k, ps[k], 0);
  }

  lemma WrongPeerBreaks(t: seq<System>, n: nat, k: nat, ps: seq<Party>)
    requires n < |t| && k < |ps| && k < |t[n].sessions| && t[n].sessions[k].sender.sock.peerQpn == 0
    requires t[n].sessions[k].sender.sock.connected && !t[n].sessions[k].sender.sock.error
    ensures !PromisedAt(t, n, k, ps)
  {
  }

  /** The promise is kept in every run exactly if numbers start above 0 and there are enough of them. */
  lemma PromiseIffAboveZero(ps: seq<Party>, firstId: nat)
    requires |ps| > 0 && (forall k :: 0 <= k < |ps| ==> RealParty(ps[k])) && firstId < ID_LIMIT
    ensures AllPromised(ps, firstId) <==> 1 <= firstId && firstId + |ps| <= 0x1_0000_0000
  {
    if 1 <= firstId && firstId + |ps| <= ID_LIMIT {
      forall t, n, k | Run(t, ps, firstId) && 0 <= n < |t| && 0 <= k < |ps|
        ensures PromisedAt(t, n, k, ps)
      {
        MulticastAgreement(t, ps, firstId, n, k);
      }
    } else if firstId == 0 {
      var t := ZeroGroupMisleads(ps);
      WrongPeerBreaks(t, |t| - 1, 0, ps);
    } else {
      var t := WrappedMisleads(ps, firstId);
      WrongPeerBreaks(t, |t| - 1, ID_LIMIT - firstId, ps);
    }
  }
}
