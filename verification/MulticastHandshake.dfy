/** Any number of multicast sessions through one daemon.  In each session one sender and two
    receivers run the ordinary socket handshake, each believing the daemon to be its peer. */
module MulticastHandshake {
  import opened Sockets
  import opened Links
  import opened Multicast

  /** The metadata of a session's real queue pairs. */
  datatype Party = Party(sender: CmMeta, recv: seq<CmMeta>, addr: Addresses)

  /** The daemon's connection to a receiver. */
  datatype Wire = Absent | Dialing | Up

  /** `addr` are the addresses that this session's messages and connections carry. */
  datatype Session = Session(sender: Link, recv: seq<Link>, wire: seq<Wire>, addr: Addresses)

  datatype System = System(daemon: Daemon, sessions: seq<Session>)

  datatype Action =
    | AtSender(e: Event)
    | AtReceiver(i: nat, e: Event)
    | FromSender
    | FromReceiver(i: nat)
    | MemberUp(i: nat)

  /** Real queue pair numbers are not 0. */
  ghost predicate RealParty(p: Party) {
    |p.recv| == MEMBERS && forall i :: 0 <= i < MEMBERS ==> p.recv[i].localQpn != 0
  }

  function NewSession(p: Party): Session
    requires |p.recv| == MEMBERS
  {
    Session(Link(NewClient(p.sender), NoTraffic, NoTraffic),
            [Link(NewServer(p.recv[0]), NoTraffic, NoTraffic), Link(NewServer(p.recv[1]), NoTraffic, NoTraffic)],
            [Absent, Absent], p.addr)
  }

  // ---------- Steps ----------

  ghost predicate Shape(s: Session) {
    |s.recv| == MEMBERS && |s.wire| == MEMBERS
  }

  ghost predicate CanAct(s: Session, a: Action) {
    && Shape(s)
    && match a
       case AtSender(e) => Enabled(s.sender, e)
       case AtReceiver(i, e) => i < MEMBERS && Enabled(s.recv[i], e)
       case FromSender => s.sender.up.got < |s.sender.up.log|
       case FromReceiver(i) => i < MEMBERS && s.wire[i] != Absent && s.recv[i].up.got < |s.recv[i].up.log|
       case MemberUp(i) => i < MEMBERS && s.wire[i] == Dialing
  }

  /** The daemon callback that an action runs, if any. */
  ghost function Callback(d: Daemon, k: nat, s: Session, a: Action): Outcome
    requires CanAct(s, a)
  {
    match a
    case FromSender => ClientReadable(d, Conn(k, 0), s.sender.up.log[s.sender.up.got], s.addr)
    case FromReceiver(i) => ServerReadable(d, Conn(k, i + 1), s.recv[i].up.log[s.recv[i].up.got], true, true)
    case MemberUp(i) => ServerWriteable(d, Conn(k, i + 1), true)
    case _ => Done(d, [], [])
  }

  /** No assertion fails, at a socket or in the daemon, and every message goes to this session. */
  ghost predicate Survives(d: Daemon, k: nat, s: Session, a: Action)
    requires CanAct(s, a)
  {
    match a
    case AtSender(e) => React(s.sender, e).Next?
    case AtReceiver(i, e) => React(s.recv[i], e).Next?
    case _ =>
      var o := Callback(d, k, s, a);
      o.Done?
      && (forall w :: w in o.writes ==> w.conn.session == k && w.conn.place <= MEMBERS)
      && (forall c :: c in o.dialed ==> c.session == k && 1 <= c.place <= MEMBERS)
  }

  ghost function Deliver(s: Session, w: Write): Session
    requires Shape(s) && w.conn.place <= MEMBERS
  {
    if w.conn.place == 0 then s.(sender := s.sender.(down := s.sender.down.Put([w.msg])))
    else
      var i := w.conn.place - 1;
      s.(recv := s.recv[i := s.recv[i].(down := s.recv[i].down.Put([w.msg]))])
  }

  ghost function DeliverAll(s: Session, ws: seq<Write>): (s': Session)
    requires Shape(s) && forall w :: w in ws ==> w.conn.place <= MEMBERS
    ensures Shape(s')
    decreases |ws|
  {
    if ws == [] then s else DeliverAll(Deliver(s, ws[0]), ws[1..])
  }

  ghost function Dial(s: Session, cs: seq<Conn>): Session
    requires Shape(s)
  {
    s.(wire := seq(MEMBERS, i requires 0 <= i < |s.wire| => if exists c :: c in cs && c.place == i + 1 then Dialing else s.wire[i]))
  }

  /** The reader's side of an action: the message read, or the connection that came up. */
  ghost function Consume(s: Session, a: Action): Session
    requires CanAct(s, a)
  {
    match a
    case FromSender => s.(sender := s.sender.(up := s.sender.up.(got := s.sender.up.got + 1)))
    case FromReceiver(i) => s.(recv := s.recv[i := s.recv[i].(up := s.recv[i].up.(got := s.recv[i].up.got + 1))])
    case MemberUp(i) => s.(wire := s.wire[i := Up])
    case _ => s
  }

  ghost function ActSession(d: Daemon, k: nat, s: Session, a: Action): Session
    requires CanAct(s, a) && Survives(d, k, s, a)
  {
    match a
    case AtSender(e) => s.(sender := After(s.sender, e))
    case AtReceiver(i, e) => s.(recv := s.recv[i := After(s.recv[i], e)])
    case _ =>
      var o := Callback(d, k, s, a);
      DeliverAll(Dial(Consume(s, a), o.dialed), o.writes)
  }

  ghost function ActDaemon(d: Daemon, k: nat, s: Session, a: Action): Daemon
    requires CanAct(s, a) && Survives(d, k, s, a)
  {
    if a.AtSender? || a.AtReceiver? then d else Callback(d, k, s, a).daemon
  }

  ghost predicate StepAt(s: System, s': System, k: nat, a: Action) {
    && k < |s.sessions|
    && CanAct(s.sessions[k], a)
    && Survives(s.daemon, k, s.sessions[k], a)
    && s' == System(ActDaemon(s.daemon, k, s.sessions[k], a),
                    s.sessions[k := ActSession(s.daemon, k, s.sessions[k], a)])
  }

  ghost predicate Follows(s: System, s': System) {
    exists k, a :: StepAt(s, s', k, a)
  }

  ghost predicate Starts(s: System, ps: seq<Party>, firstId: nat) {
    && s.daemon == NewDaemon(firstId)
    && |s.sessions| == |ps|
    && forall k :: 0 <= k < |ps| ==> RealParty(ps[k]) && s.sessions[k] == NewSession(ps[k])
  }

  ghost predicate Run(t: seq<System>, ps: seq<Party>, firstId: nat) {
    && |t| > 0 && Starts(t[0], ps, firstId)
    && forall i :: 0 < i < |t| ==> Follows(t[i - 1], t[i])
  }

  // ---------- What one session knows ----------

  function FirstTo(p: Party): CmMeta { p.sender.(peerQpn := 0) }

  function SecondTo(p: Party, i: nat): CmMeta
    requires i < |p.recv|
  {
    p.sender.(peerQpn := p.recv[i].localQpn)
  }

  function AnswerTo(p: Party, id: nat): CmMeta
    requires |p.recv| == MEMBERS
  {
    CmMeta(p.recv[0].lid, id, p.sender.psn, p.sender.localQpn, p.recv[1].gid)
  }

  function EntryOf(p: Party, id: nat): SwitchEntry
    requires |p.recv| == MEMBERS
  {
    SwitchEntry(id, p.addr.sender, p.sender.localQpn, p.addr.members, [p.recv[0].localQpn, p.recv[1].localQpn])
  }

  /** The switch holds this group's entry and no other for it, unless the number is refused. */
  ghost predicate Installed(log: seq<SwitchEntry>, p: Party, id: nat)
    requires |p.recv| == MEMBERS
  {
    && (id != 2 <==> EntryOf(p, id) in log)
    && forall e :: e in log && e.group == id ==> e == EntryOf(p, id)
  }

  /** How far the daemon has got with receiver `i`. */
  ghost predicate MemberInv(st: ServerState, known: CmMeta, l: Link, w: Wire, p: Party, i: nat)
    requires RealParty(p) && i < MEMBERS
  {
    match st
    case SvInit => w == Dialing && l.down.log == [] && l.up.got == 0 && known == NoMeta
    case SvHandshakeSent => w == Up && l.down.log == [FirstTo(p)] && l.up.got == 0 && known == NoMeta
    case SvAckSent =>
      w == Up && l.down.log == [FirstTo(p), SecondTo(p, i)] && l.up.got == 1 && |l.up.log| == 1 && known == l.up.log[0]
    case _ => false
  }

  ghost predicate GroupInv(d: Daemon, id: nat, k: nat, s: Session, p: Party)
    requires RealParty(p) && Shape(s)
  {
    && Known(d, id) && d.addrs[id] == p.addr
    && d.conns[id] == [Conn(k, 0), Conn(k, 1), Conn(k, 2)]
    && McOf(d, Conn(k, 1)) == id && McOf(d, Conn(k, 2)) == id
    && 1 <= s.sender.up.got <= |s.sender.up.log|
    && d.meta[id].sender == s.sender.up.log[s.sender.up.got - 1]
    && (forall i :: 0 <= i < MEMBERS ==>
          MemberInv(d.state[id].server[i], d.meta[id].receiver[i], s.recv[i], s.wire[i], p, i))
    && match d.state[id].client
       case ClHandshakeReceived =>
         && s.sender.up.got == 1 && s.sender.down.log == []
         && (exists i :: 0 <= i < MEMBERS && d.state[id].server[i] != SvAckSent)
         && (forall e :: e in d.switchLog ==> e.group != id)
       case ClHandshakeSent => s.sender.up.got == 1 && Answered(d, id, s, p)
       case ClAckReceived => s.sender.up.got == 2 && Answered(d, id, s, p)
       case _ => false
  }

  ghost predicate Answered(d: Daemon, id: nat, s: Session, p: Party)
    requires RealParty(p) && Known(d, id)
  {
    && (forall i :: 0 <= i < MEMBERS ==> d.state[id].server[i] == SvAckSent)
    && s.sender.down.log == [AnswerTo(p, id)]
    && Installed(d.switchLog, p, id)
  }

  ghost predicate SessionInv(d: Daemon, k: nat, s: Session, p: Party) {
    && RealParty(p) && Shape(s) && s.addr == p.addr
    && ClientInv(s.sender, p.sender)
    && (forall i :: 0 <= i < MEMBERS ==> ServerInv(s.recv[i], p.recv[i]))
    && var id := McOf(d, Conn(k, 0));
       if id == 0 then
         && s.sender.up.got == 0 && s.sender.down.log == []
         && forall i :: 0 <= i < MEMBERS ==>
              s.wire[i] == Absent && s.recv[i].down.log == [] && s.recv[i].up.log == []
       else GroupInv(d, id, k, s, p)
  }

  /** What a session promises: a sender connected without error has the group number as its
      peer, both receivers are ready for that sender, and the switch is programmed for them. */
  ghost predicate SessionPromise(d: Daemon, k: nat, s: Session, p: Party)
    requires RealParty(p) && Shape(s)
  {
    s.sender.sock.connected && !s.sender.sock.error ==>
      var id := McOf(d, Conn(k, 0));
      && id != 0 && s.sender.sock.peerQpn == id
      && Installed(d.switchLog, p, id)
      && forall i :: 0 <= i < MEMBERS ==>
           var r := s.recv[i].sock;
           r.qp == QpRts && r.peerQpn == p.sender.localQpn && (r.active || r.error)
  }

  lemma SessionKeepsPromise(d: Daemon, k: nat, s: Session, p: Party)
    requires SessionInv(d, k, s, p)
    ensures SessionPromise(d, k, s, p)
  {
    if s.sender.sock.connected && !s.sender.sock.error {
      assert s.sender.down.log == [AnswerTo(p, McOf(d, Conn(k, 0)))];
    }
  }

  lemma CallersAreGood(d: Daemon, k: nat, s: Session, p: Party, i: nat)
    requires SessionInv(d, k, s, p) && i < MEMBERS
    ensures GoodCaller(s.recv[i].down)
  {
  }

  // ---------- Each action keeps the session's invariant ----------

  /** The daemon's knowledge does not depend on what sockets have written but it has not read. */
  lemma GroupFrame(d: Daemon, id: nat, k: nat, s: Session, s': Session, p: Party)
    requires RealParty(p) && Shape(s) && Shape(s') && GroupInv(d, id, k, s, p)
    requires s'.wire == s.wire
    requires s'.sender.up.got == s.sender.up.got && s.sender.up.log <= s'.sender.up.log
    requires s'.sender.down.log == s.sender.down.log
    requires forall i :: 0 <= i < MEMBERS ==>
               && s'.recv[i].down.log == s.recv[i].down.log && s'.recv[i].up.got == s.recv[i].up.got
               && s.recv[i].up.log <= s'.recv[i].up.log && |s'.recv[i].up.log| <= 1
    ensures GroupInv(d, id, k, s', p)
  {
    forall i | 0 <= i < MEMBERS
      ensures MemberInv(d.state[id].server[i], d.meta[id].receiver[i], s'.recv[i], s'.wire[i], p, i)
    {
      assert MemberInv(d.state[id].server[i], d.meta[id].receiver[i], s.recv[i], s.wire[i], p, i);
    }
  }

  lemma SenderStep(d: Daemon, k: nat, s: Session, p: Party, e: Event)
    requires SessionInv(d, k, s, p) && CanAct(s, AtSender(e))
    ensures Survives(d, k, s, AtSender(e)) && SessionInv(d, k, ActSession(d, k, s, AtSender(e)), p)
  {
    ClientStep(s.sender, p.sender, e);
    var id, s' := McOf(d, Conn(k, 0)), ActSession(d, k, s, AtSender(e));
    if id != 0 { GroupFrame(d, id, k, s, s', p); }
  }

  /** Replacing receiver `i`'s side by one that has read nothing of the daemon's and written at most more. */
  lemma ReceiverFrame(d: Daemon, k: nat, s: Session, p: Party, i: nat, l: Link)
    requires SessionInv(d, k, s, p) && i < MEMBERS && ServerInv(l, p.recv[i])
    requires l.down.log == s.recv[i].down.log && l.up.got == s.recv[i].up.got && s.recv[i].up.log <= l.up.log && |l.up.log| <= 1
    requires McOf(d, Conn(k, 0)) == 0 ==> l.up.log == []
    ensures SessionInv(d, k, s.(recv := s.recv[i := l]), p)
  {
    var id := McOf(d, Conn(k, 0));
    if id != 0 { GroupFrame(d, id, k, s, s.(recv := s.recv[i := l]), p); }
  }

  lemma ReceiverStep(d: Daemon, k: nat, s: Session, p: Party, i: nat, e: Event)
    requires SessionInv(d, k, s, p) && CanAct(s, AtReceiver(i, e))
    ensures Survives(d, k, s, AtReceiver(i, e)) && SessionInv(d, k, ActSession(d, k, s, AtReceiver(i, e)), p)
  {
    CallersAreGood(d, k, s, p, i);
    ServerStep(s.recv[i], p.recv[i], e);
    ReceiverLink(s.recv[i], p.recv[i], e);
    ReceiverFrame(d, k, s, p, i, After(s.recv[i], e));
  }

  lemma ReceiverLink(l: Link, meta: CmMeta, e: Event)
    requires ServerInv(l, meta) && GoodCaller(l.down) && Enabled(l, e) && React(l, e).Next? && ServerInv(After(l, e), meta)
    ensures var l' := After(l, e);
            && l'.down.log == l.down.log && l'.up.got == l.up.got && l.up.log <= l'.up.log && |l'.up.log| <= 1
            && (l.down.log == [] && l.up.log == [] ==> l'.up.log == [])
  {
  }

  /** The daemon and the session once the first message has opened the group. */
  function WithGroup(d: Daemon, k: nat, m: CmMeta, a: Addresses): Daemon {
    var id := d.nextId;
    Daemon((id + 1) % ID_LIMIT, d.mcOf[Conn(k, 0) := id][Conn(k, 1) := id][Conn(k, 2) := id],
           d.state[id := McState(ClHandshakeReceived, [SvInit, SvInit])], d.meta[id := GroupMeta(m, [NoMeta, NoMeta])],
           d.conns[id := [Conn(k, 0), Conn(k, 1), Conn(k, 2)]], d.addrs[id := a], d.switchLog)
  }

  lemma OpenGroupEffect(d: Daemon, k: nat, s: Session)
    requires CanAct(s, FromSender) && d.nextId !in d.meta && McOf(d, Conn(k, 0)) == 0 && s.sender.up.got == 0
    ensures Survives(d, k, s, FromSender)
    ensures ActDaemon(d, k, s, FromSender) == WithGroup(d, k, s.sender.up.log[0], s.addr)
    ensures ActSession(d, k, s, FromSender) == Consume(s, FromSender).(wire := [Dialing, Dialing])
  {
    assert [Conn(k, 0)] + [Conn(k, 1), Conn(k, 2)] == [Conn(k, 0), Conn(k, 1), Conn(k, 2)];
    assert ActSession(d, k, s, FromSender).wire == [Dialing, Dialing];
  }

  lemma OpenGroup(d: Daemon, k: nat, s: Session, p: Party)
    requires SessionInv(d, k, s, p) && CanAct(s, FromSender) && NextIsFresh(d) && McOf(d, Conn(k, 0)) == 0
    ensures Survives(d, k, s, FromSender)
    ensures SessionInv(ActDaemon(d, k, s, FromSender), k, ActSession(d, k, s, FromSender), p)
  {
    OpenGroupEffect(d, k, s);
    NewGroupInv(d, k, s, p);
  }

  lemma NewGroupInv(d: Daemon, k: nat, s: Session, p: Party)
    requires CanAct(s, FromSender) && RealParty(p) && NextIsFresh(d) && s.addr == p.addr && s.sender.up.got == 0 && s.sender.down.log == []
    requires forall i :: 0 <= i < MEMBERS ==> s.recv[i].down.log == [] && s.recv[i].up.log == [] && s.recv[i].up.got == 0
    ensures GroupInv(WithGroup(d, k, s.sender.up.log[0], s.addr), d.nextId, k, Consume(s, FromSender).(wire := [Dialing, Dialing]), p)
  {
    var d' := WithGroup(d, k, s.sender.up.log[0], s.addr);
    assert d'.state[d.nextId].server[0] == SvInit;
  }

  /** The second one acknowledges the answer, and it carries the group's number. */
  lemma AckGroup(d: Daemon, k: nat, s: Session, p: Party)
    requires SessionInv(d, k, s, p) && CanAct(s, FromSender) && McOf(d, Conn(k, 0)) != 0
    ensures Survives(d, k, s, FromSender)
    ensures SessionInv(ActDaemon(d, k, s, FromSender), k, ActSession(d, k, s, FromSender), p)
  {
    var id := McOf(d, Conn(k, 0));
    assert |s.sender.up.log| == 2;
    assert s.sender.up.log[1].peerQpn == s.sender.sock.peerQpn == id;
    NothingDialed(Consume(s, FromSender));
    assert GroupInv(ActDaemon(d, k, s, FromSender), id, k, ActSession(d, k, s, FromSender), p);
  }

  lemma NothingDialed(s: Session)
    requires Shape(s)
    ensures Dial(s, []) == s
  {
    assert Dial(s, []).wire == s.wire;
  }

  lemma DeliverOne(s: Session, w: Write)
    requires Shape(s) && w.conn.place <= MEMBERS
    ensures DeliverAll(s, [w]) == Deliver(s, w)
  {
    assert [w][1..] == [];
  }

  lemma DeliverTwo(s: Session, w: Write, w': Write)
    requires Shape(s) && w.conn.place <= MEMBERS && w'.conn.place <= MEMBERS
    ensures DeliverAll(s, [w, w']) == Deliver(Deliver(s, w), w')
  {
    assert [w, w'][1..] == [w'];
    DeliverOne(Deliver(s, w), w');
  }

  /** An action whose callback writes one message. */
  lemma EffectOne(d: Daemon, k: nat, s: Session, a: Action, d': Daemon, w: Write)
    requires CanAct(s, a) && !a.AtSender? && !a.AtReceiver?
    requires Callback(d, k, s, a) == Done(d', [w], []) && w.conn.session == k && w.conn.place <= MEMBERS
    ensures Survives(d, k, s, a) && ActDaemon(d, k, s, a) == d'
    ensures ActSession(d, k, s, a) == Deliver(Consume(s, a), w)
  {
    NothingDialed(Consume(s, a));
    DeliverOne(Consume(s, a), w);
  }

  lemma EffectTwo(d: Daemon, k: nat, s: Session, a: Action, d': Daemon, w: Write, w': Write)
    requires CanAct(s, a) && !a.AtSender? && !a.AtReceiver?
    requires Callback(d, k, s, a) == Done(d', [w, w'], [])
    requires w.conn.session == w'.conn.session == k && w.conn.place <= MEMBERS && w'.conn.place <= MEMBERS
    ensures Survives(d, k, s, a) && ActDaemon(d, k, s, a) == d'
    ensures ActSession(d, k, s, a) == Deliver(Deliver(Consume(s, a), w), w')
  {
    NothingDialed(Consume(s, a));
    DeliverTwo(Consume(s, a), w, w');
  }

  /** The group's state once receiver `i` has been sent the opening message. */
  function Opened(d: Daemon, id: nat, i: nat): Daemon
    requires Known(d, id) && i < MEMBERS
  {
    d.(state := d.state[id := d.state[id].(server := d.state[id].server[i := SvHandshakeSent])])
  }

  function OpenedSession(s: Session, p: Party, i: nat): Session
    requires i < |s.recv| && i < |s.wire|
  {
    s.(wire := s.wire[i := Up], recv := s.recv[i := s.recv[i].(down := s.recv[i].down.Put([FirstTo(p)]))])
  }

  lemma MemberUpCallback(d: Daemon, k: nat, s: Session, p: Party, i: nat)
    requires SessionInv(d, k, s, p) && CanAct(s, MemberUp(i))
    ensures var id := McOf(d, Conn(k, 0));
            && id != 0 && d.state[id].client == ClHandshakeReceived && d.state[id].server[i] == SvInit
            && Callback(d, k, s, MemberUp(i)) == Done(Opened(d, id, i), [Write(Conn(k, i + 1), FirstTo(p))], [])
  {
    var id := McOf(d, Conn(k, 0));
    assert FindConn(d.conns[id], Conn(k, i + 1), 0) == i;
    assert MemberInv(d.state[id].server[i], d.meta[id].receiver[i], s.recv[i], s.wire[i], p, i);
    assert d.meta[id].sender == FirstTo(p);
  }

  lemma OpenedInv(d: Daemon, k: nat, s: Session, p: Party, i: nat)
    requires SessionInv(d, k, s, p) && i < MEMBERS
    requires var id := McOf(d, Conn(k, 0)); id != 0 && d.state[id].server[i] == SvInit
    ensures SessionInv(Opened(d, McOf(d, Conn(k, 0)), i), k, OpenedSession(s, p, i), p)
  {
    var id := McOf(d, Conn(k, 0));
    var d', s' := Opened(d, id, i), OpenedSession(s, p, i);
    PeerWrites(s.recv[i], p.recv[i], [FirstTo(p)]);
    forall j | 0 <= j < MEMBERS
      ensures MemberInv(d'.state[id].server[j], d'.meta[id].receiver[j], s'.recv[j], s'.wire[j], p, j)
    {
      assert MemberInv(d.state[id].server[j], d.meta[id].receiver[j], s.recv[j], s.wire[j], p, j);
    }
    assert d'.state[id].server[i] != SvAckSent;
  }

  lemma MemberUpStep(d: Daemon, k: nat, s: Session, p: Party, i: nat)
    requires SessionInv(d, k, s, p) && CanAct(s, MemberUp(i))
    ensures Survives(d, k, s, MemberUp(i))
    ensures var id := McOf(d, Conn(k, 0)); id != 0 && Known(d, id) && ActDaemon(d, k, s, MemberUp(i)) == Opened(d, id, i)
    ensures SessionInv(ActDaemon(d, k, s, MemberUp(i)), k, ActSession(d, k, s, MemberUp(i)), p)
  {
    var id := McOf(d, Conn(k, 0));
    MemberUpCallback(d, k, s, p, i);
    OpenedInv(d, k, s, p, i);
    EffectOne(d, k, s, MemberUp(i), Opened(d, id, i), Write(Conn(k, i + 1), FirstTo(p)));
  }

  /** The group's state once receiver `i` has answered and been acknowledged. */
  function Acked(d: Daemon, id: nat, i: nat, m: CmMeta): Daemon
    requires Known(d, id) && i < MEMBERS
  {
    d.(meta := d.meta[id := d.meta[id].(receiver := d.meta[id].receiver[i := m])],
       state := d.state[id := d.state[id].(server := d.state[id].server[i := SvAckSent])])
  }

  /** That of the whole group once the sender has been answered. */
  function AllAnswered(d: Daemon, id: nat, p: Party): Daemon
    requires Known(d, id) && |p.recv| == MEMBERS
  {
    d.(state := d.state[id := d.state[id].(client := ClHandshakeSent)],
       switchLog := Programmed(d.switchLog, EntryOf(p, id)))
  }

  /** What the daemon knows when a receiver's message arrives. */
  lemma ReceiverFacts(d: Daemon, k: nat, s: Session, p: Party, i: nat)
    requires SessionInv(d, k, s, p) && CanAct(s, FromReceiver(i))
    ensures var id := McOf(d, Conn(k, 0));
            && id != 0 && Known(d, id) && d.state[id].client == ClHandshakeReceived && d.state[id].server[i] == SvHandshakeSent
            && s.recv[i].up.got == 0 && s.recv[i].up.log == [p.recv[i].(peerQpn := p.sender.localQpn)]
            && d.meta[id].sender == FirstTo(p) && McOf(d, Conn(k, i + 1)) == id
            && d.conns[id] == [Conn(k, 0), Conn(k, 1), Conn(k, 2)] && d.addrs[id] == p.addr
            && (d.state[id].server[1 - i] == SvAckSent ==>
                  d.meta[id].receiver[1 - i] == p.recv[1 - i].(peerQpn := p.sender.localQpn))
  {
    var id, j := McOf(d, Conn(k, 0)), 1 - i;
    assert MemberInv(d.state[id].server[i], d.meta[id].receiver[i], s.recv[i], s.wire[i], p, i);
    assert MemberInv(d.state[id].server[j], d.meta[id].receiver[j], s.recv[j], s.wire[j], p, j);
  }

  /** Whether and how the sender is answered then. */
  lemma SenderAnswer(d: Daemon, id: nat, k: nat, p: Party, i: nat)
    requires Known(d, id) && i < MEMBERS && |p.recv| == MEMBERS && d.state[id].client == ClHandshakeReceived
    requires d.conns[id] == [Conn(k, 0), Conn(k, 1), Conn(k, 2)] && d.addrs[id] == p.addr && d.meta[id].sender == FirstTo(p)
    requires d.state[id].server[1 - i] == SvAckSent ==>
               d.meta[id].receiver[1 - i] == p.recv[1 - i].(peerQpn := p.sender.localQpn)
    ensures var d1 := Acked(d, id, i, p.recv[i].(peerQpn := p.sender.localQpn));
            AnswerSender(d1, id, true) == if d.state[id].server[1 - i] == SvAckSent
                                    then Done(AllAnswered(d1, id, p), [Write(Conn(k, 0), AnswerTo(p, id))], [])
                                    else Done(d1, [], [])
  {
    var d1 := Acked(d, id, i, p.recv[i].(peerQpn := p.sender.localQpn));
    if d.state[id].server[1 - i] == SvAckSent {
      assert MsgToSender(d1.meta[id], id) == AnswerTo(p, id);
    } else {
      assert d1.state[id].server[1 - i] != SvAckSent;
    }
  }

  lemma ReceiverCallback(d: Daemon, k: nat, s: Session, p: Party, i: nat)
    requires CanAct(s, FromReceiver(i)) && |p.recv| == MEMBERS
    requires var id := McOf(d, Conn(k, 0));
             && Known(d, id) && d.state[id].client == ClHandshakeReceived && d.state[id].server[i] == SvHandshakeSent
             && s.recv[i].up.got == 0 && s.recv[i].up.log == [p.recv[i].(peerQpn := p.sender.localQpn)]
             && d.meta[id].sender == FirstTo(p) && McOf(d, Conn(k, i + 1)) == id
             && d.conns[id] == [Conn(k, 0), Conn(k, 1), Conn(k, 2)] && d.addrs[id] == p.addr
             && (d.state[id].server[1 - i] == SvAckSent ==>
                   d.meta[id].receiver[1 - i] == p.recv[1 - i].(peerQpn := p.sender.localQpn))
    ensures var id := McOf(d, Conn(k, 0));
            var d1 := Acked(d, id, i, s.recv[i].up.log[0]);
            var w := Write(Conn(k, i + 1), SecondTo(p, i));
            Callback(d, k, s, FromReceiver(i))
            == if d.state[id].server[1 - i] == SvAckSent
               then Done(AllAnswered(d1, id, p), [w, Write(Conn(k, 0), AnswerTo(p, id))], [])
               else Done(d1, [w], [])
  {
    SenderAnswer(d, McOf(d, Conn(k, 0)), k, p, i);
    ReadableIs(d, McOf(d, Conn(k, 0)), k, p, i);
  }

  lemma ReadableIs(d: Daemon, id: nat, k: nat, p: Party, i: nat)
    requires Known(d, id) && i < MEMBERS && |p.recv| == MEMBERS && McOf(d, Conn(k, i + 1)) == id
    requires d.conns[id] == [Conn(k, 0), Conn(k, 1), Conn(k, 2)] && d.addrs[id] == p.addr && d.meta[id].sender == FirstTo(p)
    requires d.state[id].server[i] == SvHandshakeSent
    ensures var m := p.recv[i].(peerQpn := p.sender.localQpn);
            var r := AnswerSender(Acked(d, id, i, m), id, true);
            ServerReadable(d, Conn(k, i + 1), m, true, true)
            == if r.AssertFailed? then AssertFailed else r.(writes := [Write(Conn(k, i + 1), SecondTo(p, i))] + r.writes)
  {
    assert FindConn(d.conns[id], Conn(k, i + 1), 0) == i;
  }

  /** The acknowledgement to receiver `i`, before the sender is considered. */
  lemma AckedKeepsMembers(d: Daemon, id: nat, k: nat, s: Session, p: Party, i: nat, s1: Session)
    requires RealParty(p) && Shape(s) && GroupInv(d, id, k, s, p) && i < MEMBERS
    requires d.state[id].server[i] == SvHandshakeSent && |s.recv[i].up.log| == 1
    requires s1.wire == s.wire && Shape(s1) && s1.recv[1 - i] == s.recv[1 - i]
    requires s1.recv[i].up == Chan(s.recv[i].up.log, 1)
    requires s1.recv[i].down.log == s.recv[i].down.log + [SecondTo(p, i)]
    ensures var d1 := Acked(d, id, i, s.recv[i].up.log[0]);
            forall j :: 0 <= j < MEMBERS ==>
              MemberInv(d1.state[id].server[j], d1.meta[id].receiver[j], s1.recv[j], s1.wire[j], p, j)
  {
    forall j | 0 <= j < MEMBERS
      ensures var d1 := Acked(d, id, i, s.recv[i].up.log[0]);
              MemberInv(d1.state[id].server[j], d1.meta[id].receiver[j], s1.recv[j], s1.wire[j], p, j)
    {
      assert MemberInv(d.state[id].server[j], d.meta[id].receiver[j], s.recv[j], s.wire[j], p, j);
      assert j == i || j == 1 - i;
    }
  }

  lemma ProgrammedInstalls(log: seq<SwitchEntry>, p: Party, id: nat)
    requires |p.recv| == MEMBERS && forall e :: e in log ==> e.group != id
    ensures Installed(Programmed(log, EntryOf(p, id)), p, id)
  {
  }

  /** The session once the daemon has read receiver `i`'s reply and acknowledged it. */
  function RepliedSession(s: Session, p: Party, i: nat): Session
    requires i < |s.recv| && i < |p.recv|
  {
    s.(recv := s.recv[i := s.recv[i].(up := s.recv[i].up.(got := 1), down := s.recv[i].down.Put([SecondTo(p, i)]))])
  }

  function AnsweredSession(s: Session, p: Party, id: nat): Session
    requires |p.recv| == MEMBERS
  {
    s.(sender := s.sender.(down := s.sender.down.Put([AnswerTo(p, id)])))
  }

  /** The other receiver is still outstanding. */
  lemma RepliedInv(d: Daemon, k: nat, s: Session, p: Party, i: nat)
    requires SessionInv(d, k, s, p) && i < MEMBERS
    requires var id := McOf(d, Conn(k, 0));
             && id != 0 && d.state[id].client == ClHandshakeReceived && d.state[id].server[i] == SvHandshakeSent
             && d.state[id].server[1 - i] != SvAckSent && |s.recv[i].up.log| == 1
    ensures SessionInv(Acked(d, McOf(d, Conn(k, 0)), i, s.recv[i].up.log[0]), k, RepliedSession(s, p, i), p)
  {
    var id := McOf(d, Conn(k, 0));
    var d', s' := Acked(d, id, i, s.recv[i].up.log[0]), RepliedSession(s, p, i);
    PeerWrites(s.recv[i], p.recv[i], [SecondTo(p, i)]);
    AckedKeepsMembers(d, id, k, s, p, i, s');
    assert d'.state[id].server[1 - i] != SvAckSent;
  }

  /** This was the last receiver. */
  lemma AnsweredInv(d: Daemon, k: nat, s: Session, p: Party, i: nat)
    requires SessionInv(d, k, s, p) && i < MEMBERS
    requires var id := McOf(d, Conn(k, 0));
             && id != 0 && d.state[id].client == ClHandshakeReceived && d.state[id].server[i] == SvHandshakeSent
             && d.state[id].server[1 - i] == SvAckSent && |s.recv[i].up.log| == 1
    ensures var id := McOf(d, Conn(k, 0));
            SessionInv(AllAnswered(Acked(d, id, i, s.recv[i].up.log[0]), id, p), k,
                       AnsweredSession(RepliedSession(s, p, i), p, id), p)
  {
    var id := McOf(d, Conn(k, 0));
    var d1, s1 := Acked(d, id, i, s.recv[i].up.log[0]), RepliedSession(s, p, i);
    var d', s' := AllAnswered(d1, id, p), AnsweredSession(s1, p, id);
    PeerWrites(s.recv[i], p.recv[i], [SecondTo(p, i)]);
    PeerWrites(s.sender, p.sender, [AnswerTo(p, id)]);
    AnsweredGroup(d, id, k, s, p, i);
  }

  lemma AnsweredGroup(d: Daemon, id: nat, k: nat, s: Session, p: Party, i: nat)
    requires RealParty(p) && Shape(s) && i < MEMBERS && GroupInv(d, id, k, s, p)
    requires d.state[id].client == ClHandshakeReceived && d.state[id].server[i] == SvHandshakeSent
    requires d.state[id].server[1 - i] == SvAckSent && |s.recv[i].up.log| == 1
    ensures GroupInv(AllAnswered(Acked(d, id, i, s.recv[i].up.log[0]), id, p), id, k,
                     AnsweredSession(RepliedSession(s, p, i), p, id), p)
  {
    var d1, s1 := Acked(d, id, i, s.recv[i].up.log[0]), RepliedSession(s, p, i);
    var d', s' := AllAnswered(d1, id, p), AnsweredSession(s1, p, id);
    assert MemberInv(d.state[id].server[i], d.meta[id].receiver[i], s.recv[i], s.wire[i], p, i);
    AckedKeepsMembers(d, id, k, s, p, i, s1);
    ProgrammedInstalls(d.switchLog, p, id);
    forall j | 0 <= j < MEMBERS
      ensures MemberInv(d'.state[id].server[j], d'.meta[id].receiver[j], s'.recv[j], s'.wire[j], p, j)
      ensures d'.state[id].server[j] == SvAckSent
    {
      assert MemberInv(d1.state[id].server[j], d1.meta[id].receiver[j], s1.recv[j], s1.wire[j], p, j);
      assert j == i || j == 1 - i;
    }
  }

  lemma RepliedEffect(d: Daemon, k: nat, s: Session, p: Party, i: nat, d1: Daemon)
    requires CanAct(s, FromReceiver(i)) && |p.recv| == MEMBERS && s.recv[i].up.got == 0
    requires Callback(d, k, s, FromReceiver(i)) == Done(d1, [Write(Conn(k, i + 1), SecondTo(p, i))], [])
    ensures Survives(d, k, s, FromReceiver(i)) && ActDaemon(d, k, s, FromReceiver(i)) == d1
    ensures ActSession(d, k, s, FromReceiver(i)) == RepliedSession(s, p, i)
  {
    EffectOne(d, k, s, FromReceiver(i), d1, Write(Conn(k, i + 1), SecondTo(p, i)));
  }

  lemma AnsweredEffect(d: Daemon, k: nat, s: Session, p: Party, i: nat, d2: Daemon, id: nat)
    requires CanAct(s, FromReceiver(i)) && |p.recv| == MEMBERS && s.recv[i].up.got == 0
    requires Callback(d, k, s, FromReceiver(i)) ==
               Done(d2, [Write(Conn(k, i + 1), SecondTo(p, i)), Write(Conn(k, 0), AnswerTo(p, id))], [])
    ensures Survives(d, k, s, FromReceiver(i)) && ActDaemon(d, k, s, FromReceiver(i)) == d2
    ensures ActSession(d, k, s, FromReceiver(i)) == AnsweredSession(RepliedSession(s, p, i), p, id)
  {
    var w, w' := Write(Conn(k, i + 1), SecondTo(p, i)), Write(Conn(k, 0), AnswerTo(p, id));
    EffectTwo(d, k, s, FromReceiver(i), d2, w, w');
  }

  // ---------- All sessions together ----------

  /** What a callback for session `k` may change: its own group, and one new switch entry for it. */
  ghost predicate OnlyOwn(d: Daemon, d': Daemon, k: nat) {
    var id := McOf(d', Conn(k, 0));
    && (forall j, x :: j != k ==> McOf(d', Conn(j, x)) == McOf(d, Conn(j, x)))
    && (McOf(d, Conn(k, 0)) != 0 ==> id == McOf(d, Conn(k, 0)) && d'.nextId == d.nextId && d'.meta.Keys == d.meta.Keys)
    && (McOf(d, Conn(k, 0)) == 0 ==> d' == d || Claims(d, d', id))
    && (forall g :: g != id ==> SameGroup(d, d', g))
    && (d'.switchLog == d.switchLog
        || Appends(d, d', id))
  }

  /** The daemon gave out its next group number. */
  ghost predicate Claims(d: Daemon, d': Daemon, id: nat) {
    id == d.nextId && d'.nextId == (d.nextId + 1) % ID_LIMIT && d'.meta.Keys == d.meta.Keys + {id}
    && d'.switchLog == d.switchLog
  }

  /** The group's first switch entry. */
  ghost predicate Appends(d: Daemon, d': Daemon, id: nat) {
    && id in d.meta
    && (forall e :: e in d.switchLog ==> e.group != id)
    && exists e: SwitchEntry :: e.group == id && d'.switchLog == d.switchLog + [e]
  }

  ghost predicate SameGroup(d: Daemon, d': Daemon, g: nat) {
    && (g in d.state <==> g in d'.state) && (g in d.state ==> d'.state[g] == d.state[g])
    && (g in d.meta <==> g in d'.meta) && (g in d.meta ==> d'.meta[g] == d.meta[g])
    && (g in d.conns <==> g in d'.conns) && (g in d.conns ==> d'.conns[g] == d.conns[g])
    && (g in d.addrs <==> g in d'.addrs) && (g in d.addrs ==> d'.addrs[g] == d.addrs[g])
  }

  lemma SessionFrame(d: Daemon, d': Daemon, k: nat, j: nat, s: Session, p: Party)
    requires SessionInv(d, j, s, p) && OnlyOwn(d, d', k) && j != k
    requires McOf(d, Conn(j, 0)) != 0 ==> McOf(d', Conn(k, 0)) != McOf(d, Conn(j, 0))
    ensures SessionInv(d', j, s, p)
  {
    var id := McOf(d, Conn(j, 0));
    if id != 0 {
      assert SameGroup(d, d', id);
      assert forall e: SwitchEntry :: e.group == id ==> (e in d'.switchLog <==> e in d.switchLog);
    }
  }

  /** The daemon's next number is unused. */
  ghost predicate NextIsFresh(d: Daemon) {
    d.nextId != 0 && d.nextId !in d.meta && forall e :: e in d.switchLog ==> e.group != d.nextId
  }

  /** What an action on session `k` keeps. */
  ghost predicate Keeps(d: Daemon, k: nat, s: Session, p: Party, a: Action)
    requires CanAct(s, a)
  {
    && Survives(d, k, s, a)
    && SessionInv(ActDaemon(d, k, s, a), k, ActSession(d, k, s, a), p)
    && OnlyOwn(d, ActDaemon(d, k, s, a), k)
  }

  lemma ReadableIsOwn(d: Daemon, k: nat, m: CmMeta, a: Addresses)
    requires (McOf(d, Conn(k, 0)) == 0 ==> NextIsFresh(d)) && ClientReadable(d, Conn(k, 0), m, a).Done?
    ensures OnlyOwn(d, ClientReadable(d, Conn(k, 0), m, a).daemon, k)
  {
  }

  lemma FromSenderKeeps(d: Daemon, k: nat, s: Session, p: Party)
    requires SessionInv(d, k, s, p) && CanAct(s, FromSender) && (McOf(d, Conn(k, 0)) == 0 ==> NextIsFresh(d))
    ensures Keeps(d, k, s, p, FromSender)
  {
    if McOf(d, Conn(k, 0)) == 0 { OpenGroup(d, k, s, p); } else { AckGroup(d, k, s, p); }
    ReadableIsOwn(d, k, s.sender.up.log[s.sender.up.got], s.addr);
  }

  lemma OpenedIsOwn(d: Daemon, k: nat, id: nat, i: nat)
    requires Known(d, id) && i < MEMBERS && McOf(d, Conn(k, 0)) == id != 0
    ensures OnlyOwn(d, Opened(d, id, i), k)
  {
  }

  lemma MemberUpKeeps(d: Daemon, k: nat, s: Session, p: Party, i: nat)
    requires SessionInv(d, k, s, p) && CanAct(s, MemberUp(i))
    ensures Keeps(d, k, s, p, MemberUp(i))
  {
    MemberUpStep(d, k, s, p, i);
    OpenedIsOwn(d, k, McOf(d, Conn(k, 0)), i);
  }

  lemma AckedIsOwn(d: Daemon, k: nat, id: nat, i: nat, m: CmMeta)
    requires Known(d, id) && i < MEMBERS && McOf(d, Conn(k, 0)) == id != 0
    ensures OnlyOwn(d, Acked(d, id, i, m), k)
  {
  }

  lemma AnsweredIsOwn(d: Daemon, k: nat, id: nat, i: nat, m: CmMeta, p: Party)
    requires Known(d, id) && i < MEMBERS && McOf(d, Conn(k, 0)) == id != 0 && |p.recv| == MEMBERS
    requires forall e :: e in d.switchLog ==> e.group != id
    ensures OnlyOwn(d, AllAnswered(Acked(d, id, i, m), id, p), k)
  {
    var d' := AllAnswered(Acked(d, id, i, m), id, p);
    assert EntryOf(p, id).group == id;
    if id != RESERVED_GROUP {
      assert d'.switchLog == d.switchLog + [EntryOf(p, id)];
    }
  }

  lemma NotLastKeeps(d: Daemon, k: nat, s: Session, p: Party, i: nat)
    requires SessionInv(d, k, s, p) && CanAct(s, FromReceiver(i))
    requires McOf(d, Conn(k, 0)) != 0 && d.state[McOf(d, Conn(k, 0))].server[1 - i] != SvAckSent
    ensures Keeps(d, k, s, p, FromReceiver(i))
  {
    ReceiverFacts(d, k, s, p, i);
    ReceiverCallback(d, k, s, p, i);
    RepliedInv(d, k, s, p, i);
    var id := McOf(d, Conn(k, 0));
    RepliedEffect(d, k, s, p, i, Acked(d, id, i, s.recv[i].up.log[0]));
    AckedIsOwn(d, k, id, i, s.recv[i].up.log[0]);
  }

  lemma LastKeeps(d: Daemon, k: nat, s: Session, p: Party, i: nat)
    requires SessionInv(d, k, s, p) && CanAct(s, FromReceiver(i))
    requires McOf(d, Conn(k, 0)) != 0 && d.state[McOf(d, Conn(k, 0))].server[1 - i] == SvAckSent
    ensures Keeps(d, k, s, p, FromReceiver(i))
  {
    ReceiverFacts(d, k, s, p, i);
    ReceiverCallback(d, k, s, p, i);
    AnsweredInv(d, k, s, p, i);
    var id := McOf(d, Conn(k, 0));
    AnsweredEffect(d, k, s, p, i, AllAnswered(Acked(d, id, i, s.recv[i].up.log[0]), id, p), id);
    AnsweredIsOwn(d, k, id, i, s.recv[i].up.log[0], p);
  }

  lemma NothingIsOwn(d: Daemon, k: nat)
    ensures OnlyOwn(d, d, k)
  {
  }

  lemma SenderKeeps(d: Daemon, k: nat, s: Session, p: Party, e: Event)
    requires SessionInv(d, k, s, p) && CanAct(s, AtSender(e))
    ensures Keeps(d, k, s, p, AtSender(e))
  {
    SenderStep(d, k, s, p, e);
    NothingIsOwn(d, k);
  }

  lemma ReceiverKeeps(d: Daemon, k: nat, s: Session, p: Party, i: nat, e: Event)
    requires SessionInv(d, k, s, p) && CanAct(s, AtReceiver(i, e))
    ensures Keeps(d, k, s, p, AtReceiver(i, e))
  {
    ReceiverStep(d, k, s, p, i, e);
    NothingIsOwn(d, k);
  }

  lemma FromReceiverKeeps(d: Daemon, k: nat, s: Session, p: Party, i: nat)
    requires SessionInv(d, k, s, p) && CanAct(s, FromReceiver(i))
    ensures Keeps(d, k, s, p, FromReceiver(i))
  {
    ReceiverFacts(d, k, s, p, i);
    if d.state[McOf(d, Conn(k, 0))].server[1 - i] == SvAckSent {
      LastKeeps(d, k, s, p, i);
    } else {
      NotLastKeeps(d, k, s, p, i);
    }
  }

  lemma ActionKeeps(d: Daemon, k: nat, s: Session, p: Party, a: Action)
    requires SessionInv(d, k, s, p) && CanAct(s, a) && (McOf(d, Conn(k, 0)) == 0 ==> NextIsFresh(d))
    ensures Keeps(d, k, s, p, a)
  {
    match a
    case AtSender(e) => SenderKeeps(d, k, s, p, e);
    case AtReceiver(i, e) => ReceiverKeeps(d, k, s, p, i, e);
    case FromSender => FromSenderKeeps(d, k, s, p);
    case MemberUp(i) => MemberUpKeeps(d, k, s, p, i);
    case FromReceiver(i) => FromReceiverKeeps(d, k, s, p, i);
  }

  /** The number of sessions that have been given a group. */
  ghost function Claimed(d: Daemon, n: nat): nat {
    if n == 0 then 0 else Claimed(d, n - 1) + if McOf(d, Conn(n - 1, 0)) != 0 then 1 else 0
  }

  lemma {:induction false} ClaimedStep(d: Daemon, d': Daemon, k: nat, n: nat)
    requires OnlyOwn(d, d', k)
    ensures Claimed(d, n) <= n && (k < n && McOf(d, Conn(k, 0)) == 0 ==> Claimed(d, n) < n)
    ensures Claimed(d', n) == Claimed(d, n) +
              if k < n && McOf(d, Conn(k, 0)) == 0 && McOf(d', Conn(k, 0)) != 0 then 1 else 0
  {
    if n > 0 { ClaimedStep(d, d', k, n - 1); }
  }

  ghost predicate Inv(s: System, ps: seq<Party>, firstId: nat) {
    var d := s.daemon;
    && |s.sessions| == |ps|
    && (forall k :: 0 <= k < |ps| ==> SessionInv(d, k, s.sessions[k], ps[k]))
    && (forall j, k :: 0 <= j < k < |ps| && McOf(d, Conn(j, 0)) != 0 ==> McOf(d, Conn(j, 0)) != McOf(d, Conn(k, 0)))
    && TablesInv(d, |ps|, firstId)
  }

  /** Group numbers neither start at 0 nor run out. */
  ghost predicate EnoughIds(ps: seq<Party>, firstId: nat) {
    1 <= firstId < ID_LIMIT && firstId + |ps| <= ID_LIMIT
  }

  lemma {:induction false} NoneClaimed(d: Daemon, n: nat)
    requires d.mcOf == map[]
    ensures Claimed(d, n) == 0
  {
    if n > 0 { NoneClaimed(d, n - 1); }
  }

  lemma InvInit(s: System, ps: seq<Party>, firstId: nat)
    requires Starts(s, ps, firstId) && EnoughIds(ps, firstId)
    ensures Inv(s, ps, firstId)
  {
    NoneClaimed(s.daemon, |ps|);
  }

  lemma GroupsAreKnown(s: System, ps: seq<Party>, firstId: nat)
    requires Inv(s, ps, firstId)
    ensures forall j :: 0 <= j < |ps| && McOf(s.daemon, Conn(j, 0)) != 0 ==> McOf(s.daemon, Conn(j, 0)) in s.daemon.meta
  {
    forall j | 0 <= j < |ps| && McOf(s.daemon, Conn(j, 0)) != 0
      ensures McOf(s.daemon, Conn(j, 0)) in s.daemon.meta
    {
      assert SessionInv(s.daemon, j, s.sessions[j], ps[j]);
    }
  }

  /** The sessions that did not move. */
  lemma OthersKeep(s: System, ps: seq<Party>, firstId: nat, k: nat, d': Daemon)
    requires Inv(s, ps, firstId) && EnoughIds(ps, firstId) && k < |ps| && OnlyOwn(s.daemon, d', k)
    ensures forall j :: 0 <= j < |ps| && j != k ==> SessionInv(d', j, s.sessions[j], ps[j])
    ensures forall j :: 0 <= j < |ps| && j != k && McOf(d', Conn(j, 0)) != 0 ==> McOf(d', Conn(j, 0)) != McOf(d', Conn(k, 0))
  {
    GroupsAreKnown(s, ps, firstId);
    ClaimedStep(s.daemon, d', k, |ps|);
    forall j | 0 <= j < |ps| && j != k
      ensures SessionInv(d', j, s.sessions[j], ps[j])
      ensures McOf(d', Conn(j, 0)) != 0 ==> McOf(d', Conn(j, 0)) != McOf(d', Conn(k, 0))
    {
      assert SessionInv(s.daemon, j, s.sessions[j], ps[j]);
      SessionFrame(s.daemon, d', k, j, s.sessions[j], ps[j]);
    }
  }

  /** The daemon's own tables. */
  ghost predicate TablesInv(d: Daemon, n: nat, firstId: nat) {
    && d.nextId == (firstId + Claimed(d, n)) % ID_LIMIT
    && (forall g :: g in d.meta ==> firstId <= g < firstId + Claimed(d, n))
    && (forall e :: e in d.switchLog ==> e.group in d.meta)
    && (forall i, j :: 0 <= i < j < |d.switchLog| ==> d.switchLog[i].group != d.switchLog[j].group)
  }

  lemma TablesKeep(d: Daemon, d': Daemon, k: nat, n: nat, firstId: nat)
    requires TablesInv(d, n, firstId) && OnlyOwn(d, d', k) && k < n && 1 <= firstId && firstId + n <= ID_LIMIT
    ensures TablesInv(d', n, firstId)
  {
    ClaimedStep(d, d', k, n);
  }

  lemma CanAlwaysAct(s: System, ps: seq<Party>, firstId: nat, k: nat, a: Action)
    requires Inv(s, ps, firstId) && EnoughIds(ps, firstId) && k < |ps| && CanAct(s.sessions[k], a)
    ensures Keeps(s.daemon, k, s.sessions[k], ps[k], a)
  {
    ClaimedStep(s.daemon, s.daemon, k, |ps|);
    ActionKeeps(s.daemon, k, s.sessions[k], ps[k], a);
  }

  lemma Assemble(s: System, ps: seq<Party>, firstId: nat, k: nat, d': Daemon, x: Session)
    requires Inv(s, ps, firstId) && EnoughIds(ps, firstId) && k < |ps|
    requires OnlyOwn(s.daemon, d', k) && SessionInv(d', k, x, ps[k])
    ensures Inv(System(d', s.sessions[k := x]), ps, firstId)
  {
    OthersKeep(s, ps, firstId, k, d');
    TablesKeep(s.daemon, d', k, |ps|, firstId);
  }

  lemma InvStep(s: System, s': System, ps: seq<Party>, firstId: nat, k: nat, a: Action)
    requires Inv(s, ps, firstId) && EnoughIds(ps, firstId) && StepAt(s, s', k, a)
    ensures Inv(s', ps, firstId)
  {
    CanAlwaysAct(s, ps, firstId, k, a);
    Assemble(s, ps, firstId, k, ActDaemon(s.daemon, k, s.sessions[k], a), ActSession(s.daemon, k, s.sessions[k], a));
  }

  lemma {:induction false} RunInv(t: seq<System>, ps: seq<Party>, firstId: nat, n: nat)
    requires Run(t, ps, firstId) && EnoughIds(ps, firstId) && n < |t|
    ensures Inv(t[n], ps, firstId)
  {
    if n == 0 {
      InvInit(t[0], ps, firstId);
    } else {
      RunInv(t, ps, firstId, n - 1);
      assert Follows(t[n - 1], t[n]);
      var k, a :| StepAt(t[n - 1], t[n], k, a);
      InvStep(t[n - 1], t[n], ps, firstId, k, a);
    }
  }

  /** Main result.  In every state of every run, every session keeps its promise ... */
  lemma MulticastAgreement(t: seq<System>, ps: seq<Party>, firstId: nat, n: nat, k: nat)
    requires Run(t, ps, firstId) && EnoughIds(ps, firstId) && n < |t| && k < |ps|
    ensures RealParty(ps[k]) && |t[n].sessions| == |ps| && Shape(t[n].sessions[k])
    ensures SessionPromise(t[n].daemon, k, t[n].sessions[k], ps[k])
  {
    RunInv(t, ps, firstId, n);
    SessionKeepsPromise(t[n].daemon, k, t[n].sessions[k], ps[k]);
  }

  /** ... no callback that could run next fails an assertion ... */
  lemma MulticastNeverFails(t: seq<System>, ps: seq<Party>, firstId: nat, n: nat, k: nat, a: Action)
    requires Run(t, ps, firstId) && EnoughIds(ps, firstId) && n < |t| && k < |t[n].sessions|
    requires CanAct(t[n].sessions[k], a)
    ensures Survives(t[n].daemon, k, t[n].sessions[k], a)
  {
    RunInv(t, ps, firstId, n);
    CanAlwaysAct(t[n], ps, firstId, k, a);
  }

  /** A second message of a sender, whatever it says, is taken exactly if the sender has been answered, has
      not acknowledged yet, and the message names the group. */
  lemma AckTakenIff(t: seq<System>, ps: seq<Party>, firstId: nat, n: nat, k: nat, m: CmMeta, a: Addresses)
    requires Run(t, ps, firstId) && EnoughIds(ps, firstId) && n < |t| && k < |ps| && McOf(t[n].daemon, Conn(k, 0)) != 0
    ensures |t[n].sessions| == |ps|
    ensures var s, d := t[n].sessions[k].sender, t[n].daemon;
            ClientReadable(d, Conn(k, 0), m, a).Done?
            <==> s.up.got == 1 && s.down.log != [] && m.peerQpn == McOf(d, Conn(k, 0))
  {
    RunInv(t, ps, firstId, n);
    assert SessionInv(t[n].daemon, k, t[n].sessions[k], ps[k]);
  }

  /** A message of a receiver is taken exactly if it has not been acknowledged yet; before the connection to it
      is up it is only recorded. */
  lemma ReplyTakenIff(t: seq<System>, ps: seq<Party>, firstId: nat, n: nat, k: nat, i: nat, m: CmMeta)
    requires Run(t, ps, firstId) && EnoughIds(ps, firstId) && n < |t| && k < |ps| && i < MEMBERS
    requires McOf(t[n].daemon, Conn(k, 0)) != 0
    ensures |t[n].sessions| == |ps| && Shape(t[n].sessions[k])
    ensures var sent, o := t[n].sessions[k].recv[i].down.log, ServerReadable(t[n].daemon, Conn(k, i + 1), m, true, true);
            && (o.Done? <==> |sent| <= 1) && (sent == [] ==> o.writes == []) && (|sent| == 1 ==> o.writes != [])
            && (o.Done? ==> Recorded(o.daemon, McOf(t[n].daemon, Conn(k, 0)), i, m))
  {
    RunInv(t, ps, firstId, n);
    ReplyTaken(t[n].daemon, k, t[n].sessions[k], ps[k], i, m);
  }

  /** The daemon knows `m` as what receiver `i` of the group said. */
  ghost predicate Recorded(d: Daemon, id: nat, i: nat, m: CmMeta) { id in d.meta && i < |d.meta[id].receiver| && d.meta[id].receiver[i] == m }

  lemma ReplyTaken(d: Daemon, k: nat, s: Session, p: Party, i: nat, m: CmMeta)
    requires SessionInv(d, k, s, p) && McOf(d, Conn(k, 0)) != 0 && i < MEMBERS
    ensures var sent, o := s.recv[i].down.log, ServerReadable(d, Conn(k, i + 1), m, true, true);
            && (o.Done? <==> |sent| <= 1) && (sent == [] ==> o.writes == []) && (|sent| == 1 ==> o.writes != [])
            && (o.Done? ==> Recorded(o.daemon, McOf(d, Conn(k, 0)), i, m))
  {
    var id := McOf(d, Conn(k, 0));
    assert FindConn(d.conns[id], Conn(k, i + 1), 0) == i;
    assert MemberInv(d.state[id].server[i], d.meta[id].receiver[i], s.recv[i], s.wire[i], p, i);
  }

  /** ... a receiver is told 0 and then its own number, no receiver is left half connected,
      and no group's switch entry is written twice. */
  lemma DaemonDiscipline(t: seq<System>, ps: seq<Party>, firstId: nat, n: nat)
    requires Run(t, ps, firstId) && EnoughIds(ps, firstId) && n < |t|
    ensures |t[n].sessions| == |ps|
    ensures forall k, i :: 0 <= k < |ps| && 0 <= i < MEMBERS ==>
              && Shape(t[n].sessions[k]) && RealParty(ps[k])
              && t[n].sessions[k].recv[i].down.log <= [FirstTo(ps[k]), SecondTo(ps[k], i)]
    ensures forall k, i :: 0 <= k < |ps| && 0 <= i < MEMBERS && McOf(t[n].daemon, Conn(k, 0)) != 0 ==>
              var id := McOf(t[n].daemon, Conn(k, 0));
              Known(t[n].daemon, id) && t[n].daemon.state[id].server[i] !in {SvConnected, SvError}
    ensures forall i, j :: 0 <= i < j < |t[n].daemon.switchLog| ==>
              t[n].daemon.switchLog[i].group != t[n].daemon.switchLog[j].group
  {
    RunInv(t, ps, firstId, n);
    var d := t[n].daemon;
    forall k, i | 0 <= k < |ps| && 0 <= i < MEMBERS
      ensures Shape(t[n].sessions[k]) && RealParty(ps[k])
      ensures t[n].sessions[k].recv[i].down.log <= [FirstTo(ps[k]), SecondTo(ps[k], i)]
      ensures McOf(d, Conn(k, 0)) != 0 ==>
                Known(d, McOf(d, Conn(k, 0))) && d.state[McOf(d, Conn(k, 0))].server[i] !in {SvConnected, SvError}
    {
      assert SessionInv(d, k, t[n].sessions[k], ps[k]);
    }
  }

  // ---------- Runs with their actions ----------

  /** Action `a` of session `k`. */
  datatype Deed = Deed(k: nat, a: Action)

  ghost predicate RunBy(t: seq<System>, deeds: seq<Deed>, ps: seq<Party>, firstId: nat) {
    && |t| == |deeds| + 1 && Starts(t[0], ps, firstId)
    && forall i :: 0 <= i < |deeds| ==> By(t[i], deeds[i], t[i + 1])
  }

  ghost predicate By(s: System, x: Deed, s': System) { StepAt(s, s', x.k, x.a) }

  lemma RunByIsRun(t: seq<System>, deeds: seq<Deed>, ps: seq<Party>, firstId: nat)
    requires RunBy(t, deeds, ps, firstId)
    ensures Run(t, ps, firstId)
  {
    forall i | 0 < i < |t|
      ensures Follows(t[i - 1], t[i])
    {
      assert By(t[i - 1], deeds[i - 1], t[i]);
    }
  }

  lemma Shorter(t: seq<System>, ps: seq<Party>, firstId: nat)
    requires Run(t, ps, firstId) && |t| > 1
    ensures Run(t[..|t| - 1], ps, firstId)
  {
    var t' := t[..|t| - 1];
    forall i | 0 < i < |t'|
      ensures Follows(t'[i - 1], t'[i])
    {
      assert Follows(t[i - 1], t[i]);
    }
  }

  lemma RunByOneMore(t: seq<System>, deeds: seq<Deed>, ps: seq<Party>, firstId: nat, x: Deed)
    requires |t| > 1 && RunBy(t[..|t| - 1], deeds, ps, firstId) && By(t[|t| - 2], x, t[|t| - 1])
    ensures RunBy(t, deeds + [x], ps, firstId)
  {
    forall i | 0 <= i < |deeds + [x]|
      ensures By(t[i], (deeds + [x])[i], t[i + 1])
    {
      if i < |deeds| { assert By(t[..|t| - 1][i], deeds[i], t[..|t| - 1][i + 1]); }
    }
  }

  /** Every run is one with its actions. */
  lemma {:induction false} DeedsExist(t: seq<System>, ps: seq<Party>, firstId: nat) returns (deeds: seq<Deed>)
    requires Run(t, ps, firstId)
    ensures RunBy(t, deeds, ps, firstId)
  {
    if |t| == 1 {
      deeds := [];
    } else {
      Shorter(t, ps, firstId);
      var before := DeedsExist(t[..|t| - 1], ps, firstId);
      assert Follows(t[|t| - 2], t[|t| - 1]);
      var k, a :| StepAt(t[|t| - 2], t[|t| - 1], k, a);
      RunByOneMore(t, before, ps, firstId, Deed(k, a));
      deeds := before + [Deed(k, a)];
    }
  }

  lemma {:induction false} DeliverKeepsSocks(s: Session, ws: seq<Write>, i: nat)
    requires Shape(s) && (forall w :: w in ws ==> w.conn.place <= MEMBERS) && i < MEMBERS
    ensures DeliverAll(s, ws).recv[i].sock == s.recv[i].sock
    decreases |ws|
  {
    if ws != [] { DeliverKeepsSocks(Deliver(s, ws[0]), ws[1..], i); }
  }

  /** Only its own callbacks change a receiver's socket. */
  lemma OwnSocketOnly(d: Daemon, k: nat, s: Session, a: Action, i: nat)
    requires CanAct(s, a) && Survives(d, k, s, a) && i < MEMBERS && !(a.AtReceiver? && a.i == i)
    ensures Shape(ActSession(d, k, s, a)) && ActSession(d, k, s, a).recv[i].sock == s.recv[i].sock
  {
    if !a.AtSender? && !a.AtReceiver? {
      DeliverKeepsSocks(Dial(Consume(s, a), Callback(d, k, s, a).dialed), Callback(d, k, s, a).writes, i);
    }
  }

  ghost function ReceiverOf(s: System, k: nat, i: nat): Sock
    requires k < |s.sessions| && Shape(s.sessions[k]) && i < MEMBERS
  {
    s.sessions[k].recv[i].sock
  }

  ghost predicate InPlace(t: seq<System>, k: nat) {
    forall n :: 0 <= n < |t| ==> k < |t[n].sessions| && Shape(t[n].sessions[k])
  }

  /** Receiver `i` of session `k` has been closed after its queue pair became ready. */
  ghost predicate ReceiverClosed(t: seq<System>, deeds: seq<Deed>, n: nat, k: nat, i: nat)
    requires InPlace(t, k) && n <= |deeds| < |t| && i < MEMBERS
  {
    exists j :: 0 <= j < n && deeds[j] == Deed(k, AtReceiver(i, EvClose)) && ReceiverOf(t[j], k, i).qp == QpRts
  }

  lemma ReceiverClosedStep(t: seq<System>, deeds: seq<Deed>, n: nat, k: nat, i: nat)
    requires InPlace(t, k) && 0 < n <= |deeds| < |t| && i < MEMBERS
    ensures ReceiverClosed(t, deeds, n, k, i)
       <==> ReceiverClosed(t, deeds, n - 1, k, i)
            || (deeds[n - 1] == Deed(k, AtReceiver(i, EvClose)) && ReceiverOf(t[n - 1], k, i).qp == QpRts)
  {
  }

  /** What one step does to a receiver's socket. */
  lemma SocketStep(s: System, x: Deed, s': System, k: nat, i: nat)
    requires By(s, x, s') && k < |s.sessions| && Shape(s.sessions[k]) && i < MEMBERS
    ensures k < |s'.sessions| && Shape(s'.sessions[k])
    ensures x.k == k && x.a.AtReceiver? && x.a.i == i ==>
              var l := s.sessions[k].recv[i];
              Enabled(l, x.a.e) && React(l, x.a.e).Next? && ReceiverOf(s', k, i) == After(l, x.a.e).sock
    ensures !(x.k == k && x.a.AtReceiver? && x.a.i == i) ==> ReceiverOf(s', k, i) == ReceiverOf(s, k, i)
  {
    if x.k == k && !(x.a.AtReceiver? && x.a.i == i) { OwnSocketOnly(s.daemon, k, s.sessions[k], x.a, i); }
  }

  lemma {:induction false} ReceiverActiveIff(t: seq<System>, deeds: seq<Deed>, ps: seq<Party>, firstId: nat, n: nat, k: nat, i: nat)
    requires RunBy(t, deeds, ps, firstId) && InPlace(t, k) && k < |ps| && n < |t| && i < MEMBERS
    ensures ReceiverOf(t[n], k, i).qp == QpRts ==> (ReceiverOf(t[n], k, i).active <==> !ReceiverClosed(t, deeds, n, k, i))
    ensures ReceiverOf(t[n], k, i).qp != QpRts ==> !ReceiverClosed(t, deeds, n, k, i)
  {
    if n > 0 {
      ReceiverActiveIff(t, deeds, ps, firstId, n - 1, k, i);
      assert By(t[n - 1], deeds[n - 1], t[n]);
      SocketStep(t[n - 1], deeds[n - 1], t[n], k, i);
      ReceiverClosedStep(t, deeds, n, k, i);
      var x, l := deeds[n - 1], t[n - 1].sessions[k].recv[i];
      if x.k == k && x.a.AtReceiver? && x.a.i == i {
        if l.sock.qp == QpRts { StaysReady(l, x.a.e); }
        if After(l, x.a.e).sock.qp == QpRts { ActiveStep(l, x.a.e); }
      }
    }
  }

  /** The exact form of the agreement: when a sender is connected without error its peer is the
      group, the switch is programmed, and each receiver is ready for it, and active unless it
      has been closed since. */
  lemma MulticastAgreementExact(t: seq<System>, deeds: seq<Deed>, ps: seq<Party>, firstId: nat, n: nat, k: nat, i: nat)
    requires RunBy(t, deeds, ps, firstId) && EnoughIds(ps, firstId) && n < |t| && k < |ps| && i < MEMBERS
    requires |t[n].sessions| == |ps| && t[n].sessions[k].sender.sock.connected && !t[n].sessions[k].sender.sock.error
    ensures InPlace(t, k) && RealParty(ps[k])
    ensures t[n].sessions[k].sender.sock.peerQpn == McOf(t[n].daemon, Conn(k, 0)) != 0
    ensures Installed(t[n].daemon.switchLog, ps[k], McOf(t[n].daemon, Conn(k, 0)))
    ensures var r := ReceiverOf(t[n], k, i);
            r.qp == QpRts && r.peerQpn == ps[k].sender.localQpn && (r.active <==> !ReceiverClosed(t, deeds, n, k, i))
  {
    RunByIsRun(t, deeds, ps, firstId);
    forall m | 0 <= m < |t|
      ensures k < |t[m].sessions| && Shape(t[m].sessions[k])
    {
      MulticastAgreement(t, ps, firstId, m, k);
    }
    MulticastAgreement(t, ps, firstId, n, k);
    ReceiverActiveIff(t, deeds, ps, firstId, n, k, i);
  }

  /** The exact agreement of receiver `i` of session `k` after `n` actions. */
  ghost predicate ExactAt(t: seq<System>, deeds: seq<Deed>, ps: seq<Party>, n: nat, k: nat, i: nat)
    requires InPlace(t, k) && n <= |deeds| < |t| && k < |ps| && RealParty(ps[k]) && i < MEMBERS
  {
    var sock, id, r := t[n].sessions[k].sender.sock, McOf(t[n].daemon, Conn(k, 0)), ReceiverOf(t[n], k, i);
    sock.connected && !sock.error ==>
      && sock.peerQpn == id != 0 && Installed(t[n].daemon.switchLog, ps[k], id)
      && r.qp == QpRts && r.peerQpn == ps[k].sender.localQpn && (r.active <==> !ReceiverClosed(t, deeds, n, k, i))
  }

  lemma AllInPlace(t: seq<System>, ps: seq<Party>, firstId: nat, k: nat)
    requires Run(t, ps, firstId) && EnoughIds(ps, firstId) && k < |ps|
    ensures InPlace(t, k) && RealParty(ps[k]) && forall m :: 0 <= m < |t| ==> |t[m].sessions| == |ps|
  {
    forall m | 0 <= m < |t|
      ensures |t[m].sessions| == |ps| && Shape(t[m].sessions[k])
    {
      MulticastAgreement(t, ps, firstId, m, k);
    }
  }

  /** Every run has actions that explain it, and the agreement is exact for them all along. */
  lemma EveryRunExact(t: seq<System>, ps: seq<Party>, firstId: nat) returns (deeds: seq<Deed>)
    requires Run(t, ps, firstId) && EnoughIds(ps, firstId)
    ensures RunBy(t, deeds, ps, firstId)
    ensures forall k :: 0 <= k < |ps| ==> InPlace(t, k) && RealParty(ps[k])
    ensures forall n, k, i :: 0 <= n < |t| && 0 <= k < |ps| && 0 <= i < MEMBERS ==> ExactAt(t, deeds, ps, n, k, i)
  {
    deeds := DeedsExist(t, ps, firstId);
    forall k | 0 <= k < |ps|
      ensures InPlace(t, k) && RealParty(ps[k])
    {
      AllInPlace(t, ps, firstId, k);
    }
    forall n, k, i | 0 <= n < |t| && 0 <= k < |ps| && 0 <= i < MEMBERS
      ensures ExactAt(t, deeds, ps, n, k, i)
    {
      AllInPlace(t, ps, firstId, k);
      if t[n].sessions[k].sender.sock.connected && !t[n].sessions[k].sender.sock.error {
        MulticastAgreementExact(t, deeds, ps, firstId, n, k, i);
      }
    }
  }
}
