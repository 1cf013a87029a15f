/** The multicast daemon: per-group handshake state, and the callbacks on its connections.
    `Daemon` and its functions are the specification; class `MulticastDaemon` is the object. */
module Multicast {
  import opened Sockets

  const MEMBERS: nat := 2
  /** Group numbers are 32-bit unsigned. */
  const ID_LIMIT: nat := 0x1_0000_0000
  /** The control plane refuses this group number. */
  const RESERVED_GROUP: nat := 2

  datatype ClientState = ClInit | ClHandshakeReceived | ClHandshakeSent | ClAckReceived | ClError
  datatype ServerState = SvInit | SvConnected | SvHandshakeSent | SvAckSent | SvError

  datatype McState = McState(client: ClientState, server: seq<ServerState>)

  datatype GroupMeta = GroupMeta(sender: CmMeta, receiver: seq<CmMeta>)

  /** The sender's address, as its connection shows it, and those of the members, as every
      message of the sender carries them. */
  datatype Addresses = Addresses(sender: nat, members: seq<nat>)

  /** One row of the switch's multicast table. */
  datatype SwitchEntry = SwitchEntry(
    group: nat, senderAddr: nat, senderQpn: nat, receiverAddr: seq<nat>, receiverQpn: seq<nat>)

  /** A daemon connection, named by the session it serves and its place in the group:
      0 towards the sender, i + 1 towards receiver i. */
  datatype Conn = Conn(session: nat, place: nat)

  datatype Write = Write(conn: Conn, msg: CmMeta)

  datatype Daemon = Daemon(
    nextId: nat, mcOf: map<Conn, nat>, state: map<nat, McState>, meta: map<nat, GroupMeta>,
    conns: map<nat, seq<Conn>>, addrs: map<nat, Addresses>, switchLog: seq<SwitchEntry>)

  /** `dialed` lists the connections the callback started. */
  datatype Outcome = Done(daemon: Daemon, writes: seq<Write>, dialed: seq<Conn>) | AssertFailed

  function NewDaemon(firstId: nat): Daemon {
    Daemon(firstId, map[], map[], map[], map[], map[], [])
  }

  function McOf(d: Daemon, c: Conn): nat {
    if c in d.mcOf then d.mcOf[c] else 0
  }

  predicate Known(d: Daemon, id: nat) {
    id in d.state && id in d.meta && id in d.conns && id in d.addrs
    && |d.state[id].server| == MEMBERS && |d.meta[id].receiver| == MEMBERS && |d.conns[id]| == MEMBERS + 1
  }

  function Fresh(): McState { McState(ClInit, [SvInit, SvInit]) }

  function MsgToReceiver(g: GroupMeta, i: nat): CmMeta
    requires i < |g.receiver|
  {
    CmMeta(g.sender.lid, g.sender.localQpn, g.sender.psn, g.receiver[i].localQpn, g.sender.gid)
  }

  function MsgToSender(g: GroupMeta, id: nat): CmMeta
    requires |g.receiver| == MEMBERS
  {
    CmMeta(g.receiver[0].lid, id, g.sender.psn, g.sender.localQpn, g.receiver[1].gid)
  }

  function Programmed(log: seq<SwitchEntry>, e: SwitchEntry): seq<SwitchEntry> {
    if e.group == RESERVED_GROUP then log else log + [e]
  }

  /** The sender's connection has a message: it opens a group, or acknowledges one. */
  function ClientReadable(d: Daemon, c: Conn, m: CmMeta, a: Addresses): Outcome {
    var id := McOf(d, c);
    if id == 0 then
      var id := d.nextId;
      if id in d.meta then AssertFailed
      else
        var members := [Conn(c.session, 1), Conn(c.session, 2)];
        Done(Daemon(
               (id + 1) % ID_LIMIT,
               d.mcOf[c := id][members[0] := id][members[1] := id],
               d.state[id := Fresh().(client := ClHandshakeReceived)],
               d.meta[id := GroupMeta(m, [NoMeta, NoMeta])],
               d.conns[id := [c] + members],
               d.addrs[id := a],
               d.switchLog), [], members)
    else if !Known(d, id) then AssertFailed
    else if d.state[id].client != ClHandshakeSent || m.peerQpn != id then AssertFailed
    else
      Done(d.(meta := d.meta[id := d.meta[id].(sender := m)],
              state := d.state[id := d.state[id].(client := ClAckReceived)]), [], [])
  }

  function FindConn(cs: seq<Conn>, c: Conn, i: nat): nat
    requires i <= MEMBERS && |cs| == MEMBERS + 1
    decreases MEMBERS - i
  {
    if i == MEMBERS || cs[i + 1] == c then i else FindConn(cs, c, i + 1)
  }

  function EntryFor(id: nat, g: GroupMeta, a: Addresses): SwitchEntry
    requires |g.receiver| == MEMBERS
  {
    SwitchEntry(id, a.sender, g.sender.localQpn, a.members, [g.receiver[0].localQpn, g.receiver[1].localQpn])
  }

  /** Answers the sender once both receivers have been acknowledged; `written` says whether the
      message gets out. */
  function AnswerSender(d: Daemon, id: nat, written: bool): Outcome
    requires Known(d, id)
  {
    var st, g := d.state[id], d.meta[id];
    if st.client != ClHandshakeReceived || exists i :: 0 <= i < MEMBERS && st.server[i] != SvAckSent then Done(d, [], [])
    else if !written then AssertFailed
    else
      Done(d.(state := d.state[id := st.(client := ClHandshakeSent)],
              switchLog := Programmed(d.switchLog, EntryFor(id, g, d.addrs[id]))),
           [Write(d.conns[id][0], MsgToSender(g, id))], [])
  }

  /** `toReceiver` and `toSender` say whether the two messages that may be due get out. */
  function ServerReadable(d: Daemon, c: Conn, m: CmMeta, toReceiver: bool, toSender: bool): Outcome {
    var id := McOf(d, c);
    if !Known(d, id) then AssertFailed
    else
      var i := FindConn(d.conns[id], c, 0);
      if i == MEMBERS then AssertFailed
      else
        var g := d.meta[id].(receiver := d.meta[id].receiver[i := m]);
        var d1 := d.(meta := d.meta[id := g]);
        match d.state[id].server[i]
        case SvInit => Done(d1, [], [])
        case SvHandshakeSent =>
          var d2 := d1.(state := d.state[id := d.state[id].(server := d.state[id].server[i := SvAckSent])]);
          var r := AnswerSender(d2, id, toSender);
          if !toReceiver || r.AssertFailed? then AssertFailed
          else r.(writes := [Write(d.conns[id][i + 1], MsgToReceiver(g, i))] + r.writes)
        case _ => AssertFailed
  }

  /** The connection to a receiver is up. */
  function ServerWriteable(d: Daemon, c: Conn, written: bool): Outcome {
    var id := McOf(d, c);
    if !Known(d, id) then AssertFailed
    else
      var i := FindConn(d.conns[id], c, 0);
      if i == MEMBERS then AssertFailed
      else
        var st := d.state[id];
        if st.client == ClHandshakeReceived then
          if !written then AssertFailed
          else
            Done(d.(state := d.state[id := st.(server := st.server[i := SvHandshakeSent])]),
                 [Write(d.conns[id][i + 1], MsgToReceiver(d.meta[id], i))], [])
        else
          Done(d.(state := d.state[id := st.(server := st.server[i := SvConnected])]), [], [])
  }

  /** When nothing else is wrong, a callback fails exactly if a message that is due does not get out. */
  lemma FailsIffUnwritten(d: Daemon, c: Conn, m: CmMeta, toReceiver: bool, toSender: bool)
    ensures var o := ServerReadable(d, c, m, true, true);
            o.Done? ==> (ServerReadable(d, c, m, toReceiver, toSender).Done?
                         <==> (toReceiver || o.writes == []) && (toSender || |o.writes| <= 1))
    ensures var o := ServerWriteable(d, c, true);
            o.Done? ==> (ServerWriteable(d, c, toReceiver).Done? <==> toReceiver || o.writes == [])
  {
  }

  /** A connection without a group gets one exactly if the next number is not taken. */
  lemma OpensIff(d: Daemon, c: Conn, m: CmMeta, a: Addresses)
    requires McOf(d, c) == 0
    ensures ClientReadable(d, c, m, a).Done? <==> d.nextId !in d.meta
  {
  }

  /** A member's connection that comes up is sent the opening message if there is one, and otherwise waits in
      CONNECTED; the other member and everything else stay as they were. */
  lemma MemberUpEffect(d: Daemon, c: Conn, i: nat)
    requires Known(d, McOf(d, c)) && i < MEMBERS && d.conns[McOf(d, c)][i + 1] == c
    requires forall j :: 0 < j <= i ==> d.conns[McOf(d, c)][j] != c
    ensures var id, o := McOf(d, c), ServerWriteable(d, c, true);
            && o.Done? && o.dialed == [] && id in o.daemon.state && |o.daemon.state[id].server| == MEMBERS
            && o.daemon == d.(state := d.state[id := o.daemon.state[id]])
            && o.daemon.state[id].client == d.state[id].client
            && (forall j :: 0 <= j < MEMBERS && j != i ==> o.daemon.state[id].server[j] == d.state[id].server[j])
            && if d.state[id].client == ClHandshakeReceived then
                 |o.writes| == 1 && o.writes[0].conn == c && o.daemon.state[id].server[i] == SvHandshakeSent
               else o.writes == [] && o.daemon.state[id].server[i] == SvConnected
  {
    assert FindConn(d.conns[McOf(d, c)], c, 0) == i;
  }

  class MulticastDaemon {
    var nextId: nat
    var mcOf: map<Conn, nat>
    var state: map<nat, McState>
    var meta: map<nat, GroupMeta>
    var conns: map<nat, seq<Conn>>
    var addrs: map<nat, Addresses>
    var switchLog: seq<SwitchEntry>

    function View(): Daemon
      reads this
    {
      Daemon(nextId, mcOf, state, meta, conns, addrs, switchLog)
    }

    constructor (firstId: nat)
      ensures View() == NewDaemon(firstId)
    {
      nextId := firstId;
      mcOf, state, meta, conns, addrs, switchLog := map[], map[], map[], map[], map[], [];
    }

    /** Starts a connection to each member of group `id`. */
    method OpenMembers(c: Conn, id: nat) returns (dialed: seq<Conn>)
      requires id in conns && conns[id] == [c]
      modifies this`mcOf, this`conns
      ensures dialed == [Conn(c.session, 1), Conn(c.session, 2)]
      ensures mcOf == old(mcOf)[dialed[0] := id][dialed[1] := id]
      ensures conns == old(conns)[id := [c] + dialed]
    {
      dialed := [];
      for i := 0 to MEMBERS
        invariant dialed == [Conn(c.session, 1), Conn(c.session, 2)][..i]
        invariant mcOf == match i case 0 => old(mcOf) case 1 => old(mcOf)[Conn(c.session, 1) := id]
                    case _ => old(mcOf)[Conn(c.session, 1) := id][Conn(c.session, 2) := id]
        invariant id in conns && conns[id] == [c] + dialed && conns == old(conns)[id := conns[id]]
      {
        var member := Conn(c.session, i + 1);
        mcOf := mcOf[member := id];
        assert conns[id] + [member] == [c] + (dialed + [member]);
        dialed := dialed + [member];
        conns := conns[id := conns[id] + [member]];
      }
    }

    /** The sender's first message: its connection gets the next group number. */
    method OpenNewGroup(c: Conn, m: CmMeta, a: Addresses) returns (dialed: seq<Conn>)
      requires (c !in mcOf || mcOf[c] == 0) && nextId !in meta
      modifies this
      ensures ClientReadable(old(View()), c, m, a) == Done(View(), [], dialed)
    {
      var id := nextId;
      nextId := (nextId + 1) % ID_LIMIT;
      mcOf := mcOf[c := id];
      conns := conns[id := [c]];
      state := state[id := Fresh()];
      meta := meta[id := GroupMeta(m, [NoMeta, NoMeta])];
      addrs := addrs[id := a];
      state := state[id := state[id].(client := ClHandshakeReceived)];
      assert state == old(state)[id := Fresh().(client := ClHandshakeReceived)];
      dialed := OpenMembers(c, id);
    }

    method ProcessClientReadable(c: Conn, m: CmMeta, a: Addresses) returns (dialed: seq<Conn>, failed: bool)
      modifies this
      ensures failed == ClientReadable(old(View()), c, m, a).AssertFailed?
      ensures !failed ==> ClientReadable(old(View()), c, m, a) == Done(View(), [], dialed)
    {
      dialed, failed := [], false;
      var id: nat := if c in mcOf then mcOf[c] else 0;
      if id == 0 {
        if nextId in meta {
          failed := true;
          return;
        }
        dialed := OpenNewGroup(c, m, a);
      } else if !Known(View(), id) || state[id].client != ClHandshakeSent || m.peerQpn != id {
        failed := true;
      } else {
        meta := meta[id := meta[id].(sender := m)];
        state := state[id := state[id].(client := ClAckReceived)];
      }
    }

    /** Linear search over the group's members. */
    method GetMcIndex(id: nat, c: Conn) returns (i: nat)
      requires Known(View(), id)
      ensures i == FindConn(conns[id], c, 0) && i <= MEMBERS
    {
      i := 0;
      while i < MEMBERS
        invariant i <= MEMBERS && FindConn(conns[id], c, i) == FindConn(conns[id], c, 0)
      {
        if conns[id][i + 1] == c { return; }
        i := i + 1;
      }
    }

    /** Fails unless the receiver is connected or waiting for the acknowledgement, and if the
        message does not get out. */
    method SendHandshakeToServer(id: nat, i: nat, written: bool) returns (w: Write, failed: bool)
      requires Known(View(), id) && i < MEMBERS
      ensures failed == (!written || (state[id].server[i] != SvConnected && state[id].server[i] != SvHandshakeSent))
      ensures w == Write(conns[id][i + 1], MsgToReceiver(meta[id], i))
    {
      failed := state[id].server[i] != SvConnected && state[id].server[i] != SvHandshakeSent;
      w := Write(conns[id][i + 1], MsgToReceiver(meta[id], i));
      if !written { failed := true; }
    }

    method CheckAndSendHandshakeToClient(id: nat, written: bool) returns (writes: seq<Write>, failed: bool)
      requires Known(View(), id)
      modifies this
      ensures failed == AnswerSender(old(View()), id, written).AssertFailed?
      ensures !failed ==> AnswerSender(old(View()), id, written) == Done(View(), writes, [])
    {
      writes, failed := [], false;
      if state[id].client != ClHandshakeReceived { return; }
      for i := 0 to MEMBERS
        invariant forall j :: 0 <= j < i ==> state[id].server[j] == SvAckSent
        invariant View() == old(View())
      {
        if state[id].server[i] != SvAckSent { return; }
      }
      var g := meta[id];
      switchLog := Programmed(switchLog, EntryFor(id, g, addrs[id]));
      if !written {
        failed := true;
        return;
      }
      writes := [Write(conns[id][0], MsgToSender(g, id))];
      state := state[id := state[id].(client := ClHandshakeSent)];
    }

    method ProcessServerReadable(c: Conn, m: CmMeta, toReceiver: bool, toSender: bool) returns (writes: seq<Write>, failed: bool)
      modifies this
      ensures failed == ServerReadable(old(View()), c, m, toReceiver, toSender).AssertFailed?
      ensures !failed ==> ServerReadable(old(View()), c, m, toReceiver, toSender) == Done(View(), writes, [])
    {
      writes, failed := [], true;
      var id: nat := if c in mcOf then mcOf[c] else 0;
      if !Known(View(), id) { return; }
      var i := GetMcIndex(id, c);
      if i == MEMBERS { return; }
      failed := false;
      meta := meta[id := meta[id].(receiver := meta[id].receiver[i := m])];
      match state[id].server[i] {
        case SvInit =>
        case SvHandshakeSent =>
          var first, rest;
          first, failed := SendHandshakeToServer(id, i, toReceiver);
          if failed { return; }
          state := state[id := state[id].(server := state[id].server[i := SvAckSent])];
          rest, failed := CheckAndSendHandshakeToClient(id, toSender);
          writes := [first] + rest;
        case _ => failed := true;
      }
    }

    method ProcessServerWriteable(c: Conn, written: bool) returns (writes: seq<Write>, failed: bool)
      modifies this
      ensures failed == ServerWriteable(old(View()), c, written).AssertFailed?
      ensures !failed ==> ServerWriteable(old(View()), c, written) == Done(View(), writes, [])
    {
      writes, failed := [], true;
      var id: nat := if c in mcOf then mcOf[c] else 0;
      if !Known(View(), id) { return; }
      var i := GetMcIndex(id, c);
      if i == MEMBERS { return; }
      failed := false;
      ghost var before := state[id].server;
      state := state[id := state[id].(server := state[id].server[i := SvConnected])];
      if state[id].client == ClHandshakeReceived {
        var w;
        w, failed := SendHandshakeToServer(id, i, written);
        if failed { return; }
        writes := [w];
        state := state[id := state[id].(server := state[id].server[i := SvHandshakeSent])];
        assert state[id].server == before[i := SvHandshakeSent];
      }
    }
  }
}
