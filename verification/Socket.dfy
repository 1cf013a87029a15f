/** The handshake side of an RDMA connected socket: the metadata it exchanges over TCP,
    its queue pair's state, and the callbacks that move both.
    `Sock` and the functions on it are the specification; class `ConnectedSocket`
    is the object whose fields the callbacks update. */
module Sockets {

  /** Connection metadata.  A peer number of 0 marks the first message of a handshake. */
  datatype CmMeta = CmMeta(lid: nat, localQpn: nat, psn: nat, peerQpn: nat, gid: seq<nat>)

  /** A queue pair is created in INIT and must go INIT, RTR, RTS in that order. */
  datatype QpState = QpInit | QpRtr | QpRts

  /** `connecting`: the connection-established callback is still armed.
      `reading`: the handshake read callback is armed. */
  datatype Sock = Sock(
    isServer: bool, connected: bool, active: bool, error: bool, peerQpn: nat,
    local: CmMeta, peer: CmMeta, qp: QpState, connecting: bool, reading: bool)

  /** What a callback did: the new socket and the messages written, or a failed assertion. */
  datatype Result = Next(sock: Sock, out: seq<CmMeta>) | Aborted

  const NoMeta := CmMeta(0, 0, 0, 0, [])

  function NewClient(local: CmMeta): Sock {
    Sock(false, false, false, false, 0, local.(peerQpn := 0), NoMeta, QpInit, true, false)
  }

  function NewServer(local: CmMeta): Sock {
    Sock(true, false, false, false, 0, local.(peerQpn := 0), NoMeta, QpInit, false, true)
  }

  function Fault(s: Sock): Sock {
    s.(error := true, connected := true)
  }

  /** Moves the queue pair to RTS; the verbs layer refuses unless it is still in INIT. */
  function Activate(s: Sock): Result {
    if s.qp != QpInit then Aborted
    else Next(s.(local := s.local.(peerQpn := s.peer.localQpn), qp := QpRts, active := true,
                 connected := s.connected || !s.isServer, peerQpn := s.peer.localQpn), [])
  }

  function SendMeta(s: Sock, ok: bool): Result {
    if ok then Next(s, [s.local]) else Next(Fault(s), [])
  }

  /** `raise` says whether a failure raises a fault, as the callback does, or is only returned, as
      the blocking connect wants it. */
  function Established(s: Sock, sendOk: bool, raise: bool): Result {
    var s1 := s.(connecting := false);
    if s1.connected then Next(if raise then Fault(s1) else s1, [])
    else
      var s2 := s1.(local := s1.local.(peerQpn := 0));
      if sendOk then Next(s2.(reading := true), [s2.local]) else Next(if raise then Fault(s2) else s2, [])
  }

  function HandleMessage(s: Sock, m: CmMeta, sendOk: bool): Result {
    var s1 := s.(peer := m);
    if s1.connected then Next(Fault(s1), [])
    else if !s1.isServer then
      match Activate(s1)
      case Aborted => Aborted
      case Next(s2, _) => SendMeta(s2, sendOk)
    else if m.peerQpn == 0 then
      if s1.active then Next(s1, [])
      else
        match Activate(s1)
        case Aborted => Aborted
        case Next(s2, _) => SendMeta(s2, sendOk)
    else Next(s1.(connected := true), [])
  }

  /** An application read.  `fin` says that the data queue held the peer's empty close message. */
  function Read(s: Sock, fin: bool): Sock {
    if !s.active || (!s.connected && !s.isServer) then s
    else
      var s1 := if fin && s.connected then s.(error := true) else s;
      if s1.isServer && !s1.connected then s1.(connected := true, reading := false, connecting := false)
      else s1
  }

  function Close(s: Sock): Sock {
    s.(error := true, active := false)
  }

  class ConnectedSocket {
    const isServer: bool
    var connected: bool
    var active: bool
    var error: bool
    var peerQpn: nat
    var local: CmMeta
    var peer: CmMeta
    var qp: QpState
    var connecting: bool
    var reading: bool

    ghost function State(): Sock
      reads this
    {
      Sock(isServer, connected, active, error, peerQpn, local, peer, qp, connecting, reading)
    }

    constructor (meta: CmMeta, server: bool)
      ensures State() == if server then NewServer(meta) else NewClient(meta)
    {
      isServer, connected, active, error, peerQpn := server, false, false, false, 0;
      local, peer, qp := meta.(peerQpn := 0), NoMeta, QpInit;
      connecting, reading := !server, server;
    }

    method RaiseFault()
      modifies this
      ensures State() == Fault(old(State()))
    {
      error := true;
      connected := true;
    }

    method ModifyQpToRtr() returns (ok: bool)
      modifies this`qp
      ensures ok == (old(qp) == QpInit)
      ensures qp == if ok then QpRtr else old(qp)
    {
      ok := qp == QpInit;
      if ok { qp := QpRtr; }
    }

    method ModifyQpToRts() returns (ok: bool)
      modifies this`qp
      ensures ok == (old(qp) == QpRtr)
      ensures qp == if ok then QpRts else old(qp)
    {
      ok := qp == QpRtr;
      if ok { qp := QpRts; }
    }

    method DoActivate() returns (ok: bool)
      modifies this
      ensures ok == Activate(old(State())).Next?
      ensures ok ==> State() == Activate(old(State())).sock
    {
      local := local.(peerQpn := peer.localQpn);
      ok := ModifyQpToRtr();
      if !ok { return; }
      ok := ModifyQpToRts();
      if !isServer { connected := true; }
      active := true;
      peerQpn := local.peerQpn;
    }

    method HandleConnectionEstablished(sendOk: bool, needSetFault: bool) returns (out: seq<CmMeta>, ok: bool)
      modifies this
      ensures Established(old(State()), sendOk, needSetFault) == Next(State(), out)
      ensures ok == (!old(connected) && sendOk)
    {
      out, ok := [], false;
      connecting := false;
      if connected {
        if needSetFault { RaiseFault(); }
        return;
      }
      local := local.(peerQpn := 0);
      if !sendOk {
        if needSetFault { RaiseFault(); }
        return;
      }
      out, ok := [local], true;
      reading := true;
    }

    /** `aborted` reports the failed assertion on `activate`. */
    method HandleConnection(m: CmMeta, sendOk: bool) returns (out: seq<CmMeta>, aborted: bool)
      modifies this
      ensures aborted == HandleMessage(old(State()), m, sendOk).Aborted?
      ensures !aborted ==> HandleMessage(old(State()), m, sendOk) == Next(State(), out)
    {
      out, aborted := [], false;
      peer := m;
      if connected {
        RaiseFault();
        return;
      }
      if isServer && m.peerQpn != 0 {
        connected := true;
        return;
      }
      if isServer && active { return; }
      var ok := DoActivate();
      if !ok {
        aborted := true;
        return;
      }
      if sendOk { out := [local]; } else { RaiseFault(); }
    }

    method ReadData(fin: bool)
      modifies this
      ensures State() == Read(old(State()), fin)
    {
      if !active || (!connected && !isServer) { return; }
      if fin && connected { error := true; }
      if isServer && !connected {
        connected := true;
        reading, connecting := false, false;
      }
    }

    method DoClose()
      modifies this
      ensures State() == Close(old(State()))
    {
      error := true;
      active := false;
    }
  }
}
