/** A socket together with the two byte streams of its TCP connection, each seen as the
    sequence of messages ever written to it and the number read so far. */
module Links {
  import opened Sockets

  datatype Chan = Chan(log: seq<CmMeta>, got: nat) {
    ghost predicate Ok() { got <= |log| }

    function Put(ms: seq<CmMeta>): Chan { Chan(log + ms, got) }
  }

  /** `up` carries what the socket writes, `down` what it reads. */
  datatype Link = Link(sock: Sock, up: Chan, down: Chan)

  const NoTraffic := Chan([], 0)

  /** What can happen at a socket.  The flags say whether the write succeeded, whether a failure
      raises a fault, and whether the data queue held a close message. */
  datatype Event = EvEstablished(ok: bool, raise: bool) | EvReceive(ok: bool) | EvReceiveError | EvRead(fin: bool) | EvClose

  predicate Enabled(l: Link, e: Event) {
    match e
    case EvEstablished(_, _) => l.sock.connecting
    case EvReceive(_) => l.sock.reading && l.down.got < |l.down.log|
    case EvReceiveError => l.sock.reading
    case EvRead(_) => true
    case EvClose => true
  }

  function React(l: Link, e: Event): Result
    requires Enabled(l, e)
  {
    match e
    case EvEstablished(ok, raise) => Established(l.sock, ok, raise)
    case EvReceive(ok) => HandleMessage(l.sock, l.down.log[l.down.got], ok)
    case EvReceiveError => Next(Fault(l.sock), [])
    case EvRead(fin) => Next(Read(l.sock, fin), [])
    case EvClose => Next(Close(l.sock), [])
  }

  /** The connection after event `e`; meaningful when no assertion failed. */
  function After(l: Link, e: Event): Link
    requires Enabled(l, e) && React(l, e).Next?
  {
    var r := React(l, e);
    Link(r.sock, l.up.Put(r.out), if e.EvReceive? then l.down.(got := l.down.got + 1) else l.down)
  }

  /** What a connecting socket guarantees whatever its peer writes: it writes its first message
      at most once, answers only the first message it reads, and is connected without error
      only when its queue pair is ready to send to the number that message gave. */
  ghost predicate ClientInv(l: Link, meta: CmMeta) {
    var s := l.sock;
    && l.up.Ok() && l.down.Ok()
    && !s.isServer
    && s.local.(peerQpn := 0) == meta.(peerQpn := 0)
    && (s.connecting ==> l.up.log == [] && l.down.got == 0 && !s.reading)
    && |l.up.log| <= 2
    && (|l.up.log| >= 1 ==> l.up.log[0] == meta.(peerQpn := 0))
    && (|l.up.log| == 2 ==> s.qp == QpRts && l.up.log[1] == meta.(peerQpn := s.peerQpn))
    && (s.reading ==> |l.up.log| >= 1)
    && (l.down.got > 0 ==> |l.up.log| >= 1)
    && (s.qp == QpRts ==> l.down.got >= 1 && s.peerQpn == l.down.log[0].localQpn && s.connected)
    && s.qp != QpRtr
    && (s.qp == QpInit && l.down.got > 0 ==> s.connected)
    && (s.connected && !s.error ==> s.qp == QpRts && s.active)
    && (s.active ==> s.qp == QpRts)
  }

  /** The peer of an accepting socket keeps to the handshake:
      0 in its first message and never again. */
  ghost predicate GoodCaller(c: Chan) {
    && (|c.log| > 0 ==> c.log[0].peerQpn == 0)
    && forall j :: 0 < j < |c.log| ==> c.log[j].peerQpn != 0
  }

  /** What an accepting socket guarantees to such a peer: one reply at most, written when its
      queue pair is ready and naming the caller's number. */
  ghost predicate ServerInv(l: Link, meta: CmMeta) {
    var s := l.sock;
    && l.up.Ok() && l.down.Ok()
    && s.isServer && !s.connecting
    && s.local.(peerQpn := 0) == meta.(peerQpn := 0)
    && |l.up.log| <= 1
    && (|l.up.log| == 1 ==> s.qp == QpRts && l.up.log[0] == meta.(peerQpn := s.peerQpn))
    && s.qp != QpRtr
    && (s.qp == QpRts ==> l.down.got >= 1 && s.peerQpn == l.down.log[0].localQpn && (s.active || s.error))
    && (s.qp == QpRts ==> s.peer.localQpn == l.down.log[l.down.got - 1].localQpn)
    && (s.qp == QpInit && l.down.got > 0 ==> s.connected)
    && (s.connected && !s.error ==> s.active)
    && (s.active ==> s.qp == QpRts)
  }

  lemma ClientStep(l: Link, meta: CmMeta, e: Event)
    requires ClientInv(l, meta) && Enabled(l, e)
    ensures React(l, e).Next? && ClientInv(After(l, e), meta)
  {
  }

  lemma ServerStep(l: Link, meta: CmMeta, e: Event)
    requires ServerInv(l, meta) && GoodCaller(l.down) && Enabled(l, e)
    ensures React(l, e).Next? && ServerInv(After(l, e), meta)
  {
  }

  /** Both guarantees survive anything the peer writes next. */
  lemma PeerWrites(l: Link, meta: CmMeta, ms: seq<CmMeta>)
    ensures ClientInv(l, meta) ==> ClientInv(l.(down := l.down.Put(ms)), meta)
    ensures ServerInv(l, meta) ==> ServerInv(l.(down := l.down.Put(ms)), meta)
  {
  }

  /** How a message bears on readiness: it can bring it, with activity, and takes neither away. */
  lemma MessageReadies(s: Sock, m: CmMeta, ok: bool)
    requires HandleMessage(s, m, ok).Next?
    ensures var s' := HandleMessage(s, m, ok).sock;
            (s.qp == QpRts ==> s'.qp == QpRts && s'.active == s.active) && (s.qp != QpRts && s'.qp == QpRts ==> s'.active)
  {
  }

  lemma StaysReady(l: Link, e: Event)
    requires Enabled(l, e) && React(l, e).Next? && l.sock.qp == QpRts
    ensures After(l, e).sock.qp == QpRts
  {
    if e.EvReceive? { MessageReadies(l.sock, l.down.log[l.down.got], e.ok); }
  }

  /** A socket whose queue pair is ready is active exactly if it was, or has just become ready, and
      this was no close. */
  lemma ActiveStep(l: Link, e: Event)
    requires Enabled(l, e) && React(l, e).Next? && After(l, e).sock.qp == QpRts
    ensures After(l, e).sock.active <==> (l.sock.qp == QpRts ==> l.sock.active && e != EvClose)
  {
    if e.EvReceive? { MessageReadies(l.sock, l.down.log[l.down.got], e.ok); }
  }

  // ---------- Every event, field by field ----------

  /** An application read of an accepting socket that has replied takes the place of the acknowledgement. */
  lemma ReadEffect(s: Sock, fin: bool)
    ensures var s' := Read(s, fin);
            && (s.isServer && s.active ==> s'.connected)
            && (s.isServer && s.active && !s.connected ==> !s'.reading && !s'.connecting)
            && (s'.error <==> s.error || (fin && s.active && s.connected))
            && s' == s.(connected := s'.connected, reading := s'.reading, connecting := s'.connecting, error := s'.error)
            && (!(s.isServer && s.active && !s.connected) ==> s' == s.(error := s'.error))
  {
  }

  /** The message about to be read is one that the socket answers. */
  ghost predicate Answers(l: Link)
    requires l.down.got < |l.down.log|
  {
    !l.sock.connected && (!l.sock.isServer || (l.down.log[l.down.got].peerQpn == 0 && !l.sock.active))
  }

  /** An accepting socket that has replied and waits for the acknowledgement. */
  ghost predicate Waits(s: Sock) { s.isServer && s.active && !s.connected }

  /** What puts a socket into error. */
  ghost predicate BringsError(l: Link, e: Event)
    requires Enabled(l, e)
  {
    match e
    case EvEstablished(ok, raise) => raise && (l.sock.connected || !ok)
    case EvReceive(ok) => l.sock.connected || (Answers(l) && !ok)
    case EvReceiveError => true
    case EvRead(fin) => fin && l.sock.active && l.sock.connected
    case EvClose => true
  }

  /** What connects a socket, in error or not. */
  ghost predicate BringsConnection(l: Link, e: Event)
    requires Enabled(l, e)
  {
    match e
    case EvEstablished(ok, raise) => raise && !ok
    case EvReceive(ok) =>
      !l.sock.isServer || l.down.log[l.down.got].peerQpn != 0 || (!l.sock.active && !ok)
    case EvReceiveError => true
    case EvRead(_) => Waits(l.sock)
    case EvClose => false
  }

  /** A socket is in error, and connected, exactly from the events that bring it there on. */
  lemma FlagsIff(l: Link, e: Event)
    requires Enabled(l, e) && React(l, e).Next?
    ensures After(l, e).sock.error <==> l.sock.error || BringsError(l, e)
    ensures After(l, e).sock.connected <==> l.sock.connected || BringsConnection(l, e)
  {
    match e {
      case EvReceive(ok) => MessageFlags(l.sock, l.down.log[l.down.got], ok);
      case EvRead(fin) => ReadEffect(l.sock, fin);
      case _ =>
    }
  }

  /** What is written: the socket's own metadata, with 0 to open the exchange and with the number read
      to answer it. */
  lemma WritesExactly(l: Link, e: Event)
    requires Enabled(l, e) && React(l, e).Next?
    ensures var mine := l.sock.local;
            After(l, e).up == l.up.Put(
              if e.EvEstablished? && e.ok && !l.sock.connected then [mine.(peerQpn := 0)]
              else if e.EvReceive? && e.ok && Answers(l) then [mine.(peerQpn := l.down.log[l.down.got].localQpn)]
              else [])
  {
  }

  /** Queue pair, activity and numbers change when a message is answered, and activity ends with a close. */
  lemma NumbersExactly(l: Link, e: Event)
    requires Enabled(l, e) && React(l, e).Next?
    ensures var s, s' := l.sock, After(l, e).sock;
            if e.EvReceive? && Answers(l) then
              var m := l.down.log[l.down.got];
              s.qp == QpInit && s'.qp == QpRts && s'.active && s'.peerQpn == m.localQpn && s'.peer == m
              && s'.local == s.local.(peerQpn := m.localQpn)
            else
              && s'.qp == s.qp && s'.peerQpn == s.peerQpn && (s'.active <==> s.active && e != EvClose)
              && s'.peer == (if e.EvReceive? then l.down.log[l.down.got] else s.peer)
              && s'.local == (if e.EvEstablished? && !s.connected then s.local.(peerQpn := 0) else s.local)
  {
  }

  /** Which callbacks are armed. */
  lemma ArmedExactly(l: Link, e: Event)
    requires Enabled(l, e) && React(l, e).Next?
    ensures var s, s' := l.sock, After(l, e).sock;
            && s'.isServer == s.isServer
            && (s'.connecting <==> s.connecting && !e.EvEstablished? && !(e.EvRead? && Waits(s)))
            && (s'.reading <==> (s.reading && !(e.EvRead? && Waits(s))) || (e.EvEstablished? && e.ok && !s.connected))
  {
    match e {
      case EvReceive(ok) => MessageFlags(l.sock, l.down.log[l.down.got], ok);
      case EvRead(fin) => ReadEffect(l.sock, fin);
      case _ =>
    }
  }

  /** What a message does to a socket's flags. */
  lemma MessageFlags(s: Sock, m: CmMeta, ok: bool)
    requires HandleMessage(s, m, ok).Next?
    ensures var s', answered := HandleMessage(s, m, ok).sock, !s.connected && (!s.isServer || (m.peerQpn == 0 && !s.active));
            && s'.isServer == s.isServer && s'.connecting == s.connecting && s'.reading == s.reading
            && (s'.error <==> s.error || s.connected || (answered && !ok))
            && (s'.connected <==> s.connected || !s.isServer || m.peerQpn != 0 || (!s.active && !ok))
  {
  }
}
