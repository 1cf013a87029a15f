/** The three-message exchange between one connecting and one accepting socket,
    as a transition system over every interleaving of their callbacks. */
module DirectHandshake {
  import opened Sockets
  import opened Links

  datatype System = System(client: Sock, server: Sock, toServer: Chan, toClient: Chan)

  datatype Action = AtClient(e: Event) | AtServer(e: Event)

  function ClientLink(s: System): Link { Link(s.client, s.toServer, s.toClient) }

  function ServerLink(s: System): Link { Link(s.server, s.toClient, s.toServer) }

  function Start(c: CmMeta, v: CmMeta): System {
    System(NewClient(c), NewServer(v), NoTraffic, NoTraffic)
  }

  ghost predicate CanAct(s: System, a: Action) {
    match a
    case AtClient(e) => Enabled(ClientLink(s), e)
    case AtServer(e) => Enabled(ServerLink(s), e)
  }

  /** No assertion in the callback fails. */
  ghost predicate Survives(s: System, a: Action)
    requires CanAct(s, a)
  {
    match a
    case AtClient(e) => React(ClientLink(s), e).Next?
    case AtServer(e) => React(ServerLink(s), e).Next?
  }

  ghost function Act(s: System, a: Action): System
    requires CanAct(s, a) && Survives(s, a)
  {
    match a
    case AtClient(e) => var l := After(ClientLink(s), e); System(l.sock, s.server, l.up, l.down)
    case AtServer(e) => var l := After(ServerLink(s), e); System(s.client, l.sock, l.down, l.up)
  }

  /** Callback `a` leads from `s` to `s'`. */
  ghost predicate By(s: System, a: Action, s': System) { CanAct(s, a) && Survives(s, a) && Act(s, a) == s' }

  /** A run: the states visited, each reached from the one before by some callback. */
  ghost predicate Run(t: seq<System>, c: CmMeta, v: CmMeta) {
    && |t| > 0
    && t[0] == Start(c, v)
    && forall i :: 0 < i < |t| ==> Follows(t[i - 1], t[i])
  }

  ghost predicate Follows(s: System, s': System) {
    exists a :: By(s, a, s')
  }

  ghost predicate Inv(s: System, c: CmMeta, v: CmMeta) {
    && ClientInv(ClientLink(s), c)
    && ServerInv(ServerLink(s), v)
  }

  /** What the exchange promises in one state. */
  ghost predicate Agreed(s: System, c: CmMeta, v: CmMeta) {
    // A connected client's peer is ready, and each names the other.
    && (s.client.connected && !s.client.error ==>
          && s.client.active && s.client.peerQpn == v.localQpn
          && s.server.qp == QpRts && s.server.peerQpn == c.localQpn && (s.server.active || s.server.error))
    // A connected server, by acknowledgement or by an early read, is ready and names the client.
    && (s.server.connected && !s.server.error ==>
          s.server.active && s.server.qp == QpRts && s.server.peerQpn == c.localQpn)
    // One reply at most.
    && |s.toClient.log| <= 1
  }

  /** The client's acknowledgement is never mistaken for a first message,
      because the server's real number is not 0. */
  lemma CallerIsGood(s: System, c: CmMeta, v: CmMeta)
    requires Inv(s, c, v) && v.localQpn != 0
    ensures GoodCaller(s.toServer)
  {
    if |s.toServer.log| == 2 {
      assert s.toClient.log[0].localQpn == v.localQpn;
    }
  }

  lemma InvStep(s: System, c: CmMeta, v: CmMeta, a: Action)
    requires Inv(s, c, v) && v.localQpn != 0 && CanAct(s, a)
    ensures Survives(s, a) && Inv(Act(s, a), c, v)
  {
    CallerIsGood(s, c, v);
    match a
    case AtClient(e) =>
      ClientStep(ClientLink(s), c, e);
      PeerWrites(ServerLink(s), v, React(ClientLink(s), e).out);
    case AtServer(e) =>
      ServerStep(ServerLink(s), v, e);
      PeerWrites(ClientLink(s), c, React(ServerLink(s), e).out);
  }

  lemma InvAgreed(s: System, c: CmMeta, v: CmMeta)
    requires Inv(s, c, v)
    ensures Agreed(s, c, v)
  {
    if s.client.qp == QpRts {
      assert |s.toClient.log| >= 1;
      assert |s.toServer.log| >= 1;
      assert s.toServer.log[0].localQpn == c.localQpn;
    }
  }

  lemma {:induction false} RunInv(t: seq<System>, c: CmMeta, v: CmMeta, n: nat)
    requires v.localQpn != 0 && Run(t, c, v) && n < |t|
    ensures Inv(t[n], c, v)
  {
    if n > 0 {
      RunInv(t, c, v, n - 1);
      assert Follows(t[n - 1], t[n]);
      var a :| By(t[n - 1], a, t[n]);
      InvStep(t[n - 1], c, v, a);
    }
  }

  /** Main result: in every state of every run the two ends agree,
      and no callback that could run next fails an assertion. */
  lemma HandshakeAgreement(t: seq<System>, c: CmMeta, v: CmMeta)
    requires v.localQpn != 0 && Run(t, c, v)
    ensures forall i :: 0 <= i < |t| ==> Agreed(t[i], c, v)
    ensures forall i, a :: 0 <= i < |t| && CanAct(t[i], a) ==> Survives(t[i], a)
  {
    forall i | 0 <= i < |t|
      ensures Agreed(t[i], c, v)
    {
      RunInv(t, c, v, i);
      InvAgreed(t[i], c, v);
    }
    forall i, a | 0 <= i < |t| && CanAct(t[i], a)
      ensures Survives(t[i], a)
    {
      RunInv(t, c, v, i);
      InvStep(t[i], c, v, a);
    }
  }

  /** The undisturbed exchange up to the acknowledgement in transit. */
  lemma UpToAck(c: CmMeta, v: CmMeta) returns (t: seq<System>)
    ensures Run(t, c, v)
    ensures var s := t[|t| - 1];
            && s.client.connected && s.client.active && !s.client.error && s.client.peerQpn == v.localQpn
            && s.server.reading && !s.server.connected && s.server.qp == QpRts && s.server.active && !s.server.error
            && s.server.isServer && s.toServer.got == 1 && |s.toServer.log| == 2 && s.toServer.log[1].peerQpn == v.localQpn
  {
    var s0 := Start(c, v);
    var s1 := Act(s0, AtClient(EvEstablished(true, true)));
    var s2 := Act(s1, AtServer(EvReceive(true)));
    var s3 := Act(s2, AtClient(EvReceive(true)));
    t := [s0, s1, s2, s3];
    assert By(s0, AtClient(EvEstablished(true, true)), s1) && By(s1, AtServer(EvReceive(true)), s2) && By(s2, AtClient(EvReceive(true)), s3);
  }

  ghost predicate NeverFails(c: CmMeta, v: CmMeta) {
    forall t, i, a :: Run(t, c, v) && 0 <= i < |t| && CanAct(t[i], a) ==> Survives(t[i], a)
  }

  lemma Onward(t: seq<System>, c: CmMeta, v: CmMeta, a: Action)
    requires Run(t, c, v) && CanAct(t[|t| - 1], a) && Survives(t[|t| - 1], a)
    ensures Run(t + [Act(t[|t| - 1], a)], c, v)
  {
    var t' := t + [Act(t[|t| - 1], a)];
    forall i | 0 < i < |t'|
      ensures Follows(t'[i - 1], t'[i])
    {
      if i < |t| {
        assert Follows(t[i - 1], t[i]);
      } else {
        assert By(t'[i - 1], a, t'[i]);
      }
    }
  }

  /** No assertion ever fails exactly if the server's number is not 0: an acknowledgement that
      carries 0 is taken for a first message, and a server closed meanwhile activates again. */
  lemma NumberMustBeReal(c: CmMeta, v: CmMeta)
    ensures NeverFails(c, v) <==> v.localQpn != 0
  {
    if v.localQpn != 0 {
      forall t, i, a | Run(t, c, v) && 0 <= i < |t| && CanAct(t[i], a)
        ensures Survives(t[i], a)
      {
        RunInv(t, c, v, i);
        InvStep(t[i], c, v, a);
      }
    } else {
      var t3 := UpToAck(c, v);
      Onward(t3, c, v, AtServer(EvClose));
      var s4 := Act(t3[|t3| - 1], AtServer(EvClose));
      var t := t3 + [s4];
      var a := AtServer(EvReceive(true));
      assert CanAct(s4, a) && !Survives(s4, a);
      assert t[|t| - 1] == s4;
    }
  }

  /** And then the exchange can be completed: both ends connected, each naming the other. */
  lemma HandshakeCompletes(c: CmMeta, v: CmMeta) returns (t: seq<System>)
    requires v.localQpn != 0
    ensures Run(t, c, v)
    ensures var s := t[|t| - 1]; s.client.connected && s.server.connected && !s.client.error && !s.server.error
  {
    var t3 := UpToAck(c, v);
    var s3, a := t3[|t3| - 1], AtServer(EvReceive(true));
    assert CanAct(s3, a) && Survives(s3, a);
    Onward(t3, c, v, a);
    t := t3 + [Act(s3, a)];
  }

  /** A server can also be connected by its first read: the acknowledgement is then never read. */
  lemma ConnectedByRead(c: CmMeta, v: CmMeta) returns (t: seq<System>)
    ensures Run(t, c, v)
    ensures var s := t[|t| - 1];
            && s.server.connected && s.server.active && !s.server.error && s.toServer.got == 1 && |s.toServer.log| == 2
            && forall ok :: !CanAct(s, AtServer(EvReceive(ok)))
  {
    var t3 := UpToAck(c, v);
    var s3, a := t3[|t3| - 1], AtServer(EvRead(false));
    assert CanAct(s3, a) && Survives(s3, a);
    Onward(t3, c, v, a);
    t := t3 + [Act(s3, a)];
  }

  // ---------- Runs with their callbacks ----------

  /** A run `t` by the callbacks `acts`. */
  ghost predicate RunBy(t: seq<System>, acts: seq<Action>, c: CmMeta, v: CmMeta) {
    && |t| == |acts| + 1 && t[0] == Start(c, v)
    && forall i :: 0 <= i < |acts| ==> By(t[i], acts[i], t[i + 1])
  }

  lemma Shorter(t: seq<System>, c: CmMeta, v: CmMeta)
    requires Run(t, c, v) && |t| > 1
    ensures Run(t[..|t| - 1], c, v)
  {
    var t' := t[..|t| - 1];
    forall i | 0 < i < |t'|
      ensures Follows(t'[i - 1], t'[i])
    {
      assert Follows(t[i - 1], t[i]);
    }
  }

  lemma RunByOneMore(t: seq<System>, acts: seq<Action>, c: CmMeta, v: CmMeta, a: Action)
    requires |t| > 1 && RunBy(t[..|t| - 1], acts, c, v) && By(t[|t| - 2], a, t[|t| - 1])
    ensures RunBy(t, acts + [a], c, v)
  {
    forall i | 0 <= i < |acts + [a]|
      ensures By(t[i], (acts + [a])[i], t[i + 1])
    {
      if i < |acts| { assert By(t[..|t| - 1][i], acts[i], t[..|t| - 1][i + 1]); }
    }
  }

  lemma {:induction false} ActsExist(t: seq<System>, c: CmMeta, v: CmMeta) returns (acts: seq<Action>)
    requires Run(t, c, v)
    ensures RunBy(t, acts, c, v)
  {
    if |t| == 1 {
      acts := [];
    } else {
      Shorter(t, c, v);
      var before := ActsExist(t[..|t| - 1], c, v);
      assert Follows(t[|t| - 2], t[|t| - 1]);
      var a :| By(t[|t| - 2], a, t[|t| - 1]);
      RunByOneMore(t, before, c, v, a);
      acts := before + [a];
    }
  }

  lemma RunByIsRun(t: seq<System>, acts: seq<Action>, c: CmMeta, v: CmMeta)
    requires RunBy(t, acts, c, v)
    ensures Run(t, c, v)
  {
    forall i | 0 < i < |t|
      ensures Follows(t[i - 1], t[i])
    {
      assert By(t[i - 1], acts[i - 1], t[i]);
    }
  }

  /** The server has been closed after its queue pair became ready. */
  ghost predicate ServerClosed(t: seq<System>, acts: seq<Action>, n: nat)
    requires n <= |acts| < |t|
  {
    exists i :: 0 <= i < n && acts[i] == AtServer(EvClose) && t[i].server.qp == QpRts
  }

  lemma ClosedStep(t: seq<System>, acts: seq<Action>, n: nat)
    requires 0 < n <= |acts| < |t|
    ensures ServerClosed(t, acts, n)
       <==> ServerClosed(t, acts, n - 1) || (acts[n - 1] == AtServer(EvClose) && t[n - 1].server.qp == QpRts)
  {
  }

  /** What one callback does to the server. */
  lemma ServerStepReady(s: System, a: Action, s': System)
    requires By(s, a, s')
    ensures a.AtClient? ==> s'.server == s.server
    ensures s.server.qp == QpRts ==> s'.server.qp == QpRts
    ensures a.AtServer? && s'.server.qp == QpRts ==>
              (s'.server.active <==> (s.server.qp == QpRts ==> s.server.active && a.e != EvClose))
  {
    if a.AtServer? {
      if s.server.qp == QpRts { StaysReady(ServerLink(s), a.e); }
      if s'.server.qp == QpRts { ActiveStep(ServerLink(s), a.e); }
    }
  }

  lemma {:induction false} ServerActiveIff(t: seq<System>, acts: seq<Action>, c: CmMeta, v: CmMeta, n: nat)
    requires RunBy(t, acts, c, v) && n < |t|
    ensures t[n].server.qp == QpRts ==> (t[n].server.active <==> !ServerClosed(t, acts, n))
    ensures t[n].server.qp != QpRts ==> !ServerClosed(t, acts, n)
  {
    if n > 0 {
      ServerActiveIff(t, acts, c, v, n - 1);
      assert By(t[n - 1], acts[n - 1], t[n]);
      ServerStepReady(t[n - 1], acts[n - 1], t[n]);
      ClosedStep(t, acts, n);
    }
  }

  /** The exact form of the agreement: when the client is connected without error, the server's
      queue pair is ready for it, and the server is active unless it has been closed since. */
  lemma AgreementExact(t: seq<System>, acts: seq<Action>, c: CmMeta, v: CmMeta, n: nat)
    requires v.localQpn != 0 && RunBy(t, acts, c, v) && n < |t| && t[n].client.connected && !t[n].client.error
    ensures t[n].client.active && t[n].client.peerQpn == v.localQpn
    ensures t[n].server.qp == QpRts && t[n].server.peerQpn == c.localQpn
    ensures t[n].server.active <==> !ServerClosed(t, acts, n)
  {
    RunByIsRun(t, acts, c, v);
    RunInv(t, c, v, n);
    InvAgreed(t[n], c, v);
    ServerActiveIff(t, acts, c, v, n);
  }

  /** The exact agreement after `n` callbacks. */
  ghost predicate ExactAt(t: seq<System>, acts: seq<Action>, c: CmMeta, v: CmMeta, n: nat)
    requires n <= |acts| < |t|
  {
    t[n].client.connected && !t[n].client.error ==>
      && t[n].client.active && t[n].client.peerQpn == v.localQpn
      && t[n].server.qp == QpRts && t[n].server.peerQpn == c.localQpn
      && (t[n].server.active <==> !ServerClosed(t, acts, n))
  }

  /** Every run has callbacks that explain it, and the agreement is exact for them all along. */
  lemma EveryRunExact(t: seq<System>, c: CmMeta, v: CmMeta) returns (acts: seq<Action>)
    requires v.localQpn != 0 && Run(t, c, v)
    ensures RunBy(t, acts, c, v) && forall n :: 0 <= n < |t| ==> ExactAt(t, acts, c, v, n)
  {
    acts := ActsExist(t, c, v);
    forall n | 0 <= n < |t|
      ensures ExactAt(t, acts, c, v, n)
    {
      if t[n].client.connected && !t[n].client.error { AgreementExact(t, acts, c, v, n); }
    }
  }
}
