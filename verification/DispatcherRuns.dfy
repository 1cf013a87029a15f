/** Runs of the dispatcher that end where the code does not guard itself. */
module DispatcherRuns {
  import opened Common
  import opened QpRegistry
  import opened RxMemory
  import opened Dispatcher

  const OneQp := Registry(map[1 := Entry(0, Some(0))], 1, [], [], map[0 := QpInfo(1, false)], [])
  const OneDying := Registry(map[1 := Entry(0, None)], 1, [], [], map[0 := QpInfo(1, true)], [])

  const OneChunk := Release(NoMemory, 0)

  ghost function OneMemory(): Memory { CreateMemory(OneChunk, 0, 0, [0]) }

  lemma OneMemorySocks()
    ensures OneMemory().socks == map[0 := Lists([], [], [])] && OneMemory().rxcq == []
  {
    var m := OneChunk.(rq := map[0 := []], socks := map[0 := Lists([], [], [])]);
    assert OneChunk.(rq := map[][0 := []], socks := map[][0 := Lists([], [], [])]) == m;
    assert [0][1..] == [];
    assert PostAll(Post(m, 0, Some(0)), 0, []) == Post(m, 0, Some(0));
  }

  lemma Onward(t: seq<State>, e: Event) returns (t': seq<State>)
    requires Run(t) && Enabled(t[|t| - 1], e) && Step(t[|t| - 1], e).Some?
    ensures Run(t') && t'[|t'| - 1] == Step(t[|t| - 1], e).value
  {
    var s' := Step(t[|t| - 1], e).value;
    assert Follows(t[|t| - 1], s');
    t' := t + [s'];
    forall i | 0 < i < |t'|
      ensures Follows(t'[i - 1], t'[i])
    {
      if i < |t| { assert Follows(t[i - 1], t[i]); }
    }
  }

  // ---------- Single steps ----------

  ghost function WithOne(s: State): State {
    s.(reg := OneQp, mem := OneMemory(), open := map[0 := 1], registered := s.registered + 1)
  }

  ghost predicate NoneYet(s: State) {
    s.reg == NoQps && s.mem == OneChunk && s.open == map[] && s.closing == {} && s.gone == {} && s.posted == {} && !s.done
  }

  lemma Created(s: State)
    requires NoneYet(s)
    ensures Enabled(s, Create(0, 0, 1, 1, [0])) && Step(s, Create(0, 0, 1, 1, [0])) == Some(WithOne(s))
  {
    assert multiset([0]) == multiset{0};
    assert Register(NoQps, 0, 1, 0) == Some(OneQp);
    var open: map<SockId, nat> := map[];
    assert open[0 := 1] == map[0 := 1];
  }

  ghost function Closing(s: State): State {
    s.(reg := OneDying, open := map[], closing := {0}, posted := {0})
  }

  ghost predicate OneOpen(s: State) {
    s.reg == OneQp && s.mem == OneMemory() && s.open == map[0 := 1] && s.closing == {} && s.posted == {} && s.gone == {}
  }

  lemma Closed(s: State)
    requires OneOpen(s)
    ensures Enabled(s, CloseStart(0, true)) && Step(s, CloseStart(0, true)) == Some(Closing(s))
  {
    OneMemorySocks();
    assert ScheduleDestroy(OneQp, 1, true) == OneDying;
    assert NewlyDying(OneQp, OneDying) == {0};
    var open: map<SockId, nat> := map[0 := 1];
    assert open - {0} == map[];
    var s1 := Step(s, CloseStart(0, true)).value;
    assert s1.closing == {0} && s1.posted == {0};
  }

  lemma Destroyed(s: State)
    requires s.mem == OneMemory() && s.closing == {0} && s.gone == {}
    ensures Enabled(s, CloseEnd(0))
    ensures Step(s, CloseEnd(0)) == Some(s.(mem := OneMemory().(socks := map[]), closing := {}, gone := {0}))
  {
    OneMemorySocks();
    var socks: map<SockId, Lists> := map[0 := Lists([], [], [])];
    assert socks - {0} == map[];
    var s1 := Step(s, CloseEnd(0)).value;
    assert s1.closing == {} && s1.gone == {0} && s1.mem.socks == map[];
  }

  lemma Sends(s: State)
    requires OneOpen(s) && s.sends == multiset{} && s.txcq == []
    ensures Enabled(s, PostSend(0)) && Step(s, PostSend(0)) == Some(s.(sends := multiset{0}))
    ensures Enabled(s.(sends := multiset{0}), SendDone(0))
    ensures Step(s.(sends := multiset{0}), SendDone(0)) == Some(s.(txcq := [Sent(0, 1)]))
  {
    var none: multiset<QpId> := multiset{};
    assert none + multiset{0} == multiset{0};
    assert multiset{0} - multiset{0} == none;
    var s1 := Step(s.(sends := multiset{0}), SendDone(0)).value;
    assert s1.txcq == [Sent(0, 1)] && s1.sends == none;
  }

  lemma Looks(s: State)
    requires s.pc == PollingTx && s.txcq == [Sent(0, 1)]
    ensures Enabled(s, PollTx(1)) && Step(s, PollTx(1)) == Some(s.(txcq := [], txRet := 1, pc := HandlingTx([Sent(0, 1)])))
    ensures var s1 := s.(txcq := [], txRet := 1, pc := HandlingTx([Sent(0, 1)]));
            Enabled(s1, HandleTx) && Step(s1, HandleTx) == Some(s1.(pc := Calling(GetConn(s.reg, 1), [])))
  {
    assert [Sent(0, 1)][1..] == [] && [Sent(0, 1)][..1] == [Sent(0, 1)];
  }

  // ---------- The runs ----------

  lemma FirstChunk() returns (t: seq<State>)
    ensures Run(t) && t[|t| - 1] == Fresh.(mem := OneChunk)
  {
    assert Enabled(Fresh, GrowPool(0));
    t := Onward([Fresh], GrowPool(0));
  }

  /** A pool with one chunk cannot fill a receive queue of two. */
  lemma PoolShortCrashes() returns (t: seq<State>)
    ensures Run(t)
    ensures var s, e := t[|t| - 1], Create(0, 0, 1, 2, [0]); Enabled(s, e) && Crashes(s, e)
  {
    t := FirstChunk();
    assert multiset([0]) == multiset{0};
  }

  /** One socket with a completed send that nobody has polled. */
  ghost function OneSent(): State { WithOne(Fresh.(mem := OneChunk)).(txcq := [Sent(0, 1)]) }

  lemma RunToSent() returns (t: seq<State>)
    ensures Run(t) && t[|t| - 1] == OneSent()
  {
    var s := Fresh.(mem := OneChunk);
    t := FirstChunk();
    Created(s);
    t := Onward(t, Create(0, 0, 1, 1, [0]));
    Sends(WithOne(s));
    t := Onward(t, PostSend(0));
    t := Onward(t, SendDone(0));
  }

  /** A run in which a send completion is handled after its socket has begun to close: the lookup finds
      nothing, and the result is called. */
  lemma LateSendCrashes() returns (t: seq<State>)
    ensures Run(t) && t[|t| - 1].pc == Calling(None, []) && Crashes(t[|t| - 1], CallTx)
  {
    t := RunToSent();
    Closed(OneSent());
    t := Onward(t, CloseStart(0, true));
    Looks(Closing(OneSent()));
    t := Onward(t, PollTx(1));
    t := Onward(t, HandleTx);
  }

  /** A run in which the lookup finds the socket, and its destructor runs before the call. */
  lemma DestroyedInCallCrashes() returns (t: seq<State>)
    ensures Run(t) && t[|t| - 1].pc == Calling(Some(0), []) && Crashes(t[|t| - 1], CallTx)
  {
    t := RunToSent();
    Looks(OneSent());
    t := Onward(t, PollTx(1));
    t := Onward(t, HandleTx);
    var s := OneSent().(txcq := [], txRet := 1, pc := Calling(Some(0), []));
    assert t[|t| - 1] == s;
    Closed(s);
    t := Onward(t, CloseStart(0, true));
    Destroyed(Closing(s));
    t := Onward(t, CloseEnd(0));
  }

  lemma RunToCount() returns (t: seq<State>)
    ensures Run(t) && t[|t| - 1] == Fresh.(mem := OneChunk, pc := CountZero(0))
  {
    t := FirstChunk();
    var s := Fresh.(mem := OneChunk);
    assert s.txcq[0..] == [];
    t := Onward(t, PollTx(0));
    t := Onward(t, PollRx(0, []));
    t := Onward(t, SwapBatch);
    t := Onward(t, ReadCount);
  }

  /** A run in which a socket is created and destroyed and the stop issued between the first two reads of
      the exit test: the polling thread ends and leaves a queue pair behind. */
  lemma EarlyExit() returns (t: seq<State>)
    ensures Run(t) && t[|t| - 1].pc.Exited? && !NothingLeft(t[|t| - 1].reg)
  {
    t := RunToCount();
    var s := Fresh.(mem := OneChunk, pc := CountZero(0));
    Created(s);
    t := Onward(t, Create(0, 0, 1, 1, [0]));
    Closed(WithOne(s));
    t := Onward(t, CloseStart(0, true));
    Destroyed(Closing(WithOne(s)));
    t := Onward(t, CloseEnd(0));
    t := Onward(t, Stop);
    t := Onward(t, ReadStop);
    t := Onward(t, ReadDead);
  }
}
