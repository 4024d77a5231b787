/** When shutdown is always clean, exactly: a queue that looks at `done` before it
    waits is needed as much as a router that outlives the first TERMINATE. */
module Stranding {
  import opened Wire
  import opened FlatMemory
  import opened Monitor
  import opened System
  import opened Refinement
  import opened Closing
  import opened Progress
  import opened Termination
  import opened Shutdown
  import opened CleanShutdown

  // ------------------------------------------------------------------- runs

  lemma OwnIsPolite(cfg: Config, s: Session, a: Act)
    requires cfg.Valid() && Enabled(cfg, s, a) && a.Progress()
    ensures Polite(cfg, s, a) && Apply(cfg, s, a).asked == s.asked && Apply(cfg, s, a).log.issued == s.log.issued
  {
  }

  lemma {:induction false} OwnRunIsPolite(cfg: Config, s: Session, acts: seq<Act>, s': Session)
    requires cfg.Valid() && OwnSteps(acts) && Run(cfg, s, acts, s')
    ensures PoliteRun(cfg, s, acts, s') && s'.asked == s.asked && s'.log.issued == s.log.issued
    decreases |acts|
  {
    if acts != [] {
      assert acts[0].Progress();
      assert forall i :: 0 <= i < |acts| - 1 ==> acts[1..][i] == acts[i + 1];
      OwnIsPolite(cfg, s, acts[0]);
      OwnRunIsPolite(cfg, Apply(cfg, s, acts[0]), acts[1..], s');
    }
  }

  lemma {:induction false} PoliteConcat(cfg: Config, s0: Session, acts: seq<Act>, s: Session, more: seq<Act>, s': Session)
    requires cfg.Valid() && PoliteRun(cfg, s0, acts, s) && PoliteRun(cfg, s, more, s')
    ensures PoliteRun(cfg, s0, acts + more, s')
    decreases |acts|
  {
    if acts == [] {
      assert acts + more == more;
    } else {
      PoliteConcat(cfg, Apply(cfg, s0, acts[0]), acts[1..], s, more, s');
      assert (acts + more)[1..] == acts[1..] + more;
    }
  }

  /** The first client's writer does not wait, and DONE has not been sent. */
  predicate Awake(s: Session) {
    && s.conns != [] && (s.conns[0].bridge.q.consumer.Testing? || s.conns[0].bridge.q.consumer.Away?)
    && (Routing(s) || s.route == Finishing(0) || s.route.Crashed?)
  }

  /** All masters ask to terminate. */
  lemma {:induction false} AskAll(cfg: Config, s: Session, rest: set<nat>) returns (acts: seq<Act>, s': Session)
    requires cfg.Valid() && Awake(s) && |s.conns| == cfg.clients
    requires rest <= Masters(cfg) && (forall m :: m in rest ==> m !in s.asked)
    requires forall m :: m in s.log.issued ==> s.log.issued[m] == []
    ensures PoliteRun(cfg, s, acts, s') && Awake(s') && s'.asked == s.asked + rest && s'.log == s.log
    decreases |rest|
  {
    acts, s' := [], s;
    if rest != {} {
      var m :| m in rest;
      AskOne(cfg, s, m);
      var more, end := AskAll(cfg, Apply(cfg, s, DoTerminate(m)), rest - {m});
      acts, s' := [DoTerminate(m)] + more, end;
      assert acts[1..] == more;
    }
  }

  lemma AskOne(cfg: Config, s: Session, m: nat)
    requires cfg.Valid() && Awake(s) && |s.conns| == cfg.clients && m in Masters(cfg) && m !in s.asked
    requires m in s.log.issued ==> s.log.issued[m] == []
    ensures Enabled(cfg, s, DoTerminate(m)) && Polite(cfg, s, DoTerminate(m))
    ensures var s' := Apply(cfg, s, DoTerminate(m));
            Awake(s') && |s'.conns| == cfg.clients && s'.asked == s.asked + {m} && s'.log == s.log
  {
    assert cfg.IpValid(m);
  }

  lemma StaysAwake(cfg: Config, s: Session, a: Act)
    requires cfg.Valid() && Awake(s) && Enabled(cfg, s, a) && Moves(s, a)
    ensures Awake(Apply(cfg, s, a))
  {
  }

  /** The system runs without anybody looking into an empty queue and without
      DONE, until only that is left. */
  lemma {:induction false} RunsUpToDone(cfg: Config, s: Session) returns (acts: seq<Act>, s': Session)
    requires cfg.Valid() && cfg.Routable() && Good(cfg, s) && Awake(s)
    ensures OwnSteps(acts) && Run(cfg, s, acts, s') && Awake(s')
    ensures forall a: Act :: Moves(s', a) ==> !Enabled(cfg, s', a)
    decreases Measure(s)
  {
    if forall a: Act :: Moves(s, a) ==> !Enabled(cfg, s, a) {
      acts, s' := [], s;
    } else {
      var a := MovingStep(cfg, s);
      var rest, end := RunsUpToDone(cfg, Apply(cfg, s, a));
      Prepend(cfg, s, a, rest, end);
      acts, s' := [a] + rest, end;
    }
  }

  lemma MovingStep(cfg: Config, s: Session) returns (a: Act)
    requires cfg.Valid() && cfg.Routable() && Good(cfg, s) && Awake(s)
    requires exists a: Act :: Moves(s, a) && Enabled(cfg, s, a)
    ensures a.Progress() && Enabled(cfg, s, a) && Awake(Apply(cfg, s, a))
    ensures Good(cfg, Apply(cfg, s, a)) && Measure(Apply(cfg, s, a)) < Measure(s)
  {
    a :| Moves(s, a) && Enabled(cfg, s, a);
    ApplyLowers(cfg, s, a);
    ApplyGood(cfg, s, a);
    StaysAwake(cfg, s, a);
  }

  /** There, route() is about to send DONE. */
  lemma OnlyDoneIsLeft(cfg: Config, s: Session)
    requires cfg.Valid() && Good(cfg, s) && Counted(cfg, s) && Awake(s) && !s.route.Crashed?
    requires s.asked == Masters(cfg) != {}
    requires forall a: Act :: Moves(s, a) ==> !Enabled(cfg, s, a)
    ensures s.route == Finishing(0) && s.retired == Masters(cfg)
  {
    if Routing(s) {
      if s.route.Giving? || exists c :: 0 <= c < |s.conns| && !Idle(s.conns[c]) {
        DeadlockFree(cfg, s);
        assert false;
      }
      forall m: nat | m in s.asked ensures m in s.retired {
        forall c | 0 <= c < |s.conns| ensures ConnTerms(m, s.conns[c]) == 0 {
          assert Idle(s.conns[c]);
        }
        NoTerms(m, s.conns);
      }
    }
  }

  /** The first client's connection at that point. */
  predicate AboutToEnd(k: Conn) {
    && k.bridge.q == Monitor([], false, Testing, 0) && k.bridge.writer == []
    && k.bridge.reader.Receiving? && k.tx == [] && k.txOpen && k.down == []
  }

  lemma FirstIsAboutToEnd(cfg: Config, s: Session)
    requires cfg.Valid() && Good(cfg, s) && Counted(cfg, s) && Awake(s)
    requires s.route == Finishing(0) && s.retired == Masters(cfg)
    requires !Enabled(cfg, s, DoHop(0, Notify))
    ensures AboutToEnd(s.conns[0])
  {
    GoodConn(cfg, s, 0);
    DrainedAtDone(cfg, s, 0);
    DrainedIsAboutToEnd(s.conns[0]);
  }

  lemma DrainedIsAboutToEnd(k: Conn)
    requires ConnShaped(k) && ConnClosing(Finishing(0), 0, k) && Drained(k)
    requires (k.bridge.q.consumer.Testing? || k.bridge.q.consumer.Away?) && k.bridge.q.notifies == 0
    ensures AboutToEnd(k)
  {
  }

  /** DONE comes, the reader finishes the queue, and the notification is gone
      before the writer looks again. */
  lemma EndIsMissed(k: Conn, capacity: nat)
    requires AboutToEnd(k) && capacity > 0
    ensures var k1 := k.(tx := [DONE]);
            && k1.CanHop(capacity, Write)
            && var k2 := k1.AfterHop(capacity, AsWritten, Write);
            && k2.CanHop(capacity, Receive)
            && var k3 := k2.AfterHop(capacity, AsWritten, Receive);
            && k3.CanHop(capacity, Notify)
            && var k4 := k3.AfterHop(capacity, AsWritten, Notify);
            && k4.bridge.q.consumer.Testing?
            && Stranded(AsWritten, k4.(bridge := k4.bridge.Popped(AsWritten)))
  {
  }

  lemma FirstIsStranded(cfg: Config, s0: Session, acts: seq<Act>, s: Session)
      returns (acts': seq<Act>, s': Session)
    requires cfg.Valid() && cfg.pop.AsWritten? && PoliteRun(cfg, s0, acts, s)
    requires s.route == Finishing(0) && s.conns != [] && AboutToEnd(s.conns[0])
    ensures PoliteRun(cfg, s0, acts', s') && s'.asked == s.asked && s'.conns != [] && Stranded(cfg.pop, s'.conns[0])
  {
    EndIsMissed(s.conns[0], cfg.capacity);
    PoliteOnward(cfg, s0, acts, s, DoSendDone);
    acts', s' := DoneComes(cfg, s0, acts + [DoSendDone], Apply(cfg, s, DoSendDone));
  }

  lemma DoneComes(cfg: Config, s0: Session, acts: seq<Act>, s: Session)
      returns (acts': seq<Act>, s': Session)
    requires cfg.Valid() && PoliteRun(cfg, s0, acts, s) && s.conns != [] && cfg.pop.AsWritten?
    requires var k1 := s.conns[0];
             && k1.CanHop(cfg.capacity, Write)
             && var k2 := k1.AfterHop(cfg.capacity, AsWritten, Write);
             && k2.CanHop(cfg.capacity, Receive)
             && var k3 := k2.AfterHop(cfg.capacity, AsWritten, Receive);
             && k3.CanHop(cfg.capacity, Notify)
             && var k4 := k3.AfterHop(cfg.capacity, AsWritten, Notify);
             && k4.bridge.q.consumer.Testing?
             && Stranded(AsWritten, k4.(bridge := k4.bridge.Popped(AsWritten)))
    ensures PoliteRun(cfg, s0, acts', s') && s'.asked == s.asked && s'.conns != [] && Stranded(cfg.pop, s'.conns[0])
  {
    acts', s' := acts, s;
    PoliteOnward(cfg, s0, acts', s', DoHop(0, Write));
    acts', s' := acts' + [DoHop(0, Write)], Apply(cfg, s', DoHop(0, Write));
    PoliteOnward(cfg, s0, acts', s', DoHop(0, Receive));
    acts', s' := acts' + [DoHop(0, Receive)], Apply(cfg, s', DoHop(0, Receive));
    PoliteOnward(cfg, s0, acts', s', DoHop(0, Notify));
    acts', s' := acts' + [DoHop(0, Notify)], Apply(cfg, s', DoHop(0, Notify));
    PoliteOnward(cfg, s0, acts', s', DoPop(0));
    acts', s' := acts' + [DoPop(0)], Apply(cfg, s', DoPop(0));
  }

  /** A stranded writer stays where it is, whatever the system does by itself. */
  lemma StaysStranded(cfg: Config, s: Session, a: Act)
    requires cfg.Valid() && Enabled(cfg, s, a) && a.Progress()
    requires s.conns != [] && Stranded(cfg.pop, s.conns[0]) && s.conns[0].bridge.reader.Stopped?
    ensures Apply(cfg, s, a).conns != [] && Stranded(cfg.pop, Apply(cfg, s, a).conns[0])
  {
  }

  lemma StrandedReader(cfg: Config, s: Session)
    requires cfg.Valid() && Good(cfg, s) && s.conns != [] && Stranded(cfg.pop, s.conns[0])
    ensures s.conns[0].bridge.reader.Stopped? && s.conns[0].rxOpen
  {
    GoodConn(cfg, s, 0);
  }

  lemma {:induction false} StaysStrandedAlong(cfg: Config, s: Session, acts: seq<Act>, s': Session)
    requires cfg.Valid() && cfg.Routable() && Good(cfg, s) && OwnSteps(acts) && Run(cfg, s, acts, s')
    requires s.conns != [] && Stranded(cfg.pop, s.conns[0])
    ensures s'.conns != [] && Stranded(cfg.pop, s'.conns[0])
    decreases |acts|
  {
    if acts != [] {
      assert acts[0].Progress();
      assert forall i :: 0 <= i < |acts| - 1 ==> acts[1..][i] == acts[i + 1];
      StrandedReader(cfg, s);
      StaysStranded(cfg, s, acts[0]);
      ApplyGood(cfg, s, acts[0]);
      StaysStrandedAlong(cfg, Apply(cfg, s, acts[0]), acts[1..], s');
    }
  }

  // ---------------------------------------------------------------- theorems

  /** All masters ask, and the system runs up to the first DONE. */
  lemma DoneIsReached(cfg: Config, s0: Session) returns (acts: seq<Act>, s: Session)
    requires cfg.Valid() && cfg.Routable() && InitSession(cfg, s0) && Masters(cfg) != {}
    requires cfg.terminate.Repaired? || |Masters(cfg)| == 1
    ensures PoliteRun(cfg, s0, acts, s) && s.asked == Masters(cfg) && s.log.issued == s0.log.issued
    ensures s.route == Finishing(0) && s.conns != [] && AboutToEnd(s.conns[0])
  {
    var acts1, s1 := AllAsk(cfg, s0);
    var more, s2 := RunsUpToDone(cfg, s1);
    OwnRunIsPolite(cfg, s1, more, s2);
    PoliteConcat(cfg, s0, acts1, s1, more, s2);
    PoliteRunKeeps(cfg, s1, more, s2);
    AtDone(cfg, s2);
    acts, s := acts1 + more, s2;
  }

  lemma AtDone(cfg: Config, s: Session)
    requires cfg.Valid() && Good(cfg, s) && Counted(cfg, s) && Awake(s) && s.asked == Masters(cfg) != {}
    requires cfg.terminate.Repaired? || |Masters(cfg)| == 1
    requires forall a: Act :: Moves(s, a) ==> !Enabled(cfg, s, a)
    ensures s.route == Finishing(0) && AboutToEnd(s.conns[0])
  {
    NotCrashed(cfg, s);
    OnlyDoneIsLeft(cfg, s);
    assert Moves(s, DoHop(0, Notify));
    FirstIsAboutToEnd(cfg, s);
  }

  lemma AllAsk(cfg: Config, s0: Session) returns (acts: seq<Act>, s: Session)
    requires cfg.Valid() && cfg.Routable() && InitSession(cfg, s0)
    ensures PoliteRun(cfg, s0, acts, s) && s.asked == Masters(cfg) && Awake(s) && Good(cfg, s) && Counted(cfg, s)
    ensures s.log == s0.log
  {
    assert InitConn(cfg, 0, s0.conns[0]);
    acts, s := AskAll(cfg, s0, Masters(cfg));
    InitGood(cfg, s0);
    InitCounted(cfg, s0);
    PoliteRunKeeps(cfg, s0, acts, s);
  }

  lemma NotCrashed(cfg: Config, s: Session)
    requires cfg.Valid() && Counted(cfg, s) && (cfg.terminate.Repaired? || |Masters(cfg)| == 1)
    ensures !s.route.Crashed?
  {
  }

  /** With the queue as written, a polite session can come to rest with a writer
      that waits for ever. */
  lemma WriterCanBeStranded(cfg: Config, s0: Session) returns (acts: seq<Act>, s: Session)
    requires cfg.Valid() && cfg.Routable() && InitSession(cfg, s0) && Masters(cfg) != {}
    requires cfg.pop.AsWritten? && (cfg.terminate.Repaired? || |Masters(cfg)| == 1)
    ensures PoliteRun(cfg, s0, acts, s) && s.asked == Masters(cfg) && Stuck(cfg, s)
    ensures s.conns != [] && Stranded(cfg.pop, s.conns[0]) && s.wg > 0
  {
    var acts1, s1 := DoneIsReached(cfg, s0);
    var acts2, s2 := FirstIsStranded(cfg, s0, acts1, s1);
    InitGood(cfg, s0);
    InitCounted(cfg, s0);
    PoliteRunKeeps(cfg, s0, acts2, s2);
    var more, s3 := ComesToRest(cfg, s2);
    OwnRunIsPolite(cfg, s2, more, s3);
    PoliteConcat(cfg, s0, acts2, s2, more, s3);
    StaysStrandedAlong(cfg, s2, more, s3);
    RunGood(cfg, s2, more, s3);
    StrandedReader(cfg, s3);
    WaitGroupIsExact(s3);
    acts, s := acts2 + more, s3;
  }

  /** In every polite run: route() survives; and when all masters have terminated
      and nothing can step, everything has returned. */
  ghost predicate AlwaysClean(cfg: Config, s0: Session)
    requires cfg.Valid()
  {
    forall acts: seq<Act>, s: Session :: PoliteRun(cfg, s0, acts, s) ==>
      && !s.route.Crashed?
      && (s.asked == Masters(cfg) && Stuck(cfg, s) ==>
            s.wg == 0 && s.route.Exited? && forall c :: 0 <= c < |s.conns| ==> Over(s.conns[c]))
  }

  lemma {:induction false} NobodyEndsIt(cfg: Config, s: Session, acts: seq<Act>, s': Session)
    requires cfg.Valid() && cfg.Routable() && Masters(cfg) == {} && Good(cfg, s) && Counted(cfg, s) && Routing(s)
    requires PoliteRun(cfg, s, acts, s')
    ensures Routing(s') && Good(cfg, s') && s'.asked == {}
    decreases |acts|
  {
    if acts != [] {
      RoutesOn(cfg, s, acts[0]);
      ApplyGood(cfg, s, acts[0]);
      ApplyCounted(cfg, s, acts[0]);
      NobodyEndsIt(cfg, Apply(cfg, s, acts[0]), acts[1..], s');
    }
  }

  lemma RoutesOn(cfg: Config, s: Session, a: Act)
    requires cfg.Valid() && Masters(cfg) == {} && Safe(cfg, s) && Counted(cfg, s) && Routing(s) && Enabled(cfg, s, a)
    ensures Routing(Apply(cfg, s, a))
  {
    if a.DoTake? {
      HeadIsWell(cfg, s, a.c);
      TakeTransaction(cfg, s, a.c);
    } else {
      OtherStep(cfg, s, a);
    }
  }

  /** Without a master nobody sends the TERMINATE that route() waits for: in every
      polite run it goes on, and the wait group stays above zero. */
  lemma NoMasterNoEnd(cfg: Config, s0: Session, acts: seq<Act>, s: Session)
    requires cfg.Valid() && cfg.Routable() && InitSession(cfg, s0) && Masters(cfg) == {} && PoliteRun(cfg, s0, acts, s)
    ensures Routing(s) && s.wg > 0 && s.asked == Masters(cfg)
  {
    InitGood(cfg, s0);
    InitCounted(cfg, s0);
    NobodyEndsIt(cfg, s0, acts, s);
    WaitGroupIsExact(s);
  }

  lemma NoMasterIsNotClean(cfg: Config, s0: Session)
    requires cfg.Valid() && cfg.Routable() && InitSession(cfg, s0) && Masters(cfg) == {}
    ensures !AlwaysClean(cfg, s0)
  {
    InitGood(cfg, s0);
    var acts, s := ComesToRest(cfg, s0);
    OwnRunIsPolite(cfg, s0, acts, s);
    NoMasterNoEnd(cfg, s0, acts, s);
  }

  /** Shutdown is always clean exactly when there is a master to wait for, the queue
      is repaired, and the router is or has only one master. */
  lemma CleanExactlyWhenRepaired(cfg: Config, s0: Session)
    requires cfg.Valid() && cfg.Routable() && InitSession(cfg, s0)
    ensures AlwaysClean(cfg, s0)
      <==> Masters(cfg) != {} && cfg.pop.Repaired? && (cfg.terminate.Repaired? || |Masters(cfg)| == 1)
  {
    CrashExactlyWithSeveralMasters(cfg, s0);
    if Masters(cfg) == {} {
      NoMasterIsNotClean(cfg, s0);
    } else if cfg.terminate.AsWritten? && |Masters(cfg)| != 1 {
      var acts, s := SeveralMastersCanCrash(cfg, s0);
      assert !AlwaysClean(cfg, s0);
    } else if cfg.pop.AsWritten? {
      var acts, s := WriterCanBeStranded(cfg, s0);
      assert !Over(s.conns[0]);
      assert !AlwaysClean(cfg, s0);
    } else {
      forall acts: seq<Act>, s: Session | PoliteRun(cfg, s0, acts, s)
        ensures !s.route.Crashed?
        ensures s.asked == Masters(cfg) && Stuck(cfg, s) ==>
                  s.wg == 0 && s.route.Exited? && forall c :: 0 <= c < |s.conns| ==> Over(s.conns[c])
      {
        if s.asked == Masters(cfg) && Stuck(cfg, s) {
          ShutdownIsClean(cfg, s0, acts, s);
        }
      }
    }
  }
}
