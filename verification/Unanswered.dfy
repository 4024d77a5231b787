/** Promises that are still open when route() stops: which of them are set all the
    same, and that an operation that outlives its master's terminate can wait for
    ever. */
module Unanswered {
  import opened Wire
  import opened AddressMap
  import opened FlatMemory
  import opened BridgeThreads
  import opened Traffic
  import opened System
  import opened Refinement
  import opened Closing
  import opened Progress
  import opened Termination
  import opened Shutdown
  import opened CleanShutdown
  import opened Stranding
  import opened Guarantees
  import FlowPlacement
  import FlowConservation
  import FlowOrder
  import O = Ownership

  /** A response with this key is on its way down to the client. */
  ghost predicate Coming(l: Lane, key: Key) {
    exists j :: 0 <= j < |l.down| && !l.down[j].IsRequest() && l.down[j].RequestKey() == key
  }

  ghost predicate Saved(l: Lane, key: Key) { key in l.books.promises || Coming(l, key) }

  /** Serving what came down first takes a response to its promise. */
  lemma HandleSaves(l: Lane, key: Key)
    requires LaneCanHandle(l)
    ensures Saved(LaneHandle(l), key) <==> Saved(l, key)
  {
    var l' := LaneHandle(l);
    if Coming(l, key) {
      var j :| 0 <= j < |l.down| && !l.down[j].IsRequest() && l.down[j].RequestKey() == key;
      assert j > 0 ==> l'.down[j - 1] == l.down[j];
    }
    if Coming(l', key) {
      var j :| 0 <= j < |l'.down| && !l'.down[j].IsRequest() && l'.down[j].RequestKey() == key;
      assert l.down[j + 1] == l'.down[j];
    }
  }

  /** When route() has stopped, it stays so, and nothing new comes down. */
  lemma StoppedStays(cfg: Config, s: Session, a: Act)
    requires cfg.Valid() && Enabled(cfg, s, a) && !Routing(s)
    ensures !Routing(Apply(cfg, s, a)) && !a.DoTake? && !a.DoGive?
  {
  }

  /** The lanes after a step of the traffic machine that is not route()'s. */
  lemma FlowSaves(cfg: Config, f: Flow, a: Step, f': Flow, c: nat, key: Key)
    requires cfg.Valid() && NextBy(cfg, f, a, f') && !a.StepTake? && !a.StepGive? && c < |f.lanes|
    ensures |f'.lanes| == |f.lanes| && (Saved(f'.lanes[c], key) <==> Saved(f.lanes[c], key))
  {
    match a
    case StepIssue(t) =>
      assert f'.lanes[c].down == f.lanes[c].down && f'.lanes[c].books == f.lanes[c].books;
    case StepDispatch(b) =>
      assert f'.lanes[c].down == f.lanes[c].down && f'.lanes[c].books.promises == f.lanes[c].books.promises;
    case StepHandle(b) =>
      if b == c {
        HandleSaves(f.lanes[c], key);
      }
  }

  /** A step of the system, route() having stopped, is such a step or none. */
  lemma StoppedRefines(cfg: Config, s: Session, a: Act) returns (b: Step)
    requires cfg.Valid() && Safe(cfg, s) && Enabled(cfg, s, a) && !Routing(s)
    ensures !b.StepTake? && !b.StepGive?
    ensures FlowOf(Apply(cfg, s, a)) == FlowOf(s) || NextBy(cfg, FlowOf(s), b, FlowOf(Apply(cfg, s, a)))
  {
    b := StepHandle(0);
    StoppedStays(cfg, s, a);
    match a
    case DoIssue(t) =>
      IssueRefines(cfg, s, t);
      b := StepIssue(t);
    case DoPop(c) =>
      PopRefines(cfg, s, c);
      b := StepDispatch(c);
    case DoHandle(c) =>
      HandleRefines(cfg, s, c);
      b := StepHandle(c);
    case _ => HopIsNoStep(cfg, s, a);
  }

  lemma StepSaves(cfg: Config, s: Session, a: Act, c: nat, key: Key)
    requires cfg.Valid() && Safe(cfg, s) && Enabled(cfg, s, a) && !Routing(s) && c < |s.conns|
    ensures |Apply(cfg, s, a).conns| == |s.conns|
    ensures Saved(LaneOf(Apply(cfg, s, a).conns[c]), key) <==> Saved(LaneOf(s.conns[c]), key)
  {
    var b := StoppedRefines(cfg, s, a);
    var f, f' := FlowOf(s), FlowOf(Apply(cfg, s, a));
    if f' != f {
      FlowSaves(cfg, f, b, f', c, key);
    }
    assert f'.lanes[c] == LaneOf(Apply(cfg, s, a).conns[c]) && f.lanes[c] == LaneOf(s.conns[c]);
  }

  lemma {:induction false} RunSaves(cfg: Config, s: Session, acts: seq<Act>, s': Session, c: nat, key: Key)
    requires cfg.Valid() && cfg.Routable() && Good(cfg, s) && Run(cfg, s, acts, s') && !Routing(s) && c < |s.conns|
    ensures !Routing(s') && |s'.conns| == |s.conns|
    ensures Saved(LaneOf(s'.conns[c]), key) <==> Saved(LaneOf(s.conns[c]), key)
    decreases |acts|
  {
    if acts != [] {
      StoppedStays(cfg, s, acts[0]);
      StepSaves(cfg, s, acts[0], c, key);
      ApplyGood(cfg, s, acts[0]);
      RunSaves(cfg, Apply(cfg, s, acts[0]), acts[1..], s', c, key);
    }
  }

  /** At rest the way down is empty. */
  lemma HaltedWayDown(k: Conn, r: RoutePc, c: nat, capacity: nat)
    requires capacity > 0 && Halted(k, capacity) && ConnShaped(k) && ConnClosing(r, c, k) && !k.bridge.reader.Handling?
    ensures LaneOf(k).down == []
  {
    assert DownPath(k) == [];
  }

  lemma AllServe(cfg: Config, s: Session)
    requires cfg.Valid() && Safe(cfg, s)
    ensures |s.conns| == |s.log.served|
  {
    assert FlowPlacement.Placed(cfg, FlowOf(s));
  }

  lemma NobodyHandles(cfg: Config, s: Session, c: nat)
    requires Stuck(cfg, s) && c < |s.conns| == |s.log.served|
    ensures !s.conns[c].bridge.reader.Handling?
  {
    assert DoHandle(c).Progress() && !Enabled(cfg, s, DoHandle(c));
  }

  lemma StuckWayDown(cfg: Config, s: Session, c: nat)
    requires cfg.Valid() && Good(cfg, s) && Stuck(cfg, s) && c < |s.conns|
    ensures LaneOf(s.conns[c]).down == []
  {
    GoodConn(cfg, s, c);
    StuckMeansHalted(cfg, s, c);
    AllServe(cfg, s);
    NobodyHandles(cfg, s, c);
    HaltedWayDown(s.conns[c], s.route, c, cfg.capacity);
  }

  // ---------------------------------------------------------------- theorems

  /** Once route() has stopped, by sendDone or by a fatal error, exactly those
      promises are ever set, in every run to its end and whatever the application
      does, that are set already or whose response is on its way down. */
  lemma SetExactlyWhenComing(cfg: Config, s: Session, acts: seq<Act>, s': Session, c: nat, key: Key)
    requires cfg.Valid() && cfg.Routable() && Reachable(cfg, s) && !Routing(s) && c < |s.conns|
    requires Run(cfg, s, acts, s') && Stuck(cfg, s')
    ensures |s'.conns| == |s.conns|
    ensures key in BooksOf(s', c).promises <==> key in BooksOf(s, c).promises || Coming(LaneOf(s.conns[c]), key)
  {
    ReachableIsGood(cfg, s);
    RunSaves(cfg, s, acts, s', c, key);
    RunGood(cfg, s, acts, s');
    StuckWayDown(cfg, s', c);
  }

  /** What is coming is awaited. */
  lemma ComingIsAwaited(cfg: Config, s: Session, c: nat, key: Key)
    requires cfg.Valid() && Good(cfg, s) && c < |s.conns| && Coming(LaneOf(s.conns[c]), key)
    ensures key in BooksOf(s, c).txns
  {
    ComingInFlow(cfg, FlowOf(s), c, key);
  }

  lemma ComingInFlow(cfg: Config, f: Flow, c: nat, key: Key)
    requires cfg.Valid() && FlowPlacement.Placed(cfg, f) && FlowConservation.Conserved(cfg, f)
    requires c < |f.lanes| && Coming(f.lanes[c], key)
    ensures key in f.lanes[c].books.txns
  {
    var l := f.lanes[c];
    var j :| 0 <= j < |l.down| && !l.down[j].IsRequest() && l.down[j].RequestKey() == key;
    assert FlowPlacement.LanePlaced(cfg, c, l) && FlowPlacement.Inbound(cfg, l, l.down[j]);
    Counts(key, l.down, j);
    FlowConservation.LaneSumContains(key, f.lanes, c);
    assert FlowConservation.InFlight(f, key) >= 1;
  }

  /** A key that has not been given out is nowhere. */
  lemma LaterIsNotSaved(cfg: Config, s: Session, c: nat, key: Key)
    requires cfg.Valid() && Good(cfg, s) && c < |s.conns|
    requires key.master in s.log.issued && key.id >= |s.log.issued[key.master]|
    ensures !Saved(LaneOf(s.conns[c]), key)
  {
    var f := FlowOf(s);
    assert FlowConservation.LaneAccounts(f.lanes[c]) && FlowPlacement.LanePlaced(cfg, c, f.lanes[c]);
    assert FlowOrder.MasterOrdered(cfg, f, key.master);
    if Coming(LaneOf(s.conns[c]), key) {
      ComingIsAwaited(cfg, s, c, key);
    }
  }

  /** A request that is issued after route() has stopped has its promise set in no
      continuation. */
  lemma TooLateIsNeverAnswered(cfg: Config, s: Session, acts: seq<Act>, s': Session, c: nat, key: Key)
    requires cfg.Valid() && cfg.Routable() && Reachable(cfg, s) && !Routing(s) && c < |s.conns|
    requires key.master in s.log.issued && key.id >= |s.log.issued[key.master]| && Run(cfg, s, acts, s')
    ensures |s'.conns| == |s.conns| && key !in BooksOf(s', c).promises
  {
    ReachableIsGood(cfg, s);
    LaterIsNotSaved(cfg, s, c, key);
    RunSaves(cfg, s, acts, s', c, key);
  }

  // --------------------------------------------------------------- witnesses

  lemma {:induction false} PoliteIsRun(cfg: Config, s: Session, acts: seq<Act>, s': Session)
    requires cfg.Valid() && PoliteRun(cfg, s, acts, s')
    ensures Run(cfg, s, acts, s')
    decreases |acts|
  {
    if acts != [] {
      PoliteIsRun(cfg, Apply(cfg, s, acts[0]), acts[1..], s');
    }
  }

  lemma {:induction false} RunConcat(cfg: Config, s0: Session, acts: seq<Act>, s: Session, more: seq<Act>, s': Session)
    requires cfg.Valid() && Run(cfg, s0, acts, s) && Run(cfg, s, more, s')
    ensures Run(cfg, s0, acts + more, s')
    decreases |acts|
  {
    if acts == [] {
      assert acts + more == more;
    } else {
      RunConcat(cfg, Apply(cfg, s0, acts[0]), acts[1..], s, more, s');
      assert (acts + more)[1..] == acts[1..] + more;
    }
  }

  /** A polite run to where route() has stopped: to sendDone, or to the fatal error
      of the router as written. */
  lemma RouteStops(cfg: Config, s0: Session) returns (acts: seq<Act>, s: Session)
    requires cfg.Valid() && cfg.Routable() && InitSession(cfg, s0) && Masters(cfg) != {}
    ensures PoliteRun(cfg, s0, acts, s) && !Routing(s) && s.asked != {} && s.log.issued == s0.log.issued
  {
    if cfg.terminate.AsWritten? && |Masters(cfg)| != 1 {
      acts, s := SeveralMastersCanCrash(cfg, s0);
    } else {
      acts, s := DoneIsReached(cfg, s0);
    }
  }

  lemma AskedAreMasters(cfg: Config, s0: Session, acts: seq<Act>, s: Session)
    requires cfg.Valid() && cfg.Routable() && InitSession(cfg, s0) && PoliteRun(cfg, s0, acts, s)
    ensures s.asked <= Masters(cfg) && |s.conns| == cfg.clients
  {
    InitGood(cfg, s0);
    InitCounted(cfg, s0);
    PoliteRunKeeps(cfg, s0, acts, s);
    assert FlowPlacement.Placed(cfg, FlowOf(s));
  }

  /** A master that issues one more request after its terminate: in every system
      that has a master there is a run in which the promise of that request is still
      open when nothing can step any more. */
  lemma OutlivedOperation(cfg: Config, s0: Session) returns (acts: seq<Act>, s: Session, m: nat)
    requires cfg.Valid() && cfg.Routable() && InitSession(cfg, s0) && Masters(cfg) != {}
    ensures Run(cfg, s0, acts, s) && Stuck(cfg, s) && m in s.asked
    ensures cfg.IsMaster(m) && cfg.holder[m] < |s.conns| && !AllSet(cfg, s, m)
  {
    var acts1, s1 := RouteStops(cfg, s0);
    AskedAreMasters(cfg, s0, acts1, s1);
    PoliteIsRun(cfg, s0, acts1, s1);
    m :| m in s1.asked;
    assert cfg.IsMaster(m) && s1.log.issued[m] == [];
    var acts2, s2 := OneMore(cfg, s0, acts1, s1, m);
    assert Reachable(cfg, s1);
    TooLateIsNeverAnswered(cfg, s1, acts2, s2, cfg.holder[m], Key(m, 0));
    RunConcat(cfg, s0, acts1, s1, acts2, s2);
    acts, s := acts1 + acts2, s2;
  }

  lemma CanIssueOne(cfg: Config, s: Session, m: nat)
    requires cfg.Valid() && |s.conns| == cfg.clients && m in Masters(cfg) && m in s.log.issued && s.log.issued[m] == []
    ensures cfg.IpValid(m) && Enabled(cfg, s, DoIssue(ReadRequest(m, 0, 0)))
    ensures var s' := Apply(cfg, s, DoIssue(ReadRequest(m, 0, 0)));
            s'.asked == s.asked && m in s'.log.issued && |s'.log.issued[m]| == 1
  {
    assert cfg.IpValid(m);
  }

  /** The request, and then the system until it comes to rest. */
  lemma OneMore(cfg: Config, s0: Session, acts0: seq<Act>, s: Session, m: nat) returns (acts: seq<Act>, s': Session)
    requires cfg.Valid() && cfg.Routable() && InitSession(cfg, s0) && Run(cfg, s0, acts0, s) && |s.conns| == cfg.clients
    requires m in s.asked && m in Masters(cfg) && m in s.log.issued && s.log.issued[m] == []
    ensures Run(cfg, s, acts, s') && Stuck(cfg, s') && |s'.conns| == |s.conns|
    ensures cfg.IpValid(m) && m in s'.asked && m in s'.log.issued && |s'.log.issued[m]| == 1
  {
    CanIssueOne(cfg, s, m);
    var a := DoIssue(ReadRequest(m, 0, 0));
    InitGood(cfg, s0);
    RunGood(cfg, s0, acts0, s);
    ApplyGood(cfg, s, a);
    var more, end := Rests(cfg, Apply(cfg, s, a));
    acts, s' := [a] + more, end;
    assert acts[1..] == more;
  }

  lemma Rests(cfg: Config, s: Session) returns (acts: seq<Act>, s': Session)
    requires cfg.Valid() && cfg.Routable() && Good(cfg, s)
    ensures Run(cfg, s, acts, s') && Stuck(cfg, s') && |s'.conns| == |s.conns|
    ensures s'.asked == s.asked && s'.log.issued == s.log.issued
  {
    acts, s' := ComesToRest(cfg, s);
    OwnRunIsPolite(cfg, s, acts, s');
    SameConns(cfg, s, acts, s');
  }

  lemma {:induction false} SameConns(cfg: Config, s: Session, acts: seq<Act>, s': Session)
    requires cfg.Valid() && Run(cfg, s, acts, s')
    ensures |s'.conns| == |s.conns|
    decreases |acts|
  {
    if acts != [] {
      SameConns(cfg, Apply(cfg, s, acts[0]), acts[1..], s');
    }
  }

  /** The connection on which a termination follows the first request. */
  lemma TermFollows(k: Conn, m: nat, capacity: nat, v: Variant)
    requires capacity > 0 && O.Ready(k) && k.rx == []
    ensures var k1 := k.WithPush(TERMINATE(m));
            && k1.bridge.q.consumer.Testing?
            && var k2 := k1.(bridge := k1.bridge.Popped(v));
            && k2.CanHop(capacity, Send)
            && var k3 := k2.AfterHop(capacity, v, Send);
            && k3.CanHop(capacity, Read)
            && var k4 := k3.AfterHop(capacity, v, Read);
            && k4.rx == [TERMINATE(m)] && k4.tx == k.tx && k4.down == k.down
            && k4.bridge.reader == k.bridge.reader && k4.bridge.books == k.bridge.books
  {
  }

  /** route() takes the request and hands it to the client of its slave. */
  lemma RequestGoesOn(cfg: Config, s0: Session, acts: seq<Act>, s: Session, c: nat, t: Txn)
      returns (acts': seq<Act>, s': Session)
    requires cfg.Valid() && cfg.Routable() && Run(cfg, s0, acts, s) && O.AllFree(cfg, s) && c < |s.conns| && s.route.Taking?
    requires s.conns[c].rx == [TRANSACTION(t)] && t.IsRequest() && t.initiator < |cfg.ips| && cfg.Decodes(t).Hit?
    ensures Run(cfg, s0, acts', s') && s'.route.Taking? && |s'.conns| == |s.conns|
    ensures s'.conns[c] == s.conns[c].(rx := [], tx := s'.conns[c].tx)
    ensures s'.conns[c].tx == [] || s'.conns[c].tx == [TRANSACTION(t.(target := cfg.Decodes(t).target))]
    ensures s'.masterCount == s.masterCount && s'.asked == s.asked && s'.log.issued == s.log.issued
  {
    HitIsSlave(cfg, t);
    var i := cfg.Decodes(t).target;
    assert cfg.IpValid(i);
    O.RunOnward(cfg, s0, acts, s, DoTake(c));
    var s1 := Apply(cfg, s, DoTake(c));
    assert O.Free(cfg, s1.route.dest, s.conns[s1.route.dest]);
    O.RunOnward(cfg, s0, acts + [DoTake(c)], s1, DoGive);
    acts', s' := acts + [DoTake(c)] + [DoGive], Apply(cfg, s1, DoGive);
  }

  /** The only master terminates while its request is at the slave's bridge. */
  lemma TermGoesUp(cfg: Config, s0: Session, acts: seq<Act>, s: Session, c: nat, m: nat)
      returns (acts': seq<Act>, s': Session)
    requires cfg.Valid() && Run(cfg, s0, acts, s) && c < |s.conns| && s.route.Taking? && s.masterCount == 1
    requires cfg.IsMaster(m) && cfg.holder[m] == c && O.Ready(s.conns[c]) && s.conns[c].rx == []
    ensures Run(cfg, s0, acts', s') && s'.route == Finishing(0) && m in s'.asked
    ensures |s'.conns| == |s.conns| && s'.log.issued == s.log.issued
    ensures DownPath(s'.conns[c]) == DownPath(s.conns[c]) && s'.conns[c].bridge.reader == s.conns[c].bridge.reader
    ensures s'.conns[c].bridge.books == s.conns[c].bridge.books
  {
    TermFollows(s.conns[c], m, cfg.capacity, cfg.pop);
    O.RunOnward(cfg, s0, acts, s, DoTerminate(m));
    var s1 := Apply(cfg, s, DoTerminate(m));
    var acts2, s2 := O.UpToRouter(cfg, s0, acts + [DoTerminate(m)], s1, c, s.conns[c].WithPush(TERMINATE(m)));
    O.RunOnward(cfg, s0, acts2, s2, DoTake(c));
    acts', s' := acts2 + [DoTake(c)], Apply(cfg, s2, DoTake(c));
  }

  /** Nothing is saved on a connection with no promise set and at most a request on
      the way down. */
  lemma OnlyRequestsComing(k: Conn, key: Key)
    requires k.bridge.books.promises == map[] && !k.bridge.reader.Handling? && k.down == []
    requires k.tx == [] || (|k.tx| == 1 && k.tx[0].TRANSACTION? && k.tx[0].txn.IsRequest())
    ensures !Saved(LaneOf(k), key)
  {
    assert DownPath(k) == k.tx;
    if k.tx != [] {
      TxnsSnoc([], k.tx[0]);
      assert [] + [k.tx[0]] == k.tx;
    }
  }

  /** A master that terminates with a promise still open: with one master and one
      slave there is a run in which that promise is still open when nothing can step
      any more. */
  lemma OpenAtTerminate(cfg: Config, s0: Session, m: nat, i: nat) returns (acts: seq<Act>, s: Session)
    requires cfg.Valid() && cfg.Routable() && InitSession(cfg, s0) && Masters(cfg) == {m}
    requires i < |cfg.ips| && cfg.ips[i].NonEmpty()
    ensures Run(cfg, s0, acts, s) && Stuck(cfg, s) && m in s.asked
    ensures cfg.IsMaster(m) && cfg.holder[m] < |s.conns| && !AllSet(cfg, s, m)
  {
    var acts2, s2 := RouteStopsEarly(cfg, s0, m, i);
    InitGood(cfg, s0);
    RunGood(cfg, s0, acts2, s2);
    var more, end := Rests(cfg, s2);
    assert Reachable(cfg, s2);
    SetExactlyWhenComing(cfg, s2, more, end, cfg.holder[m], Key(m, 0));
    RunConcat(cfg, s0, acts2, s2, more, end);
    acts, s := acts2 + more, end;
  }

  lemma RouteStopsEarly(cfg: Config, s0: Session, m: nat, i: nat) returns (acts: seq<Act>, s: Session)
    requires cfg.Valid() && cfg.Routable() && InitSession(cfg, s0) && Masters(cfg) == {m}
    requires i < |cfg.ips| && cfg.ips[i].NonEmpty()
    ensures Run(cfg, s0, acts, s) && s.route == Finishing(0) && m in s.asked
    ensures cfg.IsMaster(m) && cfg.holder[m] < |s.conns| && m in s.log.issued && |s.log.issued[m]| == 1
    ensures !Saved(LaneOf(s.conns[cfg.holder[m]]), Key(m, 0))
  {
    assert m in Masters(cfg);
    var t := ReadRequest(m, cfg.ips[i].address, 0);
    ReadsBlock(cfg, t, i);
    OneMasterCounted(cfg, s0, m);
    var acts1, s1, c := O.RequestArrives(cfg, s0, t);
    assert O.Free(cfg, c, s1.conns[c]);
    var acts2, s2 := RequestGoesOn(cfg, s0, acts1, s1, c, t);
    acts, s := TermGoesUp(cfg, s0, acts2, s2, c, m);
    SameWayDown(s2.conns[c], s.conns[c], Key(m, 0));
    OnlyRequestsComing(s2.conns[c], Key(m, 0));
  }

  lemma SameWayDown(k: Conn, k': Conn, key: Key)
    requires DownPath(k') == DownPath(k) && k'.bridge.reader == k.bridge.reader && k'.bridge.books == k.bridge.books
    ensures Saved(LaneOf(k'), key) <==> Saved(LaneOf(k), key)
  {
  }

  lemma ReadsBlock(cfg: Config, t: Txn, i: nat)
    requires cfg.Valid() && i < |cfg.ips| && cfg.ips[i].NonEmpty() && t.address == cfg.ips[i].address && t.size == 0
    ensures cfg.Decodes(t) == Hit(i)
  {
    assert cfg.ips[i] in cfg.ips;
    BlockAtIs(cfg.ips, t.address, i);
  }

  lemma OneMasterCounted(cfg: Config, s0: Session, m: nat)
    requires cfg.Valid() && InitSession(cfg, s0) && Masters(cfg) == {m}
    ensures s0.masterCount == 1
  {
    MastersCounted(cfg.ips);
    assert Masters(cfg) == set x | 0 <= x < |cfg.ips| && cfg.ips[x].typ.IsMaster();
  }
}
