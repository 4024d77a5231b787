/** What the shutdown of polite masters guarantees, and where the code as written
    falls short of it. */
module CleanShutdown {
  import opened Wire
  import opened FlatMemory
  import opened Monitor
  import opened BridgeThreads
  import opened Traffic
  import opened System
  import opened Refinement
  import opened Closing
  import opened Progress
  import opened Shutdown
  import FlowPlacement
  import FlowConservation
  import FlowOrder

  // ------------------------------------- nothing is left when DONE is sent

  ghost predicate AllDone(ms: seq<Msg>) {
    (ms != [] ==> ms[0] == DONE) && forall j :: 0 <= j < |ms| ==> ms[j] == DONE
  }

  /** No transaction and no termination is anywhere. */
  ghost predicate Drained(k: Conn) {
    && k.bridge.q.items == [] && k.rx == [] && !k.bridge.reader.Handling?
    && AllDone(k.bridge.writer) && AllDone(k.up) && AllDone(k.tx) && AllDone(k.down)
  }

  ghost predicate EverythingSet(cfg: Config, s: Session) {
    forall m: nat :: cfg.IsMaster(m) ==> AllSet(cfg, s, m)
  }

  /** Nothing is awaited any more, so nothing is in flight. */
  lemma NothingInFlight(cfg: Config, s: Session, key: Key)
    requires cfg.Valid() && Safe(cfg, s) && EverythingSet(cfg, s)
    ensures FlowConservation.InFlight(FlowOf(s), key) == 0
  {
    var f := FlowOf(s);
    if key.master < |cfg.holder| && cfg.holder[key.master] < |f.lanes| {
      var c := cfg.holder[key.master];
      var l := f.lanes[c];
      assert FlowConservation.LaneAccounts(l) && FlowPlacement.LanePlaced(cfg, c, l);
      if key.master in l.books.lastId && key.id < l.books.lastId[key.master] {
        assert FlowOrder.MasterOrdered(cfg, f, key.master);
        assert key in l.books.promises;
      }
      assert key !in l.books.txns;
    }
  }

  lemma {:induction false} NothingSelected(p: Txn -> bool, ts: seq<Txn>, j: nat)
    requires Select(p, ts) == [] && j < |ts|
    ensures !p(ts[j])
  {
    if j < |ts| - 1 {
      NothingSelected(p, ts[..|ts| - 1], j);
    }
  }

  lemma NothingSelectedFirst(p: Txn -> bool, ts: seq<Txn>)
    requires Select(p, ts) == []
    ensures ts == [] || !p(ts[0])
  {
    if ts != [] {
      NothingSelected(p, ts, 0);
    }
  }

  /** A master whose promises are all set has no request left in the queue. */
  lemma NothingQueued(cfg: Config, s: Session, m: nat)
    requires cfg.Valid() && Safe(cfg, s) && cfg.IsMaster(m) && AllSet(cfg, s, m)
    ensures cfg.holder[m] < |s.conns|
    ensures Select(RequestBy(m), FlowOf(s).lanes[cfg.holder[m]].queue) == []
  {
    var f := FlowOf(s);
    assert m in f.log.issued && FlowOrder.MasterOrdered(cfg, f, m);
    var l, issued := f.lanes[cfg.holder[m]], f.log.issued[m];
    assert FlowConservation.LaneAccounts(l);
    if issued != [] {
      assert Key(m, |issued| - 1) in l.books.promises;
    }
    assert l.books.lastId[m] == |issued|;
  }

  lemma NoQueuedRequest(cfg: Config, s: Session, c: nat, j: nat)
    requires cfg.Valid() && Safe(cfg, s) && EverythingSet(cfg, s)
    requires c < |s.conns| && j < |FlowOf(s).lanes[c].queue|
    ensures !FlowOf(s).lanes[c].queue[j].IsRequest()
  {
    var l := FlowOf(s).lanes[c];
    assert FlowPlacement.LanePlaced(cfg, c, l) && FlowPlacement.Outbound(cfg, l, l.queue[j]);
    if l.queue[j].initiator in l.books.lastId {
      NothingQueued(cfg, s, l.queue[j].initiator);
      NothingSelected(RequestBy(l.queue[j].initiator), l.queue, j);
    }
  }

  lemma {:induction false} Counts(k: Key, ts: seq<Txn>, j: nat)
    requires j < |ts| && ts[j].RequestKey() == k
    ensures Count(k, ts) > 0
  {
    if j < |ts| - 1 {
      Counts(k, ts[..|ts| - 1], j);
    }
  }

  lemma NoCountIsEmpty(ts: seq<Txn>)
    requires forall k :: Count(k, ts) == 0
    ensures ts == []
  {
    if ts != [] {
      Counts(ts[0].RequestKey(), ts, 0);
    }
  }

  /** A lane without load and without queued requests is empty. */
  lemma EmptyLane(f: Flow, c: nat)
    requires c < |f.lanes| && forall k :: FlowConservation.InFlight(f, k) == 0
    requires forall j :: 0 <= j < |f.lanes[c].queue| ==> !f.lanes[c].queue[j].IsRequest()
    ensures f.lanes[c].queue == [] && f.lanes[c].up == [] && f.lanes[c].down == []
  {
    var l := f.lanes[c];
    forall k ensures FlowConservation.LaneLoad(k, l) == 0 {
      FlowConservation.LaneSumContains(k, f.lanes, c);
      assert FlowConservation.InFlight(f, k) == 0;
    }
    forall k ensures Count(k, l.up) == 0 && Count(k, l.down) == 0 && Count(k, Select(NoRequest(), l.queue)) == 0 {
      assert FlowConservation.LaneLoad(k, l) == 0;
    }
    NoCountIsEmpty(l.up);
    NoCountIsEmpty(l.down);
    NoCountIsEmpty(Select(NoRequest(), l.queue));
    NothingSelectedFirst(NoRequest(), l.queue);
  }

  lemma {:induction false} NoTxns(ms: seq<Msg>, j: nat)
    requires Txns(ms) == [] && j < |ms|
    ensures !ms[j].TRANSACTION?
  {
    if j < |ms| - 1 {
      NoTxns(ms[..|ms| - 1], j);
    }
  }

  /** Messages without transactions and terminations are DONE messages. */
  lemma OnlyDone(ms: seq<Msg>, j: nat)
    requires Txns(ms) == [] && (forall m: nat :: Terms(m, ms) == 0) && j < |ms|
    ensures ms[j] == DONE
  {
    NoTxns(ms, j);
    if ms[j].TERMINATE? {
      TermsFinds(ms[j].ip, ms, j);
    }
  }

  lemma PathTerms(m: nat, k: Conn)
    ensures ConnTerms(m, k) == Terms(m, k.bridge.q.items) + Terms(m, UpPath(k))
  {
    TermsConcat(m, k.rx, k.up);
    TermsConcat(m, k.rx + k.up, k.bridge.writer);
  }

  /** On the way up: no transaction, no termination. */
  lemma UpDrained(k: Conn)
    requires ConnShaped(k) && LaneOf(k).queue == [] && LaneOf(k).up == []
    requires forall m: nat :: ConnTerms(m, k) == 0
    ensures k.bridge.q.items == [] && k.rx == []
    ensures AllDone(UpPath(k))
  {
    assert k.rx != [] ==> UpPath(k)[0] == k.rx[0];
    forall m: nat ensures Terms(m, k.bridge.q.items) == 0 && Terms(m, UpPath(k)) == 0 {
      PathTerms(m, k);
    }
    forall j | 0 <= j < |UpPath(k)| ensures UpPath(k)[j] == DONE {
      OnlyDone(UpPath(k), j);
    }
    forall j | 0 <= j < |k.bridge.q.items| ensures k.bridge.q.items[j] == DONE {
      OnlyDone(k.bridge.q.items, j);
    }
    assert AllDone(k.bridge.q.items);
  }

  lemma DownDrained(k: Conn)
    requires ConnShaped(k) && LaneOf(k).down == []
    ensures !k.bridge.reader.Handling?
    ensures AllDone(DownPath(k))
  {
    forall j | 0 <= j < |DownPath(k)| ensures DownPath(k)[j] == DONE {
      NoTxns(DownPath(k), j);
      assert j < |k.down| ==> DownPath(k)[j] == k.down[j];
      assert j >= |k.down| ==> DownPath(k)[j] == k.tx[j - |k.down|];
    }
  }

  /** The two ways hold nothing but DONE messages. */
  lemma PathsAreDrained(k: Conn)
    requires k.bridge.q.items == [] && k.rx == [] && !k.bridge.reader.Handling?
    requires AllDone(UpPath(k))
    requires AllDone(DownPath(k))
    ensures Drained(k)
  {
    forall j | 0 <= j < |k.up| ensures k.up[j] == DONE { assert UpPath(k)[j] == k.up[j]; }
    forall j | 0 <= j < |k.bridge.writer| ensures k.bridge.writer[j] == DONE {
      assert UpPath(k)[|k.up| + j] == k.bridge.writer[j];
    }
    forall j | 0 <= j < |k.down| ensures k.down[j] == DONE { assert DownPath(k)[j] == k.down[j]; }
    forall j | 0 <= j < |k.tx| ensures k.tx[j] == DONE { assert DownPath(k)[|k.down| + j] == k.tx[j]; }
    assert AllDone(k.up) && AllDone(k.bridge.writer) && AllDone(k.down) && AllDone(k.tx);
  }

  lemma NoTermLeft(cfg: Config, s: Session, c: nat, m: nat)
    requires cfg.Valid() && Counted(cfg, s) && s.retired == Masters(cfg) && c < |s.conns|
    ensures ConnTerms(m, s.conns[c]) == 0
  {
    AllTermsContains(m, s.conns, c);
  }

  lemma EverythingIsSet(cfg: Config, s: Session)
    requires cfg.Valid() && Counted(cfg, s) && s.retired == Masters(cfg)
    ensures EverythingSet(cfg, s)
  {
    forall m: nat | cfg.IsMaster(m) ensures AllSet(cfg, s, m) {
      assert m in Masters(cfg);
    }
  }

  /** Every promise is set: the lanes are empty and route() holds nothing. */
  lemma LanesAreEmpty(cfg: Config, s: Session, c: nat)
    requires cfg.Valid() && Safe(cfg, s) && EverythingSet(cfg, s) && c < |s.conns|
    ensures var l := FlowOf(s).lanes[c]; l.queue == [] && l.up == [] && l.down == []
    ensures !s.route.Giving? && ConnShaped(s.conns[c])
  {
    var f := FlowOf(s);
    forall k ensures FlowConservation.InFlight(f, k) == 0 {
      NothingInFlight(cfg, s, k);
    }
    forall j | 0 <= j < |f.lanes[c].queue| ensures !f.lanes[c].queue[j].IsRequest() {
      NoQueuedRequest(cfg, s, c, j);
    }
    EmptyLane(f, c);
    if s.route.Giving? {
      assert FlowConservation.SlotLoad(s.route.msg.txn.RequestKey(), f.slot) == 1;
      NothingInFlight(cfg, s, s.route.msg.txn.RequestKey());
    }
  }

  /** Once every master has retired, and so in particular from the start of
      sendDone on, no transaction and no termination is in any queue, hand,
      channel or socket, and every promise is set. */
  lemma DrainedAtDone(cfg: Config, s: Session, c: nat)
    requires cfg.Valid() && Safe(cfg, s) && Counted(cfg, s) && s.retired == Masters(cfg)
    requires c < |s.conns|
    ensures Drained(s.conns[c]) && !s.route.Giving? && EverythingSet(cfg, s)
  {
    EverythingIsSet(cfg, s);
    LanesAreEmpty(cfg, s, c);
    forall m: nat ensures ConnTerms(m, s.conns[c]) == 0 {
      NoTermLeft(cfg, s, c, m);
    }
    UpDrained(s.conns[c]);
    DownDrained(s.conns[c]);
    PathsAreDrained(s.conns[c]);
  }

  // --------------------------------------------------- everything returns

  /** The connection's four threads and goroutines have returned, the reader with
      success, and nothing is left. */
  ghost predicate Over(k: Conn) {
    && Idle(k) && k.bridge.reader == Stopped(Ok) && k.bridge.q.consumer.Ended? && !k.rxOpen && !k.txOpen
  }

  /** As written: the writer began to wait after finish and nobody will wake it. */
  predicate Stranded(v: Variant, k: Conn) {
    v.AsWritten? && k.bridge.q.consumer == Waiting(false) && k.bridge.q.done && k.bridge.q.notifies == 0
  }

  /** No step of this connection alone is possible. */
  predicate Halted(k: Conn, capacity: nat) {
    && !k.CanHop(capacity, Write) && !k.CanHop(capacity, Receive) && !k.CanHop(capacity, Send)
    && !k.CanHop(capacity, Read) && !k.CanHop(capacity, Notify) && !k.CanHop(capacity, Wake)
    && !k.bridge.q.consumer.Testing?
  }

  lemma StuckMeansHalted(cfg: Config, s: Session, c: nat)
    requires Stuck(cfg, s) && c < |s.conns|
    ensures Halted(s.conns[c], cfg.capacity)
  {
    forall h: Hop | !h.Spurious? ensures !s.conns[c].CanHop(cfg.capacity, h) {
      assert DoHop(c, h).Progress() && !Enabled(cfg, s, DoHop(c, h));
    }
    assert DoPop(c).Progress() && !Enabled(cfg, s, DoPop(c));
  }

  lemma DownIsOver(k: Conn, capacity: nat)
    requires capacity > 0 && Halted(k, capacity) && ConnShaped(k) && DownClosing(k) && Drained(k)
    ensures k.bridge.reader == Stopped(Ok) && k.down == [] && k.tx == [] && !k.txOpen && k.bridge.q.done
  {
  }

  lemma UpIsOver(k: Conn, capacity: nat, v: Variant)
    requires capacity > 0 && Halted(k, capacity) && ConnShaped(k) && UpClosing(k) && Drained(k) && Alert(v, k)
    requires k.bridge.q.done
    ensures (k.bridge.q.consumer.Ended? && k.bridge.writer == [] && k.up == [] && !k.rxOpen) || Stranded(v, k)
  {
  }

  lemma StuckConnIsOver(cfg: Config, s: Session, c: nat)
    requires cfg.Valid() && Good(cfg, s) && Stuck(cfg, s) && c < |s.conns| && s.route.Exited? && Drained(s.conns[c])
    ensures Over(s.conns[c]) || Stranded(cfg.pop, s.conns[c])
  {
    var k := s.conns[c];
    GoodConn(cfg, s, c);
    StuckMeansHalted(cfg, s, c);
    DownIsOver(k, cfg.capacity);
    UpIsOver(k, cfg.capacity, cfg.pop);
  }

  /** A polite session with at least one master, in which all masters have asked to
      terminate and nothing can step any more, is over: route() and the four
      threads of every connection have returned and the wait group is at zero.
      As written, a writer that missed finish is the one exception, and a router
      with several masters is ended by its first TERMINATE. */
  lemma SessionEnds(cfg: Config, s: Session)
    requires cfg.Valid() && Good(cfg, s) && Counted(cfg, s) && Stuck(cfg, s)
    requires s.asked == Masters(cfg) != {} && !s.route.Crashed?
    ensures s.route.Exited?
    ensures forall c :: 0 <= c < |s.conns| ==> Over(s.conns[c]) || Stranded(cfg.pop, s.conns[c])
    ensures cfg.pop.Repaired? ==> s.wg == 0 && forall c :: 0 <= c < |s.conns| ==> Over(s.conns[c])
  {
    AllRetired(cfg, s);
    DoneIsSent(cfg, s);
    forall c | 0 <= c < |s.conns| ensures Over(s.conns[c]) || Stranded(cfg.pop, s.conns[c]) {
      DrainedAtDone(cfg, s, c);
      StuckConnIsOver(cfg, s, c);
    }
    WaitGroupIsExact(s);
  }

  lemma AllRetired(cfg: Config, s: Session)
    requires cfg.Valid() && Good(cfg, s) && Counted(cfg, s) && Stuck(cfg, s) && s.asked == Masters(cfg) && !s.route.Crashed?
    ensures s.retired == Masters(cfg)
  {
    if Routing(s) {
      StuckMeansDone(cfg, s, 0);
      forall m: nat | m in s.asked ensures m in s.retired {
        forall c | 0 <= c < |s.conns| ensures ConnTerms(m, s.conns[c]) == 0 {
          assert Idle(s.conns[c]);
        }
        NoTerms(m, s.conns);
      }
    }
  }

  lemma NextCanHaveDone(k: Conn, r: RoutePc, c: nat)
    requires ConnClosing(r, c, k) && ConnShaped(k) && !Given(r, c) && Drained(k)
    ensures k.txOpen && k.tx == []
  {
  }

  /** Once started, sendDone is never blocked for good. */
  lemma DoneCanBeSent(cfg: Config, s: Session)
    requires cfg.Valid() && Good(cfg, s) && Counted(cfg, s) && s.route.Finishing?
    ensures Enabled(cfg, s, DoSendDone) || Enabled(cfg, s, DoLeave)
  {
    FinishingInRange(cfg, s);
    if s.route.next < |s.conns| {
      NextIsFree(cfg, s);
    }
    FinishingGoesOn(cfg, s);
  }

  lemma FinishingGoesOn(cfg: Config, s: Session)
    requires s.route.Finishing? && s.route.next <= |s.conns|
    requires s.route.next < |s.conns| ==> s.conns[s.route.next].txOpen && s.conns[s.route.next].tx == []
    ensures Enabled(cfg, s, DoSendDone) || Enabled(cfg, s, DoLeave)
  {
    assert s.route == Finishing(s.route.next);
  }

  lemma NextIsFree(cfg: Config, s: Session)
    requires cfg.Valid() && Good(cfg, s) && Counted(cfg, s) && s.route.Finishing? && s.route.next < |s.conns|
    requires s.retired == Masters(cfg)
    ensures s.conns[s.route.next].txOpen && s.conns[s.route.next].tx == []
  {
    var d := s.route.next;
    GoodConn(cfg, s, d);
    DrainedAtDone(cfg, s, d);
    NextCanHaveDone(s.conns[d], s.route, d);
  }

  lemma FinishingInRange(cfg: Config, s: Session)
    requires cfg.Valid() && Good(cfg, s) && Counted(cfg, s) && s.route.Finishing?
    ensures s.route.next <= |s.conns| && s.retired == Masters(cfg)
  {
    assert Orderly(cfg, s);
  }

  lemma DoneIsSent(cfg: Config, s: Session)
    requires cfg.Valid() && Good(cfg, s) && Counted(cfg, s) && Stuck(cfg, s) && !s.route.Crashed?
    requires s.retired == Masters(cfg) != {}
    ensures s.route.Exited?
  {
    assert DoSendDone.Progress() && DoLeave.Progress();
    assert !Enabled(cfg, s, DoSendDone) && !Enabled(cfg, s, DoLeave);
    if s.route.Finishing? {
      DoneCanBeSent(cfg, s);
    }
  }

  /** The whole story: in every polite run from the start, whatever the order of
      steps, if in the end all masters have terminated and nothing can step, then
      everything has returned. */
  lemma ShutdownIsClean(cfg: Config, s0: Session, acts: seq<Act>, s: Session)
    requires cfg.Valid() && cfg.Routable() && InitSession(cfg, s0) && PoliteRun(cfg, s0, acts, s)
    requires cfg.pop.Repaired? && (cfg.terminate.Repaired? || |Masters(cfg)| == 1)
    requires s.asked == Masters(cfg) != {} && Stuck(cfg, s)
    ensures s.wg == 0 && s.route.Exited? && forall c :: 0 <= c < |s.conns| ==> Over(s.conns[c])
  {
    InitGood(cfg, s0);
    InitCounted(cfg, s0);
    PoliteRunKeeps(cfg, s0, acts, s);
    SessionEnds(cfg, s);
  }

  // ------------------------------------------------------- as it is written

  lemma {:induction false} PoliteOnward(cfg: Config, s0: Session, acts: seq<Act>, s: Session, a: Act)
    requires cfg.Valid() && PoliteRun(cfg, s0, acts, s) && Enabled(cfg, s, a) && Polite(cfg, s, a)
    ensures PoliteRun(cfg, s0, acts + [a], Apply(cfg, s, a))
    decreases acts
  {
    if acts == [] {
      assert [a][1..] == [];
      assert acts + [a] == [a];
    } else {
      PoliteOnward(cfg, Apply(cfg, s0, acts[0]), acts[1..], s, a);
      assert (acts + [a])[1..] == acts[1..] + [a];
    }
  }

  /** The connection on which that termination travels. */
  lemma TermTravels(k: Conn, m: nat, capacity: nat, v: Variant)
    requires capacity > 0 && k.bridge.q == Start<Msg>().q && k.bridge.writer == [] && k.up == k.rx == [] && k.rxOpen
    ensures var k1 := k.WithPush(TERMINATE(m));
            && k1.bridge.q.consumer.Testing?
            && var k2 := k1.(bridge := k1.bridge.Popped(v));
            && k2.CanHop(capacity, Send)
            && var k3 := k2.AfterHop(capacity, v, Send);
            && k3.CanHop(capacity, Read)
            && k3.AfterHop(capacity, v, Read).rx == [TERMINATE(m)]
  {
  }

  /** A termination that has been pushed comes to route(). */
  lemma TermArrives(cfg: Config, s0: Session, acts: seq<Act>, s1: Session, c: nat, m: nat, k: Conn)
      returns (acts': seq<Act>, s': Session)
    requires cfg.Valid() && PoliteRun(cfg, s0, acts, s1) && c < |s1.conns| && s1.conns[c] == k.WithPush(TERMINATE(m))
    requires k.bridge.q == Start<Msg>().q && k.bridge.writer == [] && k.up == k.rx == [] && k.rxOpen
    ensures PoliteRun(cfg, s0, acts', s') && |s'.conns| == |s1.conns| && s'.conns[c].rx == [TERMINATE(m)]
    ensures s'.route == s1.route && s'.masterCount == s1.masterCount && s'.log == s1.log && s'.asked == s1.asked
  {
    TermTravels(k, m, cfg.capacity, cfg.pop);
    PoliteOnward(cfg, s0, acts, s1, DoPop(c));
    var s2 := Apply(cfg, s1, DoPop(c));
    PoliteOnward(cfg, s0, acts + [DoPop(c)], s2, DoHop(c, Send));
    var s3 := Apply(cfg, s2, DoHop(c, Send));
    PoliteOnward(cfg, s0, acts + [DoPop(c)] + [DoHop(c, Send)], s3, DoHop(c, Read));
    acts', s' := acts + [DoPop(c)] + [DoHop(c, Send)] + [DoHop(c, Read)], Apply(cfg, s3, DoHop(c, Read));
  }

  lemma FirstTermination(cfg: Config, s0: Session, m: nat) returns (s1: Session, c: nat)
    requires cfg.Valid() && InitSession(cfg, s0) && m in Masters(cfg)
    ensures PoliteRun(cfg, s0, [DoTerminate(m)], s1)
    ensures c < |s0.conns| == |s1.conns| && s1.conns[c] == s0.conns[c].WithPush(TERMINATE(m))
    ensures InitConn(cfg, c, s0.conns[c])
    ensures s1.route.Taking? && s1.masterCount == |Masters(cfg)| && s1.log == s0.log && s1.asked == {m}
  {
    assert cfg.IpValid(m);
    MastersCounted(cfg.ips);
    assert Masters(cfg) == set x | 0 <= x < |cfg.ips| && cfg.ips[x].typ.IsMaster();
    c := cfg.holder[m];
    s1 := Apply(cfg, s0, DoTerminate(m));
    PoliteOnward(cfg, s0, [], s0, DoTerminate(m));
    assert [] + [DoTerminate(m)] == [DoTerminate(m)];
  }

  lemma NotTheLast(cfg: Config, s: Session, c: nat, m: nat)
    requires cfg.Valid() && cfg.terminate.AsWritten? && c < |s.conns| && s.conns[c].rx == [TERMINATE(m)] && cfg.IsMaster(m)
    requires s.route.Taking? && s.masterCount >= 2
    ensures Enabled(cfg, s, DoTake(c))
    ensures var s' := Apply(cfg, s, DoTake(c)); s'.route.Crashed? && s'.log == s.log && s'.asked == s.asked
  {
  }

  /** As written, a session with several masters can be ended by log.Fatalf from
      its start on: one of them need only terminate. */
  lemma SeveralMastersCanCrash(cfg: Config, s0: Session) returns (acts: seq<Act>, s: Session)
    requires cfg.Valid() && InitSession(cfg, s0) && cfg.terminate.AsWritten? && |Masters(cfg)| >= 2
    ensures PoliteRun(cfg, s0, acts, s) && s.route.Crashed?
    ensures s.asked != {} && s.log == s0.log
  {
    var m :| m in Masters(cfg);
    var s1, c := FirstTermination(cfg, s0, m);
    var before, s4 := TermArrives(cfg, s0, [DoTerminate(m)], s1, c, m, s0.conns[c]);
    NotTheLast(cfg, s4, c, m);
    PoliteOnward(cfg, s0, before, s4, DoTake(c));
    acts, s := before + [DoTake(c)], Apply(cfg, s4, DoTake(c));
  }

  ghost predicate CanCrash(cfg: Config, s0: Session)
    requires cfg.Valid()
  {
    exists acts: seq<Act>, s: Session :: PoliteRun(cfg, s0, acts, s) && s.route.Crashed?
  }

  /** Polite masters can bring the router down exactly when it is unrepaired and
      there are several of them. */
  lemma CrashExactlyWithSeveralMasters(cfg: Config, s0: Session)
    requires cfg.Valid() && cfg.Routable() && InitSession(cfg, s0)
    ensures CanCrash(cfg, s0) <==> cfg.terminate.AsWritten? && |Masters(cfg)| >= 2
  {
    if CanCrash(cfg, s0) {
      var acts: seq<Act>, s: Session :| PoliteRun(cfg, s0, acts, s) && s.route.Crashed?;
      InitGood(cfg, s0);
      InitCounted(cfg, s0);
      PoliteRunKeeps(cfg, s0, acts, s);
    }
    if cfg.terminate.AsWritten? && |Masters(cfg)| >= 2 {
      var acts, s := SeveralMastersCanCrash(cfg, s0);
    }
  }

  /** Each client gets one DONE, as the last message: while it is on its way it is
      the only DONE and nothing is behind it, and when the bridge's reader has it
      the way is empty and closed. */
  lemma OneDoneAndLast(cfg: Config, s: Session, c: nat)
    requires cfg.Valid() && Good(cfg, s) && c < |s.conns|
    ensures var k := s.conns[c];
            if !Given(s.route, c) then NoDone(DownPath(k)) && !k.bridge.reader.Stopped?
            else if k.bridge.reader.Stopped? then DownPath(k) == [] && !k.txOpen && k.bridge.reader.status == Ok
            else EndsWithDone(DownPath(k)) && (k.txOpen ==> k.tx == [DONE])
  {
    var k := s.conns[c];
    assert ConnClosing(s.route, c, k) && ConnShaped(k);
    if Given(s.route, c) {
      assert k.tx == [] ==> DownPath(k) == k.down;
      assert k.tx == [DONE] ==> DownPath(k)[..|k.down|] == k.down;
    } else {
      assert forall j :: 0 <= j < |k.tx| ==> DownPath(k)[|k.down| + j] == k.tx[j];
    }
  }
}
