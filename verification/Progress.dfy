/** The system always gets somewhere: it never stops while a message is on its
    way, and it cannot run for ever on a finite amount of work. */
module Progress {
  import opened Wire
  import opened FlatMemory
  import opened Monitor
  import opened Traffic
  import opened System
  import opened Refinement
  import opened Closing
  import FlowPlacement
  import FlowConservation
  import FlowOrder

  /** What holds in every reachable state. */
  ghost predicate Good(cfg: Config, s: Session)
    requires cfg.Valid()
  {
    Safe(cfg, s) && Orderly(cfg, s)
  }

  lemma InitGood(cfg: Config, s: Session)
    requires cfg.Valid() && InitSession(cfg, s)
    ensures Good(cfg, s)
  {
    InitSafe(cfg, s);
    InitOrderly(cfg, s);
  }

  lemma ApplyGood(cfg: Config, s: Session, a: Act)
    requires cfg.Valid() && cfg.Routable() && Good(cfg, s) && Enabled(cfg, s, a)
    ensures Good(cfg, Apply(cfg, s, a))
  {
    ApplySafe(cfg, s, a);
    if a.DoHandle? {
      HandleRefines(cfg, s, a.c);
    }
    ApplyOrderly(cfg, s, a);
  }

  lemma {:induction false} RunGood(cfg: Config, s: Session, acts: seq<Act>, s': Session)
    requires cfg.Valid() && cfg.Routable() && Good(cfg, s) && Run(cfg, s, acts, s')
    ensures Good(cfg, s')
    decreases acts
  {
    if acts != [] {
      ApplyGood(cfg, s, acts[0]);
      RunGood(cfg, Apply(cfg, s, acts[0]), acts[1..], s');
    }
  }

  lemma GoodConn(cfg: Config, s: Session, c: nat)
    requires cfg.Valid() && Good(cfg, s) && c < |s.conns|
    ensures ConnShaped(s.conns[c]) && ConnClosing(s.route, c, s.conns[c]) && Alert(cfg.pop, s.conns[c])
  {
  }

  // -------------------------------------------------------- deadlock freedom

  /** The connection has nothing in a queue, a hand or a socket. */
  predicate Idle(k: Conn) {
    k.bridge.q.items == [] && k.bridge.writer == [] && k.up == [] && k.rx == [] && k.tx == [] && k.down == []
    && !k.bridge.reader.Handling?
  }

  /** No thread or goroutine can take a step. */
  ghost predicate Stuck(cfg: Config, s: Session) {
    forall a: Act :: a.Progress() ==> !Enabled(cfg, s, a)
  }

  /** route() has not begun to send DONE. */
  predicate Routing(s: Session) { s.route.Taking? || s.route.Giving? }

  /** The next step of a connection that is not idle, when route() is at the
      incoming channel. */
  function ConnStep(k: Conn, c: nat): Act {
    if k.bridge.reader.Handling? then DoHandle(c)
    else if k.down != [] then DoHop(c, Receive)
    else if k.tx != [] then DoHop(c, Write)
    else if k.rx != [] then DoTake(c)
    else if k.up != [] then DoHop(c, Read)
    else if k.bridge.writer != [] then DoHop(c, Send)
    else if k.bridge.q.consumer.Testing? then DoPop(c)
    else if k.bridge.q.consumer == Waiting(true) then DoHop(c, Wake)
    else DoHop(c, Notify)
  }

  /** A step on behalf of a message: not a look into an empty queue, and not the
      router's farewell. */
  predicate Moves(s: Session, a: Act) {
    && a.Progress() && !a.DoSendDone? && !a.DoLeave?
    && (a.DoPop? && a.c < |s.conns| ==> s.conns[a.c].bridge.q.items != [])
  }

  lemma ConnStepEnabled(cfg: Config, s: Session, c: nat)
    requires cfg.Valid() && Good(cfg, s) && c < |s.conns| && s.route.Taking? && !Idle(s.conns[c])
    ensures Enabled(cfg, s, ConnStep(s.conns[c], c)) && Moves(s, ConnStep(s.conns[c], c))
  {
    var k := s.conns[c];
    assert ConnShaped(k) && ConnClosing(s.route, c, k) && Alert(cfg.pop, k);
    assert FlowPlacement.Placed(cfg, FlowOf(s));
    if k.bridge.q.items != [] && k.bridge.writer == [] {
      assert !k.bridge.q.consumer.Ended? && !k.bridge.q.consumer.Away?;
    }
  }

  /** The next step for the transaction that route() hands over. */
  function GiveStep(cfg: Config, s: Session): Act
    requires s.route.Giving? && s.route.dest < |s.conns|
  {
    var d := s.route.dest;
    var k := s.conns[d];
    if k.tx == [] then DoGive
    else if |k.down| < cfg.capacity then DoHop(d, Write)
    else if k.bridge.reader.Receiving? then DoHop(d, Receive)
    else DoHandle(d)
  }

  lemma DestInRange(cfg: Config, s: Session)
    requires cfg.Valid() && Safe(cfg, s) && s.route.Giving?
    ensures s.route.dest < |s.conns| == |s.log.served|
  {
    assert FlowPlacement.Placed(cfg, FlowOf(s)) && FlowPlacement.SlotPlaced(cfg, FlowOf(s));
  }

  /** The way down of a client that has not got its DONE. */
  lemma WayDownOpen(k: Conn, r: RoutePc, c: nat)
    requires ConnShaped(k) && ConnClosing(r, c, k) && r.Giving?
    ensures k.txOpen && !k.bridge.reader.Stopped?
  {
  }

  lemma GiveStepEnabled(cfg: Config, s: Session)
    requires cfg.Valid() && Good(cfg, s) && s.route.Giving?
    ensures s.route.dest < |s.conns|
    ensures Enabled(cfg, s, GiveStep(cfg, s)) && Moves(s, GiveStep(cfg, s))
  {
    DestInRange(cfg, s);
    GoodConn(cfg, s, s.route.dest);
    WayDownOpen(s.conns[s.route.dest], s.route, s.route.dest);
  }

  /** While route() runs, no cycle of full sockets and busy hands can form: every
      connection with a message on it can step for that message when route() is at
      the incoming channel, and when it is not, its own transaction can move on. */
  lemma DeadlockFree(cfg: Config, s: Session)
    requires cfg.Valid() && Good(cfg, s) && Routing(s)
    ensures s.route.Taking? ==> forall c :: 0 <= c < |s.conns| && !Idle(s.conns[c]) ==>
              Enabled(cfg, s, ConnStep(s.conns[c], c)) && Moves(s, ConnStep(s.conns[c], c))
    ensures s.route.Giving? ==>
              s.route.dest < |s.conns| && Enabled(cfg, s, GiveStep(cfg, s)) && Moves(s, GiveStep(cfg, s))
  {
    if s.route.Giving? {
      GiveStepEnabled(cfg, s);
    } else {
      forall c | 0 <= c < |s.conns| && !Idle(s.conns[c])
        ensures Enabled(cfg, s, ConnStep(s.conns[c], c)) && Moves(s, ConnStep(s.conns[c], c))
      {
        ConnStepEnabled(cfg, s, c);
      }
    }
  }

  // ------------------------------------------------- what a quiet system has done

  lemma IdleLane(k: Conn)
    requires Idle(k)
    ensures LaneOf(k).queue == [] && LaneOf(k).up == [] && LaneOf(k).down == []
  {
    assert UpPath(k) == [] && DownPath(k) == [];
  }

  lemma {:induction false} NoLoad(key: Key, lanes: seq<Lane>)
    requires forall c :: 0 <= c < |lanes| ==> lanes[c].queue == [] && lanes[c].up == [] && lanes[c].down == []
    ensures FlowConservation.LaneSum(key, lanes) == 0
  {
    if lanes != [] {
      NoLoad(key, lanes[..|lanes| - 1]);
    }
  }

  /** Nothing is on its way: every request that was issued has its promise set. */
  lemma QuietMeansDone(cfg: Config, s: Session, m: nat)
    requires cfg.Valid() && Safe(cfg, s) && !s.route.Giving?
    requires forall c :: 0 <= c < |s.conns| ==> Idle(s.conns[c])
    ensures AllSet(cfg, s, m)
  {
    if m in s.log.issued && m < |cfg.holder| && cfg.holder[m] < |s.conns| {
      var c, f := cfg.holder[m], FlowOf(s);
      forall b | 0 <= b < |s.conns| ensures f.lanes[b].queue == [] && f.lanes[b].up == [] && f.lanes[b].down == [] {
        IdleLane(s.conns[b]);
      }
      assert FlowOrder.MasterOrdered(cfg, f, m);
      var n := f.lanes[c].books.lastId[m];
      assert s.log.issued[m][n..] == [];
      assert FlowConservation.LaneAccounts(f.lanes[c]);
      forall id: nat | id < |s.log.issued[m]| ensures Key(m, id) in s.conns[c].bridge.books.promises {
        NoLoad(Key(m, id), f.lanes);
        assert FlowConservation.InFlight(f, Key(m, id)) == 0;
        assert !FlowConservation.Awaited(cfg, f, Key(m, id));
      }
    }
  }

  /** A state of the running system in which nothing can step is one in which
      every request that was issued has its promise set. */
  lemma StuckMeansDone(cfg: Config, s: Session, m: nat)
    requires cfg.Valid() && Good(cfg, s) && Routing(s) && Stuck(cfg, s)
    ensures s.route.Taking? && (forall c :: 0 <= c < |s.conns| ==> Idle(s.conns[c])) && AllSet(cfg, s, m)
  {
    if s.route.Giving? || exists c :: 0 <= c < |s.conns| && !Idle(s.conns[c]) {
      DeadlockFree(cfg, s);
      assert false;
    }
    QuietMeansDone(cfg, s, m);
  }
}
