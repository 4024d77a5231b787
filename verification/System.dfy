/** The started system: the two threads of every bridge, the two goroutines that
    the router runs per client, route(), the sockets between them and Go's
    unbuffered channels.  Every step is what one of them does between two points
    at which the others can come in. */
module System {
  import opened Wire
  import opened AddressMap
  import opened FlatMemory
  import opened Bookkeeping
  import opened Monitor
  import opened BridgeThreads
  import opened Traffic

  /** What one thread or goroutine of a connection does without any transaction
      leaving its way to or from route().
      Spurious  the bridge's writer wakes up without a notification
      Notify    a producer notifies the queue
      Wake      the bridge's writer wakes up
      Send      the bridge's writer writes to the socket
      Read      the router's reader reads from it, and returns after DONE
      Write     the router's writer writes to it, and returns after DONE
      Receive   the bridge's reader reads from it */
  datatype Hop = Spurious | Notify | Wake | Send | Read | Write | Receive

  /** One client's bridge and its connection.
      up, down      the two directions of the socket, oldest message first
      rx, rxOpen    the message that the router's reader is passing on; it runs
      tx, txOpen    the message that the router's writer is writing; it runs */
  datatype Conn = Conn(
    bridge: BridgeState,
    up: seq<Msg>,
    rx: seq<Msg>,
    rxOpen: bool,
    tx: seq<Msg>,
    txOpen: bool,
    down: seq<Msg>)
  {
    predicate CanHop(capacity: nat, h: Hop) {
      match h
      case Spurious => bridge.q.consumer == Waiting(false)
      case Notify => bridge.q.notifies > 0
      case Wake => bridge.q.consumer == Waiting(true)
      case Send => bridge.writer != [] && |up| < capacity
      case Read => rxOpen && rx == [] && up != []
      case Write => txOpen && tx != [] && |down| < capacity
      case Receive => bridge.reader.Receiving? && down != []
    }

    function AfterHop(capacity: nat, v: Variant, h: Hop): Conn
      requires CanHop(capacity, h)
    {
      match h
      case Spurious => this.(bridge := bridge.Wakened(v))
      case Notify => this.(bridge := bridge.(q := Notified(bridge.q)))
      case Wake => this.(bridge := bridge.Wakened(v))
      case Send => this.(bridge := bridge.Sent(), up := up + bridge.writer)
      case Read =>
        if up[0].DONE? then this.(up := up[1..], rxOpen := false) else this.(up := up[1..], rx := [up[0]])
      case Write => this.(down := down + tx, tx := [], txOpen := !tx[0].DONE?)
      case Receive => this.(down := down[1..], bridge := bridge.Received(down[0]))
    }

    function WithPush(m: Msg): Conn {
      this.(bridge := bridge.(q := Pushed(bridge.q, m)))
    }

    /** How many of the router's two goroutines for this client still run. */
    function Running(): nat {
      (if rxOpen then 1 else 0) + if txOpen then 1 else 0
    }
  }

  /** route(): at the incoming channel; at a client's outgoing channel; in
      sendDone, at the next client; returned; or ended by log.Fatalf or a panic. */
  datatype RoutePc = Taking | Giving(msg: Msg, dest: nat) | Finishing(next: nat) | Exited | Crashed

  /** wg       what the wait group still counts
      log      history of the traffic
      asked    masters that have called terminate
      retired  masters whose TERMINATE route() has taken */
  datatype Session = Session(
    conns: seq<Conn>,
    route: RoutePc,
    masterCount: nat,
    wg: int,
    log: Log,
    asked: set<nat>,
    retired: set<nat>)

  /** The first two are the application's; the others are the system's own. */
  datatype Act =
    | DoIssue(t: Txn)
    | DoTerminate(m: nat)
    | DoHop(c: nat, h: Hop)
    | DoPop(c: nat)
    | DoTake(c: nat)
    | DoGive
    | DoSendDone
    | DoLeave
    | DoHandle(c: nat)
  {
    /** A step that the started system takes by itself. */
    predicate Progress() { !DoIssue? && !DoTerminate? && !(DoHop? && h.Spurious?) }
  }

  predicate Enabled(cfg: Config, s: Session, a: Act) {
    match a
    case DoIssue(t) =>
      && Fresh(t) && cfg.IsMaster(t.initiator)
      && t.initiator < |cfg.holder| && cfg.holder[t.initiator] < |s.conns|
      && t.initiator in s.log.issued && |s.log.issued[t.initiator]| < TWO64
    case DoTerminate(m) => cfg.IsMaster(m) && m < |cfg.holder| && cfg.holder[m] < |s.conns|
    case DoHop(c, h) => c < |s.conns| && s.conns[c].CanHop(cfg.capacity, h)
    case DoPop(c) => c < |s.conns| && s.conns[c].bridge.q.consumer.Testing?
    case DoTake(c) => c < |s.conns| && s.conns[c].rx != [] && s.route.Taking?
    case DoGive =>
      s.route.Giving? && s.route.dest < |s.conns| && s.conns[s.route.dest].txOpen && s.conns[s.route.dest].tx == []
    case DoSendDone =>
      s.route.Finishing? && s.route.next < |s.conns| && s.conns[s.route.next].txOpen && s.conns[s.route.next].tx == []
    case DoLeave => s.route == Finishing(|s.conns|)
    case DoHandle(c) => c < |s.conns| == |s.log.served| && s.conns[c].bridge.reader.Handling?
  }

  function SetConn(s: Session, c: nat, k: Conn): Session
    requires c < |s.conns|
  {
    s.(conns := s.conns[c := k], wg := s.wg - s.conns[c].Running() + k.Running())
  }

  /** The router's count of masters, an unsigned number, goes down by one. */
  function OneLess(n: nat): nat {
    if n == 0 then TWO64 - 1 else n - 1
  }

  /** One turn of route()'s loop, up to the next channel operation. */
  function Routed(cfg: Config, s: Session, m: Msg): Session
    requires cfg.Valid()
  {
    match m
    case TERMINATE(ip) =>
      if ip >= |cfg.ips| then s.(route := Crashed)
      else
        var s' := s.(masterCount := OneLess(s.masterCount), retired := s.retired + {ip});
        if s'.masterCount == 0 then s'.(route := Finishing(0))
        else if cfg.terminate.Repaired? then s'
        else s'.(route := Crashed)
    case DONE => s.(route := Crashed)
    case TRANSACTION(t) =>
      if t.initiator < |cfg.ips| then
        var p := Route(cfg, t);
        s.(route := Giving(TRANSACTION(p.txn), p.dest),
           log := s.log.(taken := s.log.taken + if t.IsRequest() then [t] else []))
      else s.(route := Crashed)
  }

  function Apply(cfg: Config, s: Session, a: Act): Session
    requires cfg.Valid() && Enabled(cfg, s, a)
  {
    match a
    case DoIssue(t) =>
      var c := cfg.holder[t.initiator];
      SetConn(s, c, s.conns[c].WithPush(TRANSACTION(t)))
        .(log := s.log.(issued := s.log.issued[t.initiator := s.log.issued[t.initiator] + [t]]))
    case DoTerminate(m) =>
      var c := cfg.holder[m];
      SetConn(s, c, s.conns[c].WithPush(TERMINATE(m))).(asked := s.asked + {m})
    case DoHop(c, h) => SetConn(s, c, s.conns[c].AfterHop(cfg.capacity, cfg.pop, h))
    case DoPop(c) => SetConn(s, c, s.conns[c].(bridge := s.conns[c].bridge.Popped(cfg.pop)))
    case DoTake(c) => Routed(cfg, SetConn(s, c, s.conns[c].(rx := [])), s.conns[c].rx[0])
    case DoGive =>
      var d := s.route.dest;
      SetConn(s, d, s.conns[d].(tx := [s.route.msg])).(route := Taking)
    case DoSendDone =>
      var d := s.route.next;
      SetConn(s, d, s.conns[d].(tx := [DONE])).(route := Finishing(d + 1))
    case DoLeave => s.(route := Exited, wg := s.wg - 1)
    case DoHandle(c) =>
      var b := s.conns[c].bridge;
      SetConn(s, c, s.conns[c].(bridge := b.Handled()))
        .(log := if b.reader.txn.IsRequest()
                 then s.log.(served := s.log.served[c := s.log.served[c] + [b.reader.txn]]) else s.log)
  }

  ghost predicate InitConn(cfg: Config, c: nat, k: Conn)
    requires cfg.Valid()
  {
    && k.up == k.rx == k.tx == k.down == [] && k.rxOpen && k.txOpen
    && k.bridge.q == Start<Msg>().q && k.bridge.writer == [] && k.bridge.reader == Receiving
    && InitLane(cfg, c, Lane([], [], [], k.bridge.books))
  }

  ghost predicate InitSession(cfg: Config, s: Session)
    requires cfg.Valid()
  {
    && |s.conns| == cfg.clients
    && s.route == Taking
    && s.masterCount == MasterCount(cfg.ips)
    && s.wg == 2 * cfg.clients + 1
    && s.asked == {} && s.retired == {}
    && s.log.taken == [] && s.log.served == seq(cfg.clients, (_) => [])
    && (forall m: nat :: m in s.log.issued <==> cfg.IsMaster(m))
    && (forall m :: m in s.log.issued ==> s.log.issued[m] == [])
    && (forall c :: 0 <= c < cfg.clients ==> InitConn(cfg, c, s.conns[c]))
  }

  /** The application keeps to the interface: after terminate a master issues
      nothing; it terminates once, when all its promises are set. */
  ghost predicate Polite(cfg: Config, s: Session, a: Act) {
    match a
    case DoIssue(t) => t.initiator !in s.asked
    case DoTerminate(m) => m !in s.asked && AllSet(cfg, s, m)
    case _ => true
  }

  /** Every request that the master has issued has its promise set. */
  ghost predicate AllSet(cfg: Config, s: Session, m: nat) {
    m in s.log.issued && m < |cfg.holder| && cfg.holder[m] < |s.conns| ==>
      forall id: nat :: id < |s.log.issued[m]| ==> Key(m, id) in s.conns[cfg.holder[m]].bridge.books.promises
  }

  /** s' is reached from s by these steps. */
  ghost predicate Run(cfg: Config, s: Session, acts: seq<Act>, s': Session)
    requires cfg.Valid()
    decreases acts
  {
    if acts == [] then s' == s
    else Enabled(cfg, s, acts[0]) && Run(cfg, Apply(cfg, s, acts[0]), acts[1..], s')
  }

  ghost predicate PoliteRun(cfg: Config, s: Session, acts: seq<Act>, s': Session)
    requires cfg.Valid()
    decreases acts
  {
    if acts == [] then s' == s
    else Enabled(cfg, s, acts[0]) && Polite(cfg, s, acts[0]) && PoliteRun(cfg, Apply(cfg, s, acts[0]), acts[1..], s')
  }
}
