/** The started system refines the traffic machine of Traffic: every step of a
    thread or goroutine is one step there, or none.  What that machine keeps is thereby
    kept in every run of the system. */
module Refinement {
  import opened Wire
  import opened FlatMemory
  import opened Monitor
  import opened BridgeThreads
  import opened Traffic
  import opened System
  import FlowPlacement
  import FlowConservation
  import FlowSafety

  // ------------------------------------------------------- the abstraction

  /** The transactions among the messages. */
  function Txns(ms: seq<Msg>): seq<Txn> {
    if ms == [] then []
    else Txns(ms[..|ms| - 1]) + if ms[|ms| - 1].TRANSACTION? then [ms[|ms| - 1].txn] else []
  }

  lemma {:induction false} TxnsConcat(a: seq<Msg>, b: seq<Msg>)
    ensures Txns(a + b) == Txns(a) + Txns(b)
  {
    if b == [] {
      assert a + b == a;
    } else {
      var n := |b| - 1;
      assert (a + b)[..|a + b| - 1] == a + b[..n];
      TxnsConcat(a, b[..n]);
    }
  }

  lemma TxnsSnoc(ms: seq<Msg>, m: Msg)
    ensures Txns(ms + [m]) == Txns(ms) + if m.TRANSACTION? then [m.txn] else []
  {
    assert (ms + [m])[..|ms|] == ms;
  }

  lemma TxnsHead(ms: seq<Msg>)
    requires ms != []
    ensures Txns(ms) == (if ms[0].TRANSACTION? then [ms[0].txn] else []) + Txns(ms[1..])
  {
    assert ms == [ms[0]] + ms[1..];
    TxnsConcat([ms[0]], ms[1..]);
    TxnsSnoc([], ms[0]);
    assert [] + [ms[0]] == [ms[0]];
  }

  /** From the router's reader back to the bridge's writer. */
  function UpPath(k: Conn): seq<Msg> { k.rx + k.up + k.bridge.writer }

  /** From the bridge's socket back to the router's writer. */
  function DownPath(k: Conn): seq<Msg> { k.down + k.tx }

  function Hand(r: Reader): seq<Txn> {
    if r.Handling? then [r.txn] else []
  }

  function LaneOf(k: Conn): Lane {
    Lane(Txns(k.bridge.q.items), Txns(UpPath(k)), Hand(k.bridge.reader) + Txns(DownPath(k)), k.bridge.books)
  }

  function LanesOf(ks: seq<Conn>): (r: seq<Lane>)
    ensures |r| == |ks|
    ensures forall c :: 0 <= c < |ks| ==> r[c] == LaneOf(ks[c])
  {
    seq(|ks|, (c: int) requires 0 <= c < |ks| => LaneOf(ks[c]))
  }

  function SlotOf(r: RoutePc): Option<Parcel> {
    if r.Giving? && r.msg.TRANSACTION? then Some(Parcel(r.msg.txn, r.dest)) else None
  }

  function FlowOf(s: Session): Flow {
    Flow(LanesOf(s.conns), SlotOf(s.route), s.log)
  }

  lemma LanesUpdate(ks: seq<Conn>, c: nat, k: Conn)
    requires c < |ks|
    ensures LanesOf(ks[c := k]) == LanesOf(ks)[c := LaneOf(k)]
  {
  }

  // ------------------------------------------------------ shape of a process

  /** What each program counter means for what the process has in hand. */
  ghost predicate ConnShaped(k: Conn) {
    && |k.rx| <= 1 && |k.tx| <= 1 && |k.bridge.writer| <= 1
    && (k.bridge.q.consumer.Testing? || k.bridge.q.consumer.Waiting? ==> k.bridge.writer == [])
    && (k.bridge.q.consumer.Away? ==> k.bridge.writer != [] && k.bridge.writer[0] != DONE)
    && (k.bridge.q.consumer.Ended? ==> k.bridge.writer == [] || k.bridge.writer == [DONE])
    && (!k.rxOpen ==> k.rx == []) && (!k.txOpen ==> k.tx == [])
    && (forall j :: 0 <= j < |k.rx| ==> k.rx[j] != DONE)
    && (forall j :: 0 <= j < |k.bridge.q.items| ==> k.bridge.q.items[j] != DONE)
    && (forall j :: 0 <= j < |k.tx| ==> !k.tx[j].TERMINATE?)
    && (forall j :: 0 <= j < |k.down| ==> !k.down[j].TERMINATE?)
  }

  ghost predicate Shaped(s: Session) {
    && (s.route.Giving? ==> s.route.msg.TRANSACTION?)
    && forall c :: 0 <= c < |s.conns| ==> ConnShaped(s.conns[c])
  }

  lemma HopShaped(k: Conn, capacity: nat, v: Variant, h: Hop)
    requires ConnShaped(k) && k.CanHop(capacity, h)
    ensures ConnShaped(k.AfterHop(capacity, v, h))
  {
  }

  lemma PopShaped(k: Conn, v: Variant)
    requires ConnShaped(k) && k.bridge.q.consumer.Testing?
    ensures ConnShaped(k.(bridge := k.bridge.Popped(v)))
  {
  }

  lemma HandleShaped(k: Conn)
    requires ConnShaped(k) && k.bridge.reader.Handling?
    ensures ConnShaped(k.(bridge := k.bridge.Handled()))
  {
  }

  lemma SetShaped(s: Session, c: nat, k: Conn)
    requires Shaped(s) && c < |s.conns| && ConnShaped(k)
    ensures Shaped(SetConn(s, c, k))
  {
  }

  lemma ClientShaped(cfg: Config, s: Session, a: Act)
    requires cfg.Valid() && Shaped(s) && Enabled(cfg, s, a) && (a.DoIssue? || a.DoTerminate? || a.DoPop? || a.DoHandle?)
    ensures Shaped(Apply(cfg, s, a))
  {
    match a
    case DoIssue(t) => SetShaped(s, cfg.holder[t.initiator], s.conns[cfg.holder[t.initiator]].WithPush(TRANSACTION(t)));
    case DoTerminate(m) => SetShaped(s, cfg.holder[m], s.conns[cfg.holder[m]].WithPush(TERMINATE(m)));
    case DoPop(c) => PopShaped(s.conns[c], cfg.pop);
    case DoHandle(c) => HandleShaped(s.conns[c]);
  }

  lemma RouterShaped(cfg: Config, s: Session, a: Act)
    requires cfg.Valid() && Shaped(s) && Enabled(cfg, s, a) && (a.DoTake? || a.DoGive? || a.DoSendDone? || a.DoLeave?)
    ensures Shaped(Apply(cfg, s, a))
  {
    match a
    case DoTake(c) => SetShaped(s, c, s.conns[c].(rx := []));
    case DoGive => SetShaped(s, s.route.dest, s.conns[s.route.dest].(tx := [s.route.msg]));
    case DoSendDone => SetShaped(s, s.route.next, s.conns[s.route.next].(tx := [DONE]));
    case DoLeave =>
  }

  lemma ApplyShaped(cfg: Config, s: Session, a: Act)
    requires cfg.Valid() && Shaped(s) && Enabled(cfg, s, a)
    ensures Shaped(Apply(cfg, s, a))
  {
    if a.DoHop? {
      HopShaped(s.conns[a.c], cfg.capacity, cfg.pop, a.h);
      SetShaped(s, a.c, s.conns[a.c].AfterHop(cfg.capacity, cfg.pop, a.h));
    } else if a.DoTake? || a.DoGive? || a.DoSendDone? || a.DoLeave? {
      RouterShaped(cfg, s, a);
    } else {
      ClientShaped(cfg, s, a);
    }
  }

  // -------------------------------------------------------------- refinement

  ghost predicate Safe(cfg: Config, s: Session)
    requires cfg.Valid()
  {
    Shaped(s) && FlowSafety.Inv(cfg, FlowOf(s))
  }

  lemma SendKeepsLane(k: Conn)
    requires ConnShaped(k)
    ensures LaneOf(k.(bridge := k.bridge.Sent(), up := k.up + k.bridge.writer)) == LaneOf(k)
  {
    assert UpPath(k.(bridge := k.bridge.Sent(), up := k.up + k.bridge.writer)) == UpPath(k);
  }

  /** Reading from the socket moves its first message along the way up, or takes
      the logout off it. */
  lemma ReadPath(k: Conn)
    requires k.rx == [] && k.up != []
    ensures UpPath(k.(up := k.up[1..], rx := [k.up[0]])) == UpPath(k)
    ensures UpPath(k) == [k.up[0]] + UpPath(k.(up := k.up[1..], rxOpen := false))
  {
    assert [k.up[0]] + k.up[1..] == k.up;
    assert [] + k.up == k.up && [] + k.up[1..] == k.up[1..];
  }

  lemma ReadKeepsLane(k: Conn, capacity: nat, v: Variant)
    requires k.CanHop(capacity, Read)
    ensures LaneOf(k.AfterHop(capacity, v, Read)) == LaneOf(k)
  {
    ReadPath(k);
    if k.up[0].DONE? {
      TxnsConcat([DONE], UpPath(k.(up := k.up[1..], rxOpen := false)));
      TxnsDone();
    }
  }

  lemma ReceiveKeepsLane(k: Conn)
    requires k.bridge.reader.Receiving? && k.down != []
    ensures LaneOf(k.(down := k.down[1..], bridge := k.bridge.Received(k.down[0]))) == LaneOf(k)
  {
    var b' := k.bridge.Received(k.down[0]);
    var k' := k.(down := k.down[1..], bridge := b');
    assert DownPath(k)[0] == k.down[0] && DownPath(k)[1..] == DownPath(k');
    TxnsHead(DownPath(k));
    assert Hand(b'.reader) == if k.down[0].TRANSACTION? then [k.down[0].txn] else [];
    assert b'.q.items == k.bridge.q.items && b'.books == k.bridge.books && UpPath(k') == UpPath(k);
  }

  /** A hop leaves the ways of the transactions as they are. */
  lemma HopKeepsLane(k: Conn, capacity: nat, v: Variant, h: Hop)
    requires ConnShaped(k) && k.CanHop(capacity, h)
    ensures LaneOf(k.AfterHop(capacity, v, h)) == LaneOf(k)
  {
    match h
    case Notify => assert UpPath(k.AfterHop(capacity, v, h)) == UpPath(k);
    case Spurious => WakeKeepsLane(k, v);
    case Wake => WakeKeepsLane(k, v);
    case Send => SendKeepsLane(k);
    case Read => ReadKeepsLane(k, capacity, v);
    case Write => assert DownPath(k.AfterHop(capacity, v, h)) == DownPath(k);
    case Receive => ReceiveKeepsLane(k);
  }

  lemma WakeKeepsLane(k: Conn, v: Variant)
    requires ConnShaped(k) && k.bridge.q.consumer.Waiting?
    ensures LaneOf(k.(bridge := k.bridge.Wakened(v))) == LaneOf(k)
  {
    var k' := k.(bridge := k.bridge.Wakened(v));
    assert UpPath(k') == UpPath(k) + k'.bridge.writer;
    TxnsConcat(UpPath(k), k'.bridge.writer);
    TxnsDone();
  }

  lemma SameLane(s: Session, c: nat, k: Conn)
    requires c < |s.conns| && LaneOf(k) == LaneOf(s.conns[c])
    ensures LanesOf(SetConn(s, c, k).conns) == LanesOf(s.conns)
  {
    LanesUpdate(s.conns, c, k);
  }

  lemma HopIsNoStep(cfg: Config, s: Session, a: Act)
    requires cfg.Valid() && Shaped(s) && Enabled(cfg, s, a)
    requires a.DoHop? || a.DoSendDone? || a.DoLeave? || a.DoTerminate?
    ensures FlowOf(Apply(cfg, s, a)) == FlowOf(s)
  {
    match a
    case DoTerminate(m) =>
      var k := s.conns[cfg.holder[m]];
      TxnsSnoc(k.bridge.q.items, TERMINATE(m));
      SameLane(s, cfg.holder[m], k.WithPush(TERMINATE(m)));
    case DoHop(c, h) =>
      HopKeepsLane(s.conns[c], cfg.capacity, cfg.pop, h);
      SameLane(s, c, s.conns[c].AfterHop(cfg.capacity, cfg.pop, h));
    case DoSendDone =>
      var k := s.conns[s.route.next];
      var k' := k.(tx := [DONE]);
      assert DownPath(k') == DownPath(k) + [DONE];
      TxnsSnoc(DownPath(k), DONE);
      SameLane(s, s.route.next, k');
    case DoLeave =>
  }

  lemma TxnsDone()
    ensures Txns([DONE]) == []
  {
    assert [DONE][..0] == [];
  }

  lemma IssueRefines(cfg: Config, s: Session, t: Txn)
    requires cfg.Valid() && Safe(cfg, s) && Enabled(cfg, s, DoIssue(t))
    ensures FlowOf(Apply(cfg, s, DoIssue(t))) == Issue(cfg, FlowOf(s), t) && CanIssue(cfg, FlowOf(s), t)
  {
    var c := cfg.holder[t.initiator];
    var k, k' := s.conns[c], Apply(cfg, s, DoIssue(t)).conns[c];
    TxnsSnoc(k.bridge.q.items, TRANSACTION(t));
    assert UpPath(k') == UpPath(k) && DownPath(k') == DownPath(k);
    LanesUpdate(s.conns, c, k');
  }

  /** The lane after a pop that starts on a transaction. */
  lemma PopLane(k: Conn, v: Variant)
    requires ConnShaped(k) && k.bridge.q.consumer.Testing?
    requires k.bridge.q.items != [] && k.bridge.q.items[0].TRANSACTION?
    requires k.bridge.q.items[0].txn.IsRequest() ==> k.bridge.books.KnowsMaster(k.bridge.q.items[0].txn)
    ensures LaneCanDispatch(LaneOf(k)) && LaneOf(k.(bridge := k.bridge.Popped(v))) == LaneDispatch(LaneOf(k))
  {
    var k' := k.(bridge := k.bridge.Popped(v));
    var t := k.bridge.q.items[0].txn;
    TxnsHead(k.bridge.q.items);
    assert LaneOf(k).queue[0] == t && LaneOf(k).queue[1..] == Txns(k.bridge.q.items[1..]);
    assert UpPath(k') == UpPath(k) + [k'.bridge.writer[0]];
    TxnsSnoc(UpPath(k), k'.bridge.writer[0]);
  }

  /** A message that is no transaction does not show on the way up. */
  lemma OtherOnTheWay(k: Conn, b': BridgeState, m: Msg)
    requires k.bridge.writer == [] && b'.writer == [m] && !m.TRANSACTION?
    requires Txns(b'.q.items) == Txns(k.bridge.q.items) && b'.books == k.bridge.books && b'.reader == k.bridge.reader
    ensures LaneOf(k.(bridge := b')) == LaneOf(k)
  {
    assert UpPath(k.(bridge := b')) == UpPath(k) + [m];
    TxnsSnoc(UpPath(k), m);
  }

  lemma PopOther(k: Conn, v: Variant)
    requires k.bridge.writer == [] && k.bridge.q.consumer.Testing?
    requires k.bridge.q.items != [] ==> !k.bridge.q.items[0].TRANSACTION?
    ensures LaneOf(k.(bridge := k.bridge.Popped(v))) == LaneOf(k)
  {
    if k.bridge.q.items != [] {
      TxnsHead(k.bridge.q.items);
      OtherOnTheWay(k, k.bridge.Popped(v), k.bridge.q.items[0]);
    } else if Tested(v, k.bridge.q).consumer.Ended? {
      OtherOnTheWay(k, k.bridge.Popped(v), DONE);
    }
  }

  lemma PopRefines(cfg: Config, s: Session, c: nat)
    requires cfg.Valid() && Safe(cfg, s) && Enabled(cfg, s, DoPop(c))
    ensures var f, f' := FlowOf(s), FlowOf(Apply(cfg, s, DoPop(c)));
            f' == f || (CanDispatch(f, c) && f' == Dispatch(f, c))
  {
    var k := s.conns[c];
    var k' := k.(bridge := k.bridge.Popped(cfg.pop));
    LanesUpdate(s.conns, c, k');
    if k.bridge.q.items != [] && k.bridge.q.items[0].TRANSACTION? {
      TxnsHead(k.bridge.q.items);
      PopDispatches(cfg, FlowOf(s), c, k.bridge.q.items[0].txn);
      PopLane(k, cfg.pop);
    } else {
      assert ConnShaped(k);
      PopOther(k, cfg.pop);
      assert FlowOf(Apply(cfg, s, DoPop(c))).lanes == FlowOf(s).lanes;
    }
  }

  lemma PopDispatches(cfg: Config, f: Flow, c: nat, t: Txn)
    requires cfg.Valid() && FlowSafety.Inv(cfg, f) && c < |f.lanes|
    requires f.lanes[c].queue != [] && f.lanes[c].queue[0] == t
    ensures CanDispatch(f, c) && (t.IsRequest() ==> f.lanes[c].books.KnowsMaster(t))
  {
    assert FlowPlacement.LanePlaced(cfg, c, f.lanes[c]);
    assert FlowPlacement.Outbound(cfg, f.lanes[c], f.lanes[c].queue[0]);
  }

  lemma TakeLane(k: Conn)
    requires ConnShaped(k) && k.rx != []
    ensures k.rx[0].TRANSACTION? ==> LaneOf(k).up != [] && LaneOf(k).up[0] == k.rx[0].txn
    ensures LaneOf(k.(rx := [])) == LaneOf(k).(up := if k.rx[0].TRANSACTION? then LaneOf(k).up[1..] else LaneOf(k).up)
  {
    var k' := k.(rx := []);
    assert UpPath(k)[0] == k.rx[0] && UpPath(k)[1..] == UpPath(k');
    TxnsHead(UpPath(k));
  }

  /** What comes up from a client names a master of the list. */
  lemma UpHeadIsKnown(cfg: Config, f: Flow, c: nat)
    requires cfg.Valid() && FlowSafety.Inv(cfg, f) && c < |f.lanes| && f.lanes[c].up != []
    ensures f.lanes[c].up[0].initiator < |cfg.ips|
  {
    assert FlowPlacement.LanePlaced(cfg, c, f.lanes[c]);
    assert FlowPlacement.Outbound(cfg, f.lanes[c], f.lanes[c].up[0]);
  }

  /** What route() does with a message, seen from the traffic machine. */
  lemma RoutedFlow(cfg: Config, s: Session, m: Msg)
    requires cfg.Valid() && s.route.Taking? && (m.TRANSACTION? ==> m.txn.initiator < |cfg.ips|)
    ensures var s' := Routed(cfg, s, m);
            && s'.conns == s.conns
            && (m.TRANSACTION? ==>
                  && SlotOf(s'.route) == Some(Route(cfg, m.txn))
                  && s'.log == s.log.(taken := s.log.taken + if m.txn.IsRequest() then [m.txn] else []))
            && (!m.TRANSACTION? ==> SlotOf(s'.route) == None && s'.log == s.log)
  {
  }

  lemma TakeIsStep(cfg: Config, s: Session, c: nat)
    requires cfg.Valid() && Enabled(cfg, s, DoTake(c)) && ConnShaped(s.conns[c])
    requires s.conns[c].rx[0].TRANSACTION? ==> s.conns[c].rx[0].txn.initiator < |cfg.ips|
    ensures var f, f' := FlowOf(s), FlowOf(Apply(cfg, s, DoTake(c)));
            f' == f || (CanTake(cfg, f, c) && f' == Take(cfg, f, c))
  {
    var k, f, s' := s.conns[c], FlowOf(s), Apply(cfg, s, DoTake(c));
    TakeLane(k);
    RoutedFlow(cfg, SetConn(s, c, k.(rx := [])), k.rx[0]);
    LanesUpdate(s.conns, c, k.(rx := []));
    assert LanesOf(s'.conns) == LanesOf(s.conns)[c := LaneOf(k.(rx := []))];
  }

  lemma TakeRefines(cfg: Config, s: Session, c: nat)
    requires cfg.Valid() && Safe(cfg, s) && Enabled(cfg, s, DoTake(c))
    ensures var f, f' := FlowOf(s), FlowOf(Apply(cfg, s, DoTake(c)));
            f' == f || (CanTake(cfg, f, c) && f' == Take(cfg, f, c))
  {
    assert ConnShaped(s.conns[c]);
    TakeLane(s.conns[c]);
    if s.conns[c].rx[0].TRANSACTION? {
      UpHeadIsKnown(cfg, FlowOf(s), c);
    }
    TakeIsStep(cfg, s, c);
  }

  lemma GiveLane(k: Conn, t: Txn)
    requires k.tx == []
    ensures LaneOf(k.(tx := [TRANSACTION(t)])) == LaneOf(k).(down := LaneOf(k).down + [t])
  {
    var k' := k.(tx := [TRANSACTION(t)]);
    assert DownPath(k') == DownPath(k) + [TRANSACTION(t)] && UpPath(k') == UpPath(k);
    TxnsSnoc(DownPath(k), TRANSACTION(t));
  }

  lemma GiveRefines(cfg: Config, s: Session)
    requires cfg.Valid() && Safe(cfg, s) && Enabled(cfg, s, DoGive)
    ensures CanGive(FlowOf(s)) && FlowOf(Apply(cfg, s, DoGive)) == Give(FlowOf(s))
  {
    var d := s.route.dest;
    GiveLane(s.conns[d], s.route.msg.txn);
    LanesUpdate(s.conns, d, s.conns[d].(tx := [s.route.msg]));
  }

  lemma HandleLane(k: Conn)
    requires k.bridge.reader.Handling? && LaneCanHandle(LaneOf(k)) && LaneOf(k).down[0] == k.bridge.reader.txn
    ensures var k' := k.(bridge := k.bridge.Handled());
            LaneOf(k') == LaneHandle(LaneOf(k)) && k'.bridge.reader == Receiving
  {
    var t := k.bridge.reader.txn;
    var k' := k.(bridge := k.bridge.Handled());
    assert LaneOf(k).down[1..] == Txns(DownPath(k));
    assert UpPath(k') == UpPath(k) && DownPath(k') == DownPath(k);
    if t.IsRequest() {
      TxnsSnoc(k.bridge.q.items, TRANSACTION(k.bridge.books.Reply(t)));
    }
  }

  lemma HandleRefines(cfg: Config, s: Session, c: nat)
    requires cfg.Valid() && Safe(cfg, s) && Enabled(cfg, s, DoHandle(c))
    ensures CanHandle(FlowOf(s), c) && FlowOf(Apply(cfg, s, DoHandle(c))) == Handle(FlowOf(s), c)
    ensures Apply(cfg, s, DoHandle(c)).conns[c].bridge.reader == Receiving
  {
    var k := s.conns[c];
    assert LaneOf(k).down[0] == k.bridge.reader.txn;
    FlowConservation.NothingIsUnknown(cfg, FlowOf(s), c);
    HandleLane(k);
    LanesUpdate(s.conns, c, k.(bridge := k.bridge.Handled()));
  }

  lemma IssueNext(cfg: Config, s: Session, t: Txn)
    requires cfg.Valid() && Safe(cfg, s) && Enabled(cfg, s, DoIssue(t))
    ensures Next(cfg, FlowOf(s), FlowOf(Apply(cfg, s, DoIssue(t))))
  {
    var f, f' := FlowOf(s), FlowOf(Apply(cfg, s, DoIssue(t)));
    IssueRefines(cfg, s, t);
    assert NextBy(cfg, f, StepIssue(t), f');
  }

  lemma PopNext(cfg: Config, s: Session, c: nat)
    requires cfg.Valid() && Safe(cfg, s) && Enabled(cfg, s, DoPop(c))
    ensures Next(cfg, FlowOf(s), FlowOf(Apply(cfg, s, DoPop(c))))
  {
    var f, f' := FlowOf(s), FlowOf(Apply(cfg, s, DoPop(c)));
    PopRefines(cfg, s, c);
    assert f' == f || NextBy(cfg, f, StepDispatch(c), f');
  }

  lemma TakeNext(cfg: Config, s: Session, c: nat)
    requires cfg.Valid() && Safe(cfg, s) && Enabled(cfg, s, DoTake(c))
    ensures Next(cfg, FlowOf(s), FlowOf(Apply(cfg, s, DoTake(c))))
  {
    var f, f' := FlowOf(s), FlowOf(Apply(cfg, s, DoTake(c)));
    TakeRefines(cfg, s, c);
    assert f' == f || NextBy(cfg, f, StepTake(c), f');
  }

  lemma GiveNext(cfg: Config, s: Session)
    requires cfg.Valid() && Safe(cfg, s) && Enabled(cfg, s, DoGive)
    ensures Next(cfg, FlowOf(s), FlowOf(Apply(cfg, s, DoGive)))
  {
    var f, f' := FlowOf(s), FlowOf(Apply(cfg, s, DoGive));
    GiveRefines(cfg, s);
    assert NextBy(cfg, f, StepGive, f');
  }

  lemma HandleNext(cfg: Config, s: Session, c: nat)
    requires cfg.Valid() && Safe(cfg, s) && Enabled(cfg, s, DoHandle(c))
    ensures Next(cfg, FlowOf(s), FlowOf(Apply(cfg, s, DoHandle(c))))
  {
    var f, f' := FlowOf(s), FlowOf(Apply(cfg, s, DoHandle(c)));
    HandleRefines(cfg, s, c);
    assert NextBy(cfg, f, StepHandle(c), f');
  }

  /** Every step of the system is at most one step of the traffic machine. */
  lemma StepRefines(cfg: Config, s: Session, a: Act)
    requires cfg.Valid() && Safe(cfg, s) && Enabled(cfg, s, a)
    ensures Next(cfg, FlowOf(s), FlowOf(Apply(cfg, s, a)))
  {
    match a
    case DoIssue(t) => IssueNext(cfg, s, t);
    case DoPop(c) => PopNext(cfg, s, c);
    case DoTake(c) => TakeNext(cfg, s, c);
    case DoGive => GiveNext(cfg, s);
    case DoHandle(c) => HandleNext(cfg, s, c);
    case _ => HopIsNoStep(cfg, s, a);
  }

  lemma InitSafe(cfg: Config, s: Session)
    requires cfg.Valid() && InitSession(cfg, s)
    ensures Safe(cfg, s) && InitFlow(cfg, FlowOf(s))
  {
    forall c | 0 <= c < |s.conns|
      ensures ConnShaped(s.conns[c]) && InitLane(cfg, c, FlowOf(s).lanes[c])
    {
      assert InitConn(cfg, c, s.conns[c]);
    }
    FlowSafety.InitInv(cfg, FlowOf(s));
  }

  lemma ApplySafe(cfg: Config, s: Session, a: Act)
    requires cfg.Valid() && cfg.Routable() && Safe(cfg, s) && Enabled(cfg, s, a)
    ensures Safe(cfg, Apply(cfg, s, a))
  {
    StepRefines(cfg, s, a);
    ApplyShaped(cfg, s, a);
    FlowSafety.NextInv(cfg, FlowOf(s), FlowOf(Apply(cfg, s, a)));
  }

  /** Every reachable state of the system is safe. */
  lemma {:induction false} RunSafe(cfg: Config, s: Session, acts: seq<Act>, s': Session)
    requires cfg.Valid() && cfg.Routable() && Safe(cfg, s) && Run(cfg, s, acts, s')
    ensures Safe(cfg, s')
    decreases acts
  {
    if acts != [] {
      ApplySafe(cfg, s, acts[0]);
      RunSafe(cfg, Apply(cfg, s, acts[0]), acts[1..], s');
    }
  }
}
