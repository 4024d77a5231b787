/** A measure that every step of the system lowers, so that a finite amount of
    issued work is done within a number of steps that the state tells. */
module Termination {
  import opened Wire
  import opened FlatMemory
  import opened Monitor
  import opened BridgeThreads
  import opened System
  import opened Refinement
  import opened Progress

  // ------------------------------------------------------------------- costs

  /** The hops that a message at this place still has to make: down and up again
      for a request, one way for the others; each hop counts eight. */
  function MsgCost(m: Msg, place: nat): nat {
    8 * (place + if m.TRANSACTION? && m.txn.IsRequest() then 8 else 0)
  }

  function Cost(ms: seq<Msg>, place: nat): nat {
    if ms == [] then 0 else Cost(ms[..|ms| - 1], place) + MsgCost(ms[|ms| - 1], place)
  }

  lemma CostSnoc(ms: seq<Msg>, m: Msg, place: nat)
    ensures Cost(ms + [m], place) == Cost(ms, place) + MsgCost(m, place)
  {
    assert (ms + [m])[..|ms|] == ms;
  }

  lemma CostOne(m: Msg, place: nat)
    ensures Cost([m], place) == MsgCost(m, place)
  {
    CostSnoc([], m, place);
    assert [] + [m] == [m];
  }

  lemma {:induction false} CostHead(ms: seq<Msg>, place: nat)
    requires ms != []
    ensures Cost(ms, place) == MsgCost(ms[0], place) + Cost(ms[1..], place)
  {
    var n := |ms| - 1;
    if n == 0 {
      CostOne(ms[0], place);
      assert ms == [ms[0]];
    } else {
      CostHead(ms[..n], place);
      assert ms[1..][..n - 1] == ms[..n][1..];
    }
  }

  /** Waking up and looking again is work, and so is the logout to come. */
  function ConsumerCost(c: Consumer): nat {
    match c
    case Testing => 65
    case Waiting(notified) => if notified then 66 else 64
    case Away => 64
    case Ended => 0
  }

  function HandCost(r: Reader): nat {
    if r.Handling? then MsgCost(TRANSACTION(r.txn), 1) else 0
  }

  function BridgeCost(b: BridgeState): nat {
    Cost(b.q.items, 8) + Cost(b.writer, 7) + HandCost(b.reader) + 3 * b.q.notifies + ConsumerCost(b.q.consumer)
  }

  function ConnCost(k: Conn): nat {
    BridgeCost(k.bridge) + Cost(k.up, 6) + Cost(k.rx, 5) + Cost(k.tx, 3) + Cost(k.down, 2)
  }

  function ConnsCost(ks: seq<Conn>): nat {
    if ks == [] then 0 else ConnsCost(ks[..|ks| - 1]) + ConnCost(ks[|ks| - 1])
  }

  /** The shutdown to come, and what route() holds. */
  function RouteCost(r: RoutePc, n: nat): nat {
    match r
    case Taking => 32 * n + 2
    case Giving(m, _) => 32 * n + 2 + MsgCost(m, 4)
    case Finishing(i) => (if i <= n then 32 * (n - i) else 0) + 1
    case Exited => 0
    case Crashed => 0
  }

  function Measure(s: Session): nat {
    ConnsCost(s.conns) + RouteCost(s.route, |s.conns|)
  }

  lemma {:induction false} ConnsCostUpdate(ks: seq<Conn>, c: nat, k: Conn)
    requires c < |ks|
    ensures ConnsCost(ks[c := k]) + ConnCost(ks[c]) == ConnsCost(ks) + ConnCost(k)
  {
    var n := |ks| - 1;
    if c == n {
      assert ks[c := k][..n] == ks[..n];
    } else {
      assert ks[c := k][..n] == ks[..n][c := k];
      ConnsCostUpdate(ks[..n], c, k);
    }
  }

  // ------------------------------------------------------------------- steps

  lemma WakeLowers(b: BridgeState, v: Variant)
    requires b.q.consumer == Waiting(true) && b.writer == []
    ensures BridgeCost(b.Wakened(v)) < BridgeCost(b)
  {
    CostOne(DONE, 7);
  }

  lemma SendLowers(k: Conn)
    requires ConnShaped(k) && k.bridge.writer != []
    ensures ConnCost(k.(bridge := k.bridge.Sent(), up := k.up + k.bridge.writer)) < ConnCost(k)
  {
    var m := k.bridge.writer[0];
    assert k.bridge.writer == [m];
    CostOne(m, 7);
    CostSnoc(k.up, m, 6);
  }

  lemma ReadLowers(k: Conn, capacity: nat, v: Variant)
    requires k.CanHop(capacity, Read)
    ensures ConnCost(k.AfterHop(capacity, v, Read)) < ConnCost(k)
  {
    CostHead(k.up, 6);
    CostOne(k.up[0], 5);
  }

  lemma WriteLowers(k: Conn, capacity: nat, v: Variant)
    requires ConnShaped(k) && k.CanHop(capacity, Write)
    ensures ConnCost(k.AfterHop(capacity, v, Write)) < ConnCost(k)
  {
    assert k.tx == [k.tx[0]];
    CostOne(k.tx[0], 3);
    CostSnoc(k.down, k.tx[0], 2);
  }

  lemma ReceivedCost(b: BridgeState, m: Msg)
    requires b.reader.Receiving?
    ensures BridgeCost(b.Received(m)) < BridgeCost(b) + MsgCost(m, 2)
  {
  }

  lemma ReceiveLowers(k: Conn, capacity: nat, v: Variant)
    requires k.CanHop(capacity, Receive)
    ensures ConnCost(k.AfterHop(capacity, v, Receive)) < ConnCost(k)
  {
    CostHead(k.down, 2);
    ReceivedCost(k.bridge, k.down[0]);
  }

  lemma HopLowers(k: Conn, capacity: nat, v: Variant, h: Hop)
    requires ConnShaped(k) && k.CanHop(capacity, h) && !h.Spurious?
    ensures ConnCost(k.AfterHop(capacity, v, h)) < ConnCost(k)
  {
    match h
    case Notify =>
    case Wake => WakeLowers(k.bridge, v);
    case Send => SendLowers(k);
    case Read => ReadLowers(k, capacity, v);
    case Write => WriteLowers(k, capacity, v);
    case Receive => ReceiveLowers(k, capacity, v);
  }

  lemma PopLowers(b: BridgeState, v: Variant)
    requires b.q.consumer.Testing? && b.writer == []
    ensures BridgeCost(b.Popped(v)) < BridgeCost(b)
  {
    if b.q.items != [] {
      CostHead(b.q.items, 8);
      CostOne(b.Popped(v).writer[0], 7);
    } else {
      CostOne(DONE, 7);
    }
  }

  lemma HandleLowers(b: BridgeState)
    requires b.reader.Handling? && b.Handled().reader == Receiving
    ensures BridgeCost(b.Handled()) < BridgeCost(b)
  {
    if b.reader.txn.IsRequest() {
      CostSnoc(b.q.items, TRANSACTION(b.books.Reply(b.reader.txn)), 8);
    }
  }

  lemma SetLowers(s: Session, c: nat, k: Conn)
    requires c < |s.conns| && ConnCost(k) < ConnCost(s.conns[c])
    ensures Measure(SetConn(s, c, k)) < Measure(s)
  {
    ConnsCostUpdate(s.conns, c, k);
  }

  lemma RoutedCost(cfg: Config, s: Session, m: Msg)
    requires cfg.Valid() && s.route.Taking?
    ensures Routed(cfg, s, m).conns == s.conns
    ensures RouteCost(Routed(cfg, s, m).route, |s.conns|) < RouteCost(s.route, |s.conns|) + MsgCost(m, 5)
  {
  }

  lemma TakeLowers(cfg: Config, s: Session, c: nat)
    requires cfg.Valid() && Enabled(cfg, s, DoTake(c)) && |s.conns[c].rx| == 1
    ensures Measure(Apply(cfg, s, DoTake(c))) < Measure(s)
  {
    var k := s.conns[c];
    CostOne(k.rx[0], 5);
    assert k.rx == [k.rx[0]];
    ConnsCostUpdate(s.conns, c, k.(rx := []));
    RoutedCost(cfg, SetConn(s, c, k.(rx := [])), k.rx[0]);
  }

  lemma GiveLowers(cfg: Config, s: Session)
    requires cfg.Valid() && Enabled(cfg, s, DoGive)
    ensures Measure(Apply(cfg, s, DoGive)) < Measure(s)
  {
    CostOne(s.route.msg, 3);
    ConnsCostUpdate(s.conns, s.route.dest, s.conns[s.route.dest].(tx := [s.route.msg]));
  }

  lemma SendDoneLowers(cfg: Config, s: Session)
    requires cfg.Valid() && Enabled(cfg, s, DoSendDone)
    ensures Measure(Apply(cfg, s, DoSendDone)) < Measure(s)
  {
    CostOne(DONE, 3);
    ConnsCostUpdate(s.conns, s.route.next, s.conns[s.route.next].(tx := [DONE]));
  }

  lemma StepLowers(cfg: Config, s: Session, a: Act)
    requires cfg.Valid() && Shaped(s) && Enabled(cfg, s, a) && a.Progress()
    requires a.DoHandle? ==> s.conns[a.c].bridge.Handled().reader == Receiving
    ensures Measure(Apply(cfg, s, a)) < Measure(s)
  {
    match a
    case DoHop(c, h) =>
      assert ConnShaped(s.conns[c]);
      HopLowers(s.conns[c], cfg.capacity, cfg.pop, h);
      SetLowers(s, c, s.conns[c].AfterHop(cfg.capacity, cfg.pop, h));
    case DoPop(c) =>
      assert ConnShaped(s.conns[c]);
      PopLowers(s.conns[c].bridge, cfg.pop);
      SetLowers(s, c, s.conns[c].(bridge := s.conns[c].bridge.Popped(cfg.pop)));
    case DoTake(c) =>
      assert ConnShaped(s.conns[c]);
      TakeLowers(cfg, s, c);
    case DoGive => GiveLowers(cfg, s);
    case DoSendDone => SendDoneLowers(cfg, s);
    case DoLeave =>
    case DoHandle(c) =>
      HandleLowers(s.conns[c].bridge);
      SetLowers(s, c, s.conns[c].(bridge := s.conns[c].bridge.Handled()));
  }

  /** Every step that the system takes by itself lowers the measure. */
  lemma ApplyLowers(cfg: Config, s: Session, a: Act)
    requires cfg.Valid() && Safe(cfg, s) && Enabled(cfg, s, a) && a.Progress()
    ensures Measure(Apply(cfg, s, a)) < Measure(s)
  {
    if a.DoHandle? {
      HandleRefines(cfg, s, a.c);
    }
    StepLowers(cfg, s, a);
  }

  // -------------------------------------------------------------- conclusion

  ghost predicate OwnSteps(acts: seq<Act>) {
    forall i :: 0 <= i < |acts| ==> acts[i].Progress()
  }

  /** A spurious wake-up of a bridge's writer. */
  predicate SpuriousStep(a: Act) { a.DoHop? && a.h.Spurious? }

  /** The application does nothing. */
  ghost predicate Undisturbed(acts: seq<Act>) {
    forall i :: 0 <= i < |acts| ==> !acts[i].DoIssue? && !acts[i].DoTerminate?
  }

  /** How many spurious wake-ups there are. */
  function WakeUps(acts: seq<Act>): nat {
    if acts == [] then 0 else (if SpuriousStep(acts[0]) then 1 else 0) + WakeUps(acts[1..])
  }

  /** Looking again costs at most one. */
  lemma SpuriousRaises(k: Conn, capacity: nat, v: Variant)
    requires ConnShaped(k) && k.CanHop(capacity, Spurious)
    ensures ConnCost(k.AfterHop(capacity, v, Spurious)) <= ConnCost(k) + 1
  {
    CostOne(DONE, 7);
  }

  lemma UndisturbedStep(cfg: Config, s: Session, a: Act)
    requires cfg.Valid() && Safe(cfg, s) && Enabled(cfg, s, a) && !a.DoIssue? && !a.DoTerminate?
    ensures Measure(Apply(cfg, s, a)) + 1 <= Measure(s) + if SpuriousStep(a) then 2 else 0
  {
    if SpuriousStep(a) {
      assert ConnShaped(s.conns[a.c]);
      SpuriousRaises(s.conns[a.c], cfg.capacity, cfg.pop);
      ConnsCostUpdate(s.conns, a.c, s.conns[a.c].AfterHop(cfg.capacity, cfg.pop, Spurious));
    } else {
      ApplyLowers(cfg, s, a);
    }
  }

  /** However the steps interleave, as long as the application does nothing there
      are at most Measure(s) of them, and two more for each spurious wake-up. */
  lemma {:induction false} RunsAreBounded(cfg: Config, s: Session, acts: seq<Act>, s': Session)
    requires cfg.Valid() && cfg.Routable() && Good(cfg, s) && Undisturbed(acts) && Run(cfg, s, acts, s')
    ensures |acts| + Measure(s') <= Measure(s) + 2 * WakeUps(acts)
    decreases |acts|
  {
    if acts != [] {
      assert forall i :: 0 <= i < |acts| - 1 ==> acts[1..][i] == acts[i + 1];
      UndisturbedStep(cfg, s, acts[0]);
      ApplyGood(cfg, s, acts[0]);
      RunsAreBounded(cfg, Apply(cfg, s, acts[0]), acts[1..], s');
    }
  }

  lemma OwnStep(cfg: Config, s: Session) returns (a: Act)
    requires cfg.Valid() && cfg.Routable() && Good(cfg, s) && !Stuck(cfg, s)
    ensures a.Progress() && Enabled(cfg, s, a)
    ensures Good(cfg, Apply(cfg, s, a)) && Measure(Apply(cfg, s, a)) < Measure(s)
  {
    a :| a.Progress() && Enabled(cfg, s, a);
    ApplyLowers(cfg, s, a);
    ApplyGood(cfg, s, a);
  }

  lemma Prepend(cfg: Config, s: Session, a: Act, rest: seq<Act>, s': Session)
    requires cfg.Valid() && Enabled(cfg, s, a) && a.Progress() && OwnSteps(rest) && Run(cfg, Apply(cfg, s, a), rest, s')
    ensures OwnSteps([a] + rest) && Run(cfg, s, [a] + rest, s')
  {
    assert ([a] + rest)[1..] == rest;
  }

  /** Left to itself, the system comes to rest. */
  lemma {:induction false} ComesToRest(cfg: Config, s: Session) returns (acts: seq<Act>, s': Session)
    requires cfg.Valid() && cfg.Routable() && Good(cfg, s)
    ensures OwnSteps(acts) && Run(cfg, s, acts, s') && Stuck(cfg, s')
    decreases Measure(s)
  {
    if Stuck(cfg, s) {
      acts, s' := [], s;
    } else {
      var a := OwnStep(cfg, s);
      var rest, end := ComesToRest(cfg, Apply(cfg, s, a));
      Prepend(cfg, s, a, rest, end);
      acts, s' := [a] + rest, end;
    }
  }

  /** Every request that has been issued has its promise set within that many
      steps: a run in which the application does nothing, that can go no further and
      has not come to sendDone, has fulfilled every promise. */
  lemma EveryPromiseIsSet(cfg: Config, s: Session, acts: seq<Act>, s': Session, m: nat)
    requires cfg.Valid() && cfg.Routable() && Good(cfg, s) && Undisturbed(acts) && Run(cfg, s, acts, s')
    requires Routing(s') && Stuck(cfg, s')
    ensures |acts| <= Measure(s) + 2 * WakeUps(acts) && AllSet(cfg, s', m)
  {
    RunsAreBounded(cfg, s, acts, s');
    RunGood(cfg, s, acts, s');
    StuckMeansDone(cfg, s', m);
  }
}
