/** The end of a session: where DONE messages can be, what the wait group counts,
    and that no writer waits for a notification that will not come. */
module Closing {
  import opened Wire
  import opened FlatMemory
  import opened Monitor
  import opened BridgeThreads
  import opened System
  import opened Refinement

  ghost predicate NoDone(ms: seq<Msg>) { forall j :: 0 <= j < |ms| ==> ms[j] != DONE }

  ghost predicate EndsWithDone(ms: seq<Msg>) {
    ms != [] && ms[|ms| - 1] == DONE && NoDone(ms[..|ms| - 1])
  }

  /** sendDone has given this client its DONE. */
  predicate Given(r: RoutePc, c: nat) {
    r.Exited? || (r.Finishing? && c < r.next)
  }

  /** Before it is given: no DONE on the way down. */
  ghost predicate DownQuiet(k: Conn) {
    k.txOpen && NoDone(k.tx) && NoDone(k.down) && !k.bridge.q.done && !k.bridge.reader.Stopped?
  }

  /** Afterwards: one DONE, behind everything else, until the reader has it. */
  ghost predicate DownClosing(k: Conn) {
    if k.bridge.reader.Stopped? then
      k.bridge.reader.status == Ok && k.down == [] && k.tx == [] && !k.txOpen && k.bridge.q.done
    else
      && !k.bridge.q.done
      && if k.txOpen then k.tx == [DONE] && NoDone(k.down) else k.tx == [] && EndsWithDone(k.down)
  }

  /** The logout: one DONE behind everything else on the way up, after finish. */
  ghost predicate UpClosing(k: Conn) {
    if !k.bridge.q.consumer.Ended? then
      k.rxOpen && NoDone(k.up) && NoDone(k.bridge.writer)
    else
      && k.bridge.q.done
      && if k.bridge.writer != [] then k.bridge.writer == [DONE] && k.rxOpen && NoDone(k.up)
         else if k.rxOpen then EndsWithDone(k.up) else k.up == []
  }

  ghost predicate ConnClosing(r: RoutePc, c: nat, k: Conn) {
    UpClosing(k) && if Given(r, c) then DownClosing(k) else DownQuiet(k)
  }

  /** A writer that waits un-notified, with something to wake up for, is about to
      be notified. */
  ghost predicate Alert(v: Variant, k: Conn) {
    && (k.bridge.q.consumer == Waiting(false) && k.bridge.q.items != [] ==> k.bridge.q.notifies > 0)
    && (k.bridge.q.consumer == Waiting(false) && v.Repaired? && k.bridge.q.done ==> k.bridge.q.notifies > 0)
  }

  function RunningSum(ks: seq<Conn>): nat {
    if ks == [] then 0 else RunningSum(ks[..|ks| - 1]) + ks[|ks| - 1].Running()
  }

  lemma {:induction false} RunningSumUpdate(ks: seq<Conn>, c: nat, k: Conn)
    requires c < |ks|
    ensures RunningSum(ks[c := k]) + ks[c].Running() == RunningSum(ks) + k.Running()
  {
    var n := |ks| - 1;
    if c == n {
      assert ks[c := k][..n] == ks[..n];
    } else {
      assert ks[c := k][..n] == ks[..n][c := k];
      RunningSumUpdate(ks[..n], c, k);
    }
  }

  /** The wait group counts the goroutines that have not returned. */
  ghost predicate WaitGroup(s: Session) {
    s.wg == RunningSum(s.conns) + if s.route.Exited? then 0 else 1
  }

  ghost predicate Orderly(cfg: Config, s: Session) {
    && (s.route.Finishing? ==> s.route.next <= |s.conns|)
    && WaitGroup(s)
    && forall c :: 0 <= c < |s.conns| ==> ConnClosing(s.route, c, s.conns[c]) && Alert(cfg.pop, s.conns[c])
  }

  // ------------------------------------------------------------------- steps

  /** One connection changes and the router's loop is where it was. */
  lemma SetOrderly(cfg: Config, s: Session, c: nat, k: Conn)
    requires Orderly(cfg, s) && c < |s.conns|
    requires ConnClosing(s.route, c, k) && Alert(cfg.pop, k)
    ensures Orderly(cfg, SetConn(s, c, k))
  {
    RunningSumUpdate(s.conns, c, k);
  }

  lemma PushOrderly(cfg: Config, s: Session, c: nat, m: Msg)
    requires Orderly(cfg, s) && c < |s.conns|
    ensures Orderly(cfg, SetConn(s, c, s.conns[c].WithPush(m)))
  {
    assert ConnClosing(s.route, c, s.conns[c]) && Alert(cfg.pop, s.conns[c]);
    SetOrderly(cfg, s, c, s.conns[c].WithPush(m));
  }

  lemma WakeClosing(v: Variant, r: RoutePc, c: nat, k: Conn)
    requires ConnClosing(r, c, k) && ConnShaped(k) && k.bridge.q.consumer.Waiting?
    ensures var k' := k.(bridge := k.bridge.Wakened(v)); ConnClosing(r, c, k') && Alert(v, k')
  {
  }

  lemma SendClosing(v: Variant, r: RoutePc, c: nat, k: Conn)
    requires ConnClosing(r, c, k) && ConnShaped(k) && k.bridge.writer != []
    ensures var k' := k.(bridge := k.bridge.Sent(), up := k.up + k.bridge.writer);
            ConnClosing(r, c, k') && Alert(v, k')
  {
    if k.bridge.q.consumer.Ended? {
      assert (k.up + [DONE])[..|k.up|] == k.up;
    }
  }

  lemma ReadClosing(capacity: nat, v: Variant, r: RoutePc, c: nat, k: Conn)
    requires ConnClosing(r, c, k) && ConnShaped(k) && Alert(v, k) && k.CanHop(capacity, Read)
    ensures var k' := k.AfterHop(capacity, v, Read); ConnClosing(r, c, k') && Alert(v, k')
  {
    if k.bridge.q.consumer.Ended? && k.bridge.writer == [] && |k.up| > 1 {
      assert k.up[..|k.up| - 1][0] == k.up[0];
      assert k.up[1..][..|k.up| - 2] == k.up[..|k.up| - 1][1..];
    }
  }

  lemma WriteClosing(capacity: nat, v: Variant, r: RoutePc, c: nat, k: Conn)
    requires ConnClosing(r, c, k) && ConnShaped(k) && Alert(v, k) && k.CanHop(capacity, Write)
    ensures var k' := k.AfterHop(capacity, v, Write); ConnClosing(r, c, k') && Alert(v, k')
  {
    assert k.tx == [k.tx[0]];
    if k.tx[0].DONE? {
      assert (k.down + [DONE])[..|k.down|] == k.down;
    }
  }

  lemma ReceiveClosing(capacity: nat, v: Variant, r: RoutePc, c: nat, k: Conn)
    requires ConnClosing(r, c, k) && ConnShaped(k) && Alert(v, k) && k.CanHop(capacity, Receive)
    ensures var k' := k.AfterHop(capacity, v, Receive); ConnClosing(r, c, k') && Alert(v, k')
  {
    if Given(r, c) && !k.txOpen && |k.down| > 1 {
      assert k.down[..|k.down| - 1][0] == k.down[0];
      assert k.down[1..][..|k.down| - 2] == k.down[..|k.down| - 1][1..];
    }
  }

  lemma HopOrderly(cfg: Config, s: Session, c: nat, h: Hop)
    requires cfg.Valid() && Orderly(cfg, s) && Shaped(s) && Enabled(cfg, s, DoHop(c, h))
    ensures Orderly(cfg, Apply(cfg, s, DoHop(c, h)))
  {
    var k := s.conns[c];
    assert ConnClosing(s.route, c, k) && Alert(cfg.pop, k) && ConnShaped(k);
    match h {
      case Spurious => WakeClosing(cfg.pop, s.route, c, k);
      case Notify =>
      case Wake => WakeClosing(cfg.pop, s.route, c, k);
      case Send => SendClosing(cfg.pop, s.route, c, k);
      case Read => ReadClosing(cfg.capacity, cfg.pop, s.route, c, k);
      case Write => WriteClosing(cfg.capacity, cfg.pop, s.route, c, k);
      case Receive => ReceiveClosing(cfg.capacity, cfg.pop, s.route, c, k);
    }
    SetOrderly(cfg, s, c, k.AfterHop(cfg.capacity, cfg.pop, h));
  }

  lemma PopClosing(v: Variant, r: RoutePc, c: nat, k: Conn)
    requires ConnClosing(r, c, k) && ConnShaped(k) && k.bridge.q.consumer.Testing?
    ensures var k' := k.(bridge := k.bridge.Popped(v)); ConnClosing(r, c, k') && Alert(v, k')
  {
    var b' := k.bridge.Popped(v);
    if k.bridge.q.items != [] {
      assert k.bridge.q.items[0] != DONE;
      assert b'.writer == [b'.writer[0]] && b'.writer[0] != DONE;
    }
  }

  lemma HandleClosing(v: Variant, r: RoutePc, c: nat, k: Conn)
    requires ConnClosing(r, c, k) && Alert(v, k) && k.bridge.reader.Handling?
    requires k.bridge.Handled().reader == Receiving
    ensures var k' := k.(bridge := k.bridge.Handled()); ConnClosing(r, c, k') && Alert(v, k')
  {
  }

  /** The router's loop moves and no connection changes. */
  lemma RouteOrderly(cfg: Config, s: Session, s': Session)
    requires Orderly(cfg, s) && s'.conns == s.conns && s'.wg == s.wg
    requires s.route.Taking? || s.route.Giving?
    requires s'.route.Taking? || s'.route.Giving? || s'.route == Finishing(0) || s'.route.Crashed?
    ensures Orderly(cfg, s')
  {
    forall c | 0 <= c < |s.conns| ensures ConnClosing(s'.route, c, s'.conns[c]) && Alert(cfg.pop, s'.conns[c]) {
      assert ConnClosing(s.route, c, s.conns[c]);
    }
  }

  lemma TakeOrderly(cfg: Config, s: Session, c: nat)
    requires cfg.Valid() && Orderly(cfg, s) && Enabled(cfg, s, DoTake(c))
    ensures Orderly(cfg, Apply(cfg, s, DoTake(c)))
  {
    var k := s.conns[c];
    assert ConnClosing(s.route, c, k) && Alert(cfg.pop, k);
    SetOrderly(cfg, s, c, k.(rx := []));
    RouteOrderly(cfg, SetConn(s, c, k.(rx := [])), Apply(cfg, s, DoTake(c)));
  }

  lemma GiveOrderly(cfg: Config, s: Session)
    requires cfg.Valid() && Orderly(cfg, s) && Shaped(s) && Enabled(cfg, s, DoGive)
    ensures Orderly(cfg, Apply(cfg, s, DoGive))
  {
    var d := s.route.dest;
    var k := s.conns[d];
    assert ConnClosing(s.route, d, k) && Alert(cfg.pop, k);
    SetOrderly(cfg, s, d, k.(tx := [s.route.msg]));
    RouteOrderly(cfg, SetConn(s, d, k.(tx := [s.route.msg])), Apply(cfg, s, DoGive));
  }

  lemma SendDoneOrderly(cfg: Config, s: Session)
    requires cfg.Valid() && Orderly(cfg, s) && Enabled(cfg, s, DoSendDone)
    ensures Orderly(cfg, Apply(cfg, s, DoSendDone))
  {
    var d, s' := s.route.next, Apply(cfg, s, DoSendDone);
    RunningSumUpdate(s.conns, d, s.conns[d].(tx := [DONE]));
    forall c | 0 <= c < |s'.conns| ensures ConnClosing(s'.route, c, s'.conns[c]) && Alert(cfg.pop, s'.conns[c]) {
      assert ConnClosing(s.route, c, s.conns[c]) && Alert(cfg.pop, s.conns[c]);
    }
  }

  lemma LeaveOrderly(cfg: Config, s: Session)
    requires cfg.Valid() && Orderly(cfg, s) && Enabled(cfg, s, DoLeave)
    ensures Orderly(cfg, Apply(cfg, s, DoLeave))
  {
    var s' := Apply(cfg, s, DoLeave);
    forall c | 0 <= c < |s'.conns| ensures ConnClosing(s'.route, c, s'.conns[c]) && Alert(cfg.pop, s'.conns[c]) {
      assert ConnClosing(s.route, c, s.conns[c]) && Alert(cfg.pop, s.conns[c]);
    }
  }

  lemma PopOrderly(cfg: Config, s: Session, c: nat)
    requires cfg.Valid() && Orderly(cfg, s) && Shaped(s) && Enabled(cfg, s, DoPop(c))
    ensures Orderly(cfg, Apply(cfg, s, DoPop(c)))
  {
    assert ConnClosing(s.route, c, s.conns[c]) && ConnShaped(s.conns[c]);
    PopClosing(cfg.pop, s.route, c, s.conns[c]);
    SetOrderly(cfg, s, c, s.conns[c].(bridge := s.conns[c].bridge.Popped(cfg.pop)));
  }

  lemma HandleOrderly(cfg: Config, s: Session, c: nat)
    requires cfg.Valid() && Orderly(cfg, s) && Enabled(cfg, s, DoHandle(c))
    requires s.conns[c].bridge.Handled().reader == Receiving
    ensures Orderly(cfg, Apply(cfg, s, DoHandle(c)))
  {
    assert ConnClosing(s.route, c, s.conns[c]) && Alert(cfg.pop, s.conns[c]);
    HandleClosing(cfg.pop, s.route, c, s.conns[c]);
    SetOrderly(cfg, s, c, s.conns[c].(bridge := s.conns[c].bridge.Handled()));
  }

  lemma ApplyOrderly(cfg: Config, s: Session, a: Act)
    requires cfg.Valid() && Shaped(s) && Orderly(cfg, s) && Enabled(cfg, s, a)
    requires a.DoHandle? ==> s.conns[a.c].bridge.Handled().reader == Receiving
    ensures Orderly(cfg, Apply(cfg, s, a))
  {
    match a
    case DoIssue(t) => PushOrderly(cfg, s, cfg.holder[t.initiator], TRANSACTION(t));
    case DoTerminate(m) => PushOrderly(cfg, s, cfg.holder[m], TERMINATE(m));
    case DoHop(c, h) => HopOrderly(cfg, s, c, h);
    case DoPop(c) => PopOrderly(cfg, s, c);
    case DoTake(c) => TakeOrderly(cfg, s, c);
    case DoGive => GiveOrderly(cfg, s);
    case DoSendDone => SendDoneOrderly(cfg, s);
    case DoLeave => LeaveOrderly(cfg, s);
    case DoHandle(c) => HandleOrderly(cfg, s, c);
  }

  lemma InitOrderly(cfg: Config, s: Session)
    requires cfg.Valid() && InitSession(cfg, s)
    ensures Orderly(cfg, s)
  {
    forall c | 0 <= c < |s.conns| ensures ConnClosing(s.route, c, s.conns[c]) && Alert(cfg.pop, s.conns[c]) {
      assert InitConn(cfg, c, s.conns[c]);
    }
    forall c | 0 <= c < |s.conns| ensures s.conns[c].Running() == 2 {
      assert InitConn(cfg, c, s.conns[c]);
    }
    AllRunning(s.conns);
  }

  lemma {:induction false} AllRunning(ks: seq<Conn>)
    requires forall c :: 0 <= c < |ks| ==> ks[c].Running() == 2
    ensures RunningSum(ks) == 2 * |ks|
  {
    if ks != [] {
      AllRunning(ks[..|ks| - 1]);
    }
  }

  /** The wait group reaches zero exactly when route() and every reader and writer
      have returned. */
  lemma WaitGroupIsExact(s: Session)
    requires WaitGroup(s)
    ensures s.wg >= 0
    ensures s.wg == 0 <==> s.route.Exited? && forall c :: 0 <= c < |s.conns| ==> !s.conns[c].rxOpen && !s.conns[c].txOpen
  {
    NoneRunning(s.conns);
  }

  lemma {:induction false} NoneRunning(ks: seq<Conn>)
    ensures RunningSum(ks) == 0 <==> forall c :: 0 <= c < |ks| ==> !ks[c].rxOpen && !ks[c].txOpen
  {
    if ks != [] {
      var n := |ks| - 1;
      NoneRunning(ks[..n]);
      assert forall c :: 0 <= c < n ==> ks[..n][c] == ks[c];
    }
  }
}
