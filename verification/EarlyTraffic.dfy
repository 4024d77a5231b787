/** Clients that have started while the router still writes its lists may already
    send.  What they have sent is what the started system sends by itself. */
module EarlyTraffic {
  import opened Wire
  import opened AddressMap
  import opened FlatMemory
  import opened Bookkeeping
  import opened System
  import opened Enrolment
  import opened Ownership
  import opened Launch
  import R = RouterClient
  import P = Phases

  /** An operation of the application on a master of client c. */
  predicate Early(cfg: Config, c: nat, a: Act) {
    match a
    case DoIssue(t) => Fresh(t) && cfg.IsMaster(t.initiator) && t.initiator < |cfg.holder| && cfg.holder[t.initiator] == c
    case DoTerminate(m) => cfg.IsMaster(m) && m < |cfg.holder| && cfg.holder[m] == c
    case _ => false
  }

  ghost predicate AllEarly(cfg: Config, c: nat, ops: seq<Act>) {
    forall i :: 0 <= i < |ops| ==> Early(cfg, c, ops[i])
  }

  /** The message that the bridge's writer makes of it, and what it notes down. */
  function Said(b: Books, a: Act): (Msg, Books) {
    match a
    case DoIssue(t) => if t.initiator in b.lastId then (TRANSACTION(b.WithId(t)), b.Record(t)) else (TRANSACTION(t), b)
    case DoTerminate(m) => (TERMINATE(m), b)
    case _ => (DONE, b)
  }

  /** The messages for a list of operations. */
  function SaidAll(b: Books, ops: seq<Act>): (r: seq<Msg>)
    ensures |r| == |ops|
    decreases |ops|
  {
    if ops == [] then [] else [Said(b, ops[0]).0] + SaidAll(Said(b, ops[0]).1, ops[1..])
  }

  /** Nothing has come to or from this client yet but what it has sent. */
  ghost predicate OnlySent(cfg: Config, c: nat, k: Conn)
    requires cfg.Valid()
  {
    && k.bridge.q.items == [] && k.bridge.q.consumer.Testing? && k.bridge.writer == [] && k.bridge.reader.Receiving?
    && k.rx == k.tx == k.down == [] && k.rxOpen && k.txOpen
    && (forall m: nat :: m in k.bridge.books.lastId <==> cfg.IsMaster(m) && cfg.holder[m] == c)
  }

  /** The client's masters can issue so many more requests. */
  ghost predicate IdsFor(cfg: Config, s: Session, c: nat, n: nat) {
    forall m: nat :: cfg.IsMaster(m) && m < |cfg.holder| && cfg.holder[m] == c ==>
      m in s.log.issued && |s.log.issued[m]| + n <= TWO64
  }

  /** One operation, from the application to the socket. */
  lemma OneSent(k: Conn, cfg: Config, c: nat, a: Act, m: Msg)
    requires cfg.Valid() && OnlySent(cfg, c, k) && Early(cfg, c, a) && |k.up| < cfg.capacity
    requires m == if a.DoIssue? then TRANSACTION(a.t) else TERMINATE(a.m)
    ensures var k1 := k.WithPush(m);
            && k1.bridge.q.consumer.Testing?
            && var k2 := k1.(bridge := k1.bridge.Popped(cfg.pop));
            && k2.CanHop(cfg.capacity, Send)
            && var k3 := k2.AfterHop(cfg.capacity, cfg.pop, Send);
            && OnlySent(cfg, c, k3) && k3.up == k.up + [Said(k.bridge.books, a).0]
            && k3.bridge.books == Said(k.bridge.books, a).1
  {
  }

  /** What the application does on other clients' masters is not touched. */
  ghost predicate OthersKeep(cfg: Config, s: Session, s': Session, c: nat) {
    forall m: nat :: m in s.log.issued && m < |cfg.holder| && cfg.holder[m] != c ==>
      m in s'.log.issued && s'.log.issued[m] == s.log.issued[m]
  }

  lemma CanDo(cfg: Config, s: Session, c: nat, a: Act, n: nat)
    requires cfg.Valid() && c < |s.conns| && Early(cfg, c, a) && n > 0 && IdsFor(cfg, s, c, n)
    ensures Enabled(cfg, s, a)
    ensures var s', m := Apply(cfg, s, a), if a.DoIssue? then TRANSACTION(a.t) else TERMINATE(a.m);
            && s'.conns == s.conns[c := s.conns[c].WithPush(m)] && s'.route == s.route
            && IdsFor(cfg, s', c, n - 1) && OthersKeep(cfg, s, s', c)
  {
  }

  /** The writer takes what has been pushed and sends it. */
  lemma PushedIsSent(cfg: Config, s0: Session, acts: seq<Act>, s: Session, c: nat, k: Conn)
      returns (acts': seq<Act>, s': Session)
    requires cfg.Valid() && Run(cfg, s0, acts, s) && c < |s.conns| && s.conns[c] == k && k.bridge.q.consumer.Testing?
    requires k.(bridge := k.bridge.Popped(cfg.pop)).CanHop(cfg.capacity, Send)
    ensures Run(cfg, s0, acts', s') && s'.route == s.route && s'.log == s.log
    ensures s'.conns == s.conns[c := k.(bridge := k.bridge.Popped(cfg.pop)).AfterHop(cfg.capacity, cfg.pop, Send)]
  {
    acts', s' := acts, s;
    RunOnward(cfg, s0, acts', s', DoPop(c));
    acts', s' := acts' + [DoPop(c)], Apply(cfg, s', DoPop(c));
    RunOnward(cfg, s0, acts', s', DoHop(c, Send));
    acts', s' := acts' + [DoHop(c, Send)], Apply(cfg, s', DoHop(c, Send));
  }

  /** From s to s', client c has sent ms, and nothing else has happened. */
  ghost predicate SentBy(cfg: Config, s: Session, s': Session, c: nat, ms: seq<Msg>)
    requires cfg.Valid() && c < |s.conns|
  {
    && |s'.conns| == |s.conns| && s'.conns == s.conns[c := s'.conns[c]] && s'.route == s.route && OthersKeep(cfg, s, s', c)
    && OnlySent(cfg, c, s'.conns[c]) && s'.conns[c].up == s.conns[c].up + ms
  }

  lemma SentThen(cfg: Config, s: Session, s1: Session, s2: Session, c: nat, m: Msg, ms: seq<Msg>)
    requires cfg.Valid() && c < |s.conns| && SentBy(cfg, s, s1, c, [m]) && SentBy(cfg, s1, s2, c, ms)
    ensures SentBy(cfg, s, s2, c, [m] + ms)
  {
    assert s.conns[c].up + [m] + ms == s.conns[c].up + ([m] + ms);
  }

  lemma SendOne(cfg: Config, s0: Session, acts: seq<Act>, s: Session, c: nat, a: Act, n: nat)
      returns (acts': seq<Act>, s': Session)
    requires cfg.Valid() && Run(cfg, s0, acts, s) && c < |s.conns| && OnlySent(cfg, c, s.conns[c])
    requires Early(cfg, c, a) && |s.conns[c].up| < cfg.capacity && n > 0 && IdsFor(cfg, s, c, n)
    ensures Run(cfg, s0, acts', s') && SentBy(cfg, s, s', c, [Said(s.conns[c].bridge.books, a).0])
    ensures s'.conns[c].bridge.books == Said(s.conns[c].bridge.books, a).1 && IdsFor(cfg, s', c, n - 1)
  {
    var k, m := s.conns[c], if a.DoIssue? then TRANSACTION(a.t) else TERMINATE(a.m);
    OneSent(k, cfg, c, a, m);
    CanDo(cfg, s, c, a, n);
    RunOnward(cfg, s0, acts, s, a);
    var k1 := k.WithPush(m);
    var k3 := k1.(bridge := k1.bridge.Popped(cfg.pop)).AfterHop(cfg.capacity, cfg.pop, Send);
    acts', s' := PushedIsSent(cfg, s0, acts + [a], Apply(cfg, s, a), c, k1);
    ReplacedTwice(s.conns, c, k1, k3);
  }

  lemma ReplacedTwice(ks: seq<Conn>, c: nat, k: Conn, k': Conn)
    requires c < |ks|
    ensures ks[c := k][c := k'] == ks[c := k']
  {
  }

  lemma NothingSent(cfg: Config, s: Session, c: nat)
    requires cfg.Valid() && c < |s.conns| && OnlySent(cfg, c, s.conns[c])
    ensures SentBy(cfg, s, s, c, [])
  {
  }

  lemma {:induction false} SendAll(cfg: Config, s0: Session, acts: seq<Act>, s: Session, c: nat, ops: seq<Act>)
      returns (acts': seq<Act>, s': Session)
    requires cfg.Valid() && Run(cfg, s0, acts, s) && c < |s.conns| && OnlySent(cfg, c, s.conns[c])
    requires AllEarly(cfg, c, ops) && |s.conns[c].up| + |ops| <= cfg.capacity && IdsFor(cfg, s, c, |ops|)
    ensures Run(cfg, s0, acts', s') && SentBy(cfg, s, s', c, SaidAll(s.conns[c].bridge.books, ops))
    decreases |ops|
  {
    if ops == [] {
      acts', s' := acts, s;
      NothingSent(cfg, s, c);
    } else {
      var b := s.conns[c].bridge.books;
      FirstIsEarly(cfg, c, ops);
      var acts1, s1 := SendOne(cfg, s0, acts, s, c, ops[0], |ops|);
      acts', s' := SendAll(cfg, s0, acts1, s1, c, ops[1..]);
      SentThen(cfg, s, s1, s', c, Said(b, ops[0]).0, SaidAll(Said(b, ops[0]).1, ops[1..]));
    }
  }

  lemma FirstIsEarly(cfg: Config, c: nat, ops: seq<Act>)
    requires AllEarly(cfg, c, ops) && ops != []
    ensures Early(cfg, c, ops[0]) && AllEarly(cfg, c, ops[1..])
  {
    assert forall i :: 0 <= i < |ops| - 1 ==> ops[1..][i] == ops[i + 1];
  }

  /** The clients in turn. */
  lemma {:induction false} AllSend(cfg: Config, s0: Session, ops: seq<seq<Act>>, n: nat)
      returns (acts: seq<Act>, s: Session)
    requires cfg.Valid() && n <= |ops| == |s0.conns|
    requires forall c :: 0 <= c < n ==> ClientCanSend(cfg, s0, c, ops[c])
    ensures Run(cfg, s0, acts, s) && |s.conns| == |s0.conns| && s.route == s0.route
    ensures forall c :: 0 <= c < n ==>
              OnlySent(cfg, c, s.conns[c]) && s.conns[c].up == SaidAll(s0.conns[c].bridge.books, ops[c])
    ensures forall c :: n <= c < |s.conns| ==> s.conns[c] == s0.conns[c]
    ensures forall c :: n <= c < |s.conns| ==> OthersOf(cfg, s0, s, c)
  {
    acts, s := [], s0;
    if n > 0 {
      var acts1, s1 := AllSend(cfg, s0, ops, n - 1);
      var c := n - 1;
      assert ClientCanSend(cfg, s0, c, ops[c]) && OthersOf(cfg, s0, s1, c);
      StillIds(cfg, s0, s1, c, |ops[c]|);
      acts, s := SendAll(cfg, s0, acts1, s1, c, ops[c]);
      forall b | n <= b < |s.conns| ensures OthersOf(cfg, s0, s, b) {
        assert OthersOf(cfg, s0, s1, b);
      }
    }
  }

  ghost predicate ClientCanSend(cfg: Config, s: Session, c: nat, ops: seq<Act>)
    requires cfg.Valid() && c < |s.conns|
  {
    OnlySent(cfg, c, s.conns[c]) && s.conns[c].up == [] && AllEarly(cfg, c, ops)
    && |ops| <= cfg.capacity && IdsFor(cfg, s, c, |ops|)
  }

  /** The masters of this client have issued nothing since. */
  ghost predicate OthersOf(cfg: Config, s: Session, s': Session, c: nat) {
    forall m: nat :: m in s.log.issued && m < |cfg.holder| && cfg.holder[m] == c ==>
      m in s'.log.issued && s'.log.issued[m] == s.log.issued[m]
  }

  lemma StillIds(cfg: Config, s: Session, s': Session, c: nat, n: nat)
    requires IdsFor(cfg, s, c, n) && OthersOf(cfg, s, s', c)
    ensures IdsFor(cfg, s', c, n)
  {
  }

  // ----------------------------------------------------------------- theorem

  /** The messages as the sockets of the handshake carry them. */
  function Wrapped(ms: seq<Msg>): (r: seq<R.Packet>)
    ensures |r| == |ms| && forall j :: 0 <= j < |ms| ==> r[j] == R.TRAFFIC(ms[j])
  {
    seq(|ms|, (j: int) requires 0 <= j < |ms| => R.TRAFFIC(ms[j]))
  }

  lemma LaunchCanSend(cfg: Config, w: P.World, c: nat, ops: seq<Act>)
    requires cfg.Valid() && |w.sides| == cfg.clients && InitSession(cfg, LaunchSession(cfg, w)) && c < |w.sides|
    requires AllEarly(cfg, c, ops) && |ops| <= cfg.capacity && |ops| < TWO64
    ensures ClientCanSend(cfg, LaunchSession(cfg, w), c, ops)
  {
    assert InitConn(cfg, c, LaunchSession(cfg, w).conns[c]);
  }

  /** A serving world in which clients have already sent: if what is on the way up
      from each client is what its bridge makes of operations on its own masters, and
      fits the sockets, then the started system comes from its start state to where
      exactly these messages are on the way up and nothing else has happened to them. */
  lemma EarlyTrafficIsReached(w0: P.World, trace: seq<P.Act>, w: P.World, cfg: Config, ops: seq<seq<Act>>)
      returns (acts: seq<Act>, s: Session)
    requires P.Init(w0) && P.Run(w0, trace, w) && w.pc.Serving? && Ordinary(Plans(w0)) && cfg.capacity > 0
    requires cfg == LaunchConfig(w, cfg.boot, cfg.rom, cfg.capacity, cfg.pop, cfg.terminate)
    requires |cfg.boot| == |cfg.ips| && forall i :: 0 <= i < |cfg.ips| ==> |cfg.boot[i]| == cfg.ips[i].size
    requires w.overlap.Repaired? || Disjoint(w.reg.ips)
    requires |ops| == |w.sides| && forall c :: 0 <= c < |ops| ==>
               && AllEarly(cfg, c, ops[c]) && |ops[c]| <= cfg.capacity && |ops[c]| < TWO64
               && w.sides[c].up == Wrapped(SaidAll(LaunchBooks(cfg, w.sides[c]), ops[c]))
    ensures cfg.Valid() && Run(cfg, LaunchSession(cfg, w), acts, s) && s.route.Taking? && |s.conns| == |w.sides|
    ensures forall c :: 0 <= c < |s.conns| ==> OnlySent(cfg, c, s.conns[c]) && Wrapped(s.conns[c].up) == w.sides[c].up
  {
    HandshakeLaunchesSystem(w0, trace, w, cfg);
    var s0 := LaunchSession(cfg, w);
    forall c | 0 <= c < |ops| ensures ClientCanSend(cfg, s0, c, ops[c]) {
      LaunchCanSend(cfg, w, c, ops[c]);
    }
    acts, s := AllSend(cfg, s0, ops, |ops|);
  }
}
