/** Delivery reaches owners: exactly when the router's record of who registered
    what is right for the blocks that traffic can reach. */
module Ownership {
  import opened Wire
  import opened AddressMap
  import opened FlatMemory
  import opened Bookkeeping
  import opened Monitor
  import opened BridgeThreads
  import opened Traffic
  import opened System
  import opened Progress

  ghost predicate Recorded(v: Variant, cfg: Config) {
    |cfg.holder| == |cfg.ips| && forall i :: 0 <= i < |cfg.ips| ==> cfg.ips[i].clientId == StoredId(v, cfg.holder[i])
  }

  /** As written, the record is right exactly when the first client alone has
      masters and non-empty blocks; repaired, it always is. */
  lemma WhenRoutable(v: Variant, cfg: Config)
    requires cfg.Valid() && Recorded(v, cfg)
    ensures cfg.Routable()
      <==> v.Repaired?
           || forall i :: 0 <= i < |cfg.ips| && (cfg.ips[i].typ.IsMaster() || cfg.ips[i].NonEmpty()) ==> cfg.holder[i] == 0
  {
  }

  /** A bridge has given up on a transaction that it does not know. */
  predicate Lost(s: Session, c: nat) {
    c < |s.conns| && s.conns[c].bridge.reader.Stopped? && s.conns[c].bridge.reader.status != Ok
  }

  /** With a right record, no bridge ever meets an unknown master, request or
      slave. */
  lemma NeverLost(cfg: Config, s0: Session, acts: seq<Act>, s: Session, c: nat)
    requires cfg.Valid() && cfg.Routable() && InitSession(cfg, s0) && Run(cfg, s0, acts, s)
    ensures !Lost(s, c)
  {
    InitGood(cfg, s0);
    RunGood(cfg, s0, acts, s);
    if c < |s.conns| {
      GoodConn(cfg, s, c);
    }
  }

  // ------------------------------------------------- with a wrong record

  lemma {:induction false} RunOnward(cfg: Config, s0: Session, acts: seq<Act>, s: Session, a: Act)
    requires cfg.Valid() && Run(cfg, s0, acts, s) && Enabled(cfg, s, a)
    ensures Run(cfg, s0, acts + [a], Apply(cfg, s, a))
    decreases acts
  {
    if acts == [] {
      assert acts + [a] == [a] && [a][1..] == [];
    } else {
      RunOnward(cfg, Apply(cfg, s0, acts[0]), acts[1..], s, a);
      assert (acts + [a])[1..] == acts[1..] + [a];
    }
  }

  /** The way down to a bridge is free, and the bridge holds what it registered. */
  ghost predicate Free(cfg: Config, c: nat, k: Conn)
    requires cfg.Valid()
  {
    && k.tx == k.down == [] && k.txOpen && k.bridge.reader.Receiving?
    && (forall m: nat :: m in k.bridge.books.lastId <==> cfg.IsMaster(m) && cfg.holder[m] == c)
    && (forall i: nat :: i in k.bridge.books.rams <==> cfg.IsSlave(i) && cfg.holder[i] == c)
  }

  ghost predicate AllFree(cfg: Config, s: Session)
    requires cfg.Valid()
  {
    |s.conns| == |s.log.served| == cfg.clients && forall c :: 0 <= c < |s.conns| ==> Free(cfg, c, s.conns[c])
  }

  /** The bridge's writer is back at the empty queue and the way up is free. */
  predicate Ready(k: Conn) {
    k.bridge.q.items == [] && k.bridge.q.consumer.Testing? && k.bridge.writer == [] && k.up == [] && k.rxOpen
  }

  /** The connection on which a first request travels up. */
  lemma RequestTravels(k: Conn, t: Txn, capacity: nat, v: Variant)
    requires capacity > 0 && k.bridge.q == Start<Msg>().q && k.bridge.writer == [] && k.up == k.rx == [] && k.rxOpen
    requires t.IsRequest() && t.initiator in k.bridge.books.lastId && k.bridge.books.lastId[t.initiator] == 0 && t.id == 0
    ensures var k1 := k.WithPush(TRANSACTION(t));
            && k1.bridge.q.consumer.Testing?
            && var k2 := k1.(bridge := k1.bridge.Popped(v));
            && k2.CanHop(capacity, Send)
            && var k3 := k2.AfterHop(capacity, v, Send);
            && k3.CanHop(capacity, Read)
            && var k4 := k3.AfterHop(capacity, v, Read);
            && k4.rx == [TRANSACTION(t)] && k4.tx == k.tx && k4.down == k.down && k4.txOpen == k.txOpen
            && k4.bridge.reader == k.bridge.reader && k4.bridge.books.rams == k.bridge.books.rams
            && k4.bridge.books.lastId.Keys == k.bridge.books.lastId.Keys
            && Ready(k4) && k4.bridge.books.promises == k.bridge.books.promises
  {
    assert t == k.bridge.books.WithId(t);
  }

  /** A master's first request comes to route(). */
  lemma RequestArrives(cfg: Config, s0: Session, t: Txn) returns (acts: seq<Act>, s: Session, c: nat)
    requires cfg.Valid() && InitSession(cfg, s0) && cfg.IsMaster(t.initiator) && Fresh(t)
    ensures Run(cfg, s0, acts, s) && c < |s.conns| && s.conns[c].rx == [TRANSACTION(t)] && s.route.Taking?
    ensures AllFree(cfg, s) && c == cfg.holder[t.initiator]
    ensures Ready(s.conns[c]) && s.conns[c].bridge.books.promises == map[]
    ensures s.masterCount == s0.masterCount && t.initiator in s.log.issued && s.log.issued[t.initiator] == [t]
  {
    c := cfg.holder[t.initiator];
    assert cfg.IpValid(t.initiator);
    forall b | 0 <= b < |s0.conns| ensures Free(cfg, b, s0.conns[b]) && InitConn(cfg, b, s0.conns[b]) {
      assert InitConn(cfg, b, s0.conns[b]);
    }
    RequestTravels(s0.conns[c], t, cfg.capacity, cfg.pop);
    var s1 := Apply(cfg, s0, DoIssue(t));
    RunOnward(cfg, s0, [], s0, DoIssue(t));
    acts, s := UpToRouter(cfg, s0, [] + [DoIssue(t)], s1, c, s0.conns[c].WithPush(TRANSACTION(t)));
    StillFree(cfg, s0, s, c, s.conns[c]);
  }

  lemma StillFree(cfg: Config, s: Session, s': Session, c: nat, k: Conn)
    requires cfg.Valid() && AllFree(cfg, s) && c < |s.conns|
    requires s'.conns == s.conns[c := k] && |s'.log.served| == |s.log.served|
    requires Free(cfg, c, s.conns[c]) ==> Free(cfg, c, k)
    ensures AllFree(cfg, s')
  {
    forall b | 0 <= b < |s'.conns| ensures Free(cfg, b, s'.conns[b]) {
      assert Free(cfg, b, s.conns[b]);
    }
  }

  lemma UpToRouter(cfg: Config, s0: Session, acts: seq<Act>, s: Session, c: nat, k: Conn)
      returns (acts': seq<Act>, s': Session)
    requires cfg.Valid() && Run(cfg, s0, acts, s) && c < |s.conns| && s.conns[c] == k && k.bridge.q.consumer.Testing?
    requires k.(bridge := k.bridge.Popped(cfg.pop)).CanHop(cfg.capacity, Send)
    requires k.(bridge := k.bridge.Popped(cfg.pop)).AfterHop(cfg.capacity, cfg.pop, Send).CanHop(cfg.capacity, Read)
    ensures Run(cfg, s0, acts', s')
    ensures s'.route == s.route && s'.log == s.log && s'.masterCount == s.masterCount && s'.asked == s.asked
    ensures s'.conns == s.conns[c := k.(bridge := k.bridge.Popped(cfg.pop)).AfterHop(cfg.capacity, cfg.pop, Send)
                                       .AfterHop(cfg.capacity, cfg.pop, Read)]
  {
    acts', s' := acts, s;
    RunOnward(cfg, s0, acts', s', DoPop(c));
    acts', s' := acts' + [DoPop(c)], Apply(cfg, s', DoPop(c));
    RunOnward(cfg, s0, acts', s', DoHop(c, Send));
    acts', s' := acts' + [DoHop(c, Send)], Apply(cfg, s', DoHop(c, Send));
    RunOnward(cfg, s0, acts', s', DoHop(c, Read));
    acts', s' := acts' + [DoHop(c, Read)], Apply(cfg, s', DoHop(c, Read));
  }

  /** The connection on which a transaction comes down that the bridge does not
      know. */
  lemma UnknownTravels(k: Conn, t: Txn, capacity: nat, v: Variant)
    requires capacity > 0 && k.tx == k.down == [] && k.txOpen && k.bridge.reader.Receiving?
    requires if t.IsRequest() then !k.bridge.books.KnowsSlave(t) else !k.bridge.books.KnowsMaster(t)
    ensures var k1 := k.(tx := [TRANSACTION(t)]);
            && k1.CanHop(capacity, Write)
            && var k2 := k1.AfterHop(capacity, v, Write);
            && k2.CanHop(capacity, Receive)
            && var k3 := k2.AfterHop(capacity, v, Receive);
            && k3.bridge.reader.Handling?
            && k3.bridge.Handled().reader.Stopped? && k3.bridge.Handled().reader.status != Ok
  {
  }

  lemma DownAndLost(cfg: Config, s0: Session, acts: seq<Act>, s: Session)
      returns (acts': seq<Act>, s': Session)
    requires cfg.Valid() && Run(cfg, s0, acts, s) && AllFree(cfg, s)
    requires s.route.Giving? && s.route.dest < |s.conns| && s.route.msg.TRANSACTION?
    requires var t, b := s.route.msg.txn, s.conns[s.route.dest].bridge.books;
             if t.IsRequest() then !b.KnowsSlave(t) else !b.KnowsMaster(t)
    ensures Run(cfg, s0, acts', s') && Lost(s', s.route.dest)
  {
    var d := s.route.dest;
    assert Free(cfg, d, s.conns[d]);
    UnknownTravels(s.conns[d], s.route.msg.txn, cfg.capacity, cfg.pop);
    RunOnward(cfg, s0, acts, s, DoGive);
    acts', s' := DownToBridge(cfg, s0, acts + [DoGive], Apply(cfg, s, DoGive), d);
  }

  lemma DownToBridge(cfg: Config, s0: Session, acts: seq<Act>, s: Session, d: nat)
      returns (acts': seq<Act>, s': Session)
    requires cfg.Valid() && Run(cfg, s0, acts, s) && d < |s.conns| == |s.log.served|
    requires s.conns[d].CanHop(cfg.capacity, Write)
    requires var k2 := s.conns[d].AfterHop(cfg.capacity, cfg.pop, Write);
             && k2.CanHop(cfg.capacity, Receive)
             && var k3 := k2.AfterHop(cfg.capacity, cfg.pop, Receive);
             && k3.bridge.reader.Handling?
             && k3.bridge.Handled().reader.Stopped? && k3.bridge.Handled().reader.status != Ok
    ensures Run(cfg, s0, acts', s') && Lost(s', d)
  {
    acts', s' := acts, s;
    RunOnward(cfg, s0, acts', s', DoHop(d, Write));
    acts', s' := acts' + [DoHop(d, Write)], Apply(cfg, s', DoHop(d, Write));
    RunOnward(cfg, s0, acts', s', DoHop(d, Receive));
    acts', s' := acts' + [DoHop(d, Receive)], Apply(cfg, s', DoHop(d, Receive));
    RunOnward(cfg, s0, acts', s', DoHandle(d));
    acts', s' := acts' + [DoHandle(d)], Apply(cfg, s', DoHandle(d));
  }

  /** A request that route() sends to the wrong client. */
  ghost predicate Misrouted(cfg: Config, t: Txn)
    requires cfg.Valid() && t.initiator < |cfg.ips|
  {
    var p := Route(cfg, t);
    if p.txn.IsRequest() then p.txn.target < |cfg.holder| && cfg.holder[p.txn.target] != p.dest
    else cfg.holder[p.txn.initiator] != p.dest
  }

  /** If the record is wrong, there is such a request: a read at the start of the
      misplaced block, or a read at the last address, where no block is. */
  lemma WrongRecordMisroutes(cfg: Config, m: nat) returns (t: Txn)
    requires cfg.Valid() && !cfg.Routable() && cfg.IsMaster(m)
    ensures Fresh(t) && cfg.IsMaster(t.initiator) && Misrouted(cfg, t)
  {
    var i :| 0 <= i < |cfg.ips| && (cfg.ips[i].typ.IsMaster() || cfg.ips[i].NonEmpty())
             && cfg.ips[i].clientId != cfg.holder[i];
    assert cfg.IpValid(i) && cfg.ips[i] in cfg.ips;
    if cfg.ips[i].NonEmpty() {
      t := ReadRequest(m, cfg.ips[i].address, 0);
      BlockAtIs(cfg.ips, cfg.ips[i].address, i);
      assert cfg.Decodes(t) == Hit(i);
    } else {
      t := ReadRequest(i, TWO64 - 1, 0);
      BlockAtFinds(cfg.ips, TWO64 - 1, 0);
      assert forall j :: 0 <= j < |cfg.ips| ==> cfg.ips[j] in cfg.ips;
      assert cfg.Decodes(t) == Miss(NoBlockAtAddress);
    }
  }

  lemma TakeMisroutes(cfg: Config, s: Session, c: nat, t: Txn)
    requires cfg.Valid() && c < |s.conns| && s.conns[c].rx == [TRANSACTION(t)] && s.route.Taking? && AllFree(cfg, s)
    requires Fresh(t) && cfg.IsMaster(t.initiator) && Misrouted(cfg, t)
    ensures Enabled(cfg, s, DoTake(c))
    ensures var s' := Apply(cfg, s, DoTake(c));
            && AllFree(cfg, s') && s'.route.Giving? && s'.route.dest < |s'.conns| && s'.route.msg.TRANSACTION?
            && var u, b := s'.route.msg.txn, s'.conns[s'.route.dest].bridge.books;
               if u.IsRequest() then !b.KnowsSlave(u) else !b.KnowsMaster(u)
  {
    var s', d := Apply(cfg, s, DoTake(c)), Route(cfg, t).dest;
    assert cfg.IpValid(t.initiator);
    if cfg.Decodes(t).Hit? {
      HitIsSlave(cfg, t);
      assert cfg.IpValid(cfg.Decodes(t).target);
    }
    assert Free(cfg, d, s.conns[d]);
    forall b | 0 <= b < |s'.conns| ensures Free(cfg, b, s'.conns[b]) {
      assert Free(cfg, b, s.conns[b]);
    }
  }

  /** With a wrong record and at least one master, some bridge can be lost. */
  lemma WrongRecordLoses(cfg: Config, s0: Session, m: nat) returns (acts: seq<Act>, s: Session, d: nat)
    requires cfg.Valid() && !cfg.Routable() && cfg.IsMaster(m) && InitSession(cfg, s0)
    ensures Run(cfg, s0, acts, s) && Lost(s, d)
  {
    var t := WrongRecordMisroutes(cfg, m);
    var up, s1, c := RequestArrives(cfg, s0, t);
    TakeMisroutes(cfg, s1, c, t);
    RunOnward(cfg, s0, up, s1, DoTake(c));
    var s2 := Apply(cfg, s1, DoTake(c));
    d := s2.route.dest;
    acts, s := DownAndLost(cfg, s0, up + [DoTake(c)], s2);
  }

  ghost predicate CanLose(cfg: Config, s0: Session)
    requires cfg.Valid()
  {
    exists acts: seq<Act>, s: Session, d: nat :: Run(cfg, s0, acts, s) && Lost(s, d)
  }

  /** Every routed transaction reaches a bridge that knows it, in every run,
      exactly when the router's record of owners is right. */
  lemma DeliveryIsRightExactlyWhenRoutable(cfg: Config, s0: Session, m: nat)
    requires cfg.Valid() && cfg.IsMaster(m) && InitSession(cfg, s0)
    ensures CanLose(cfg, s0) <==> !cfg.Routable()
  {
    if cfg.Routable() {
      forall acts: seq<Act>, s: Session, d: nat | Run(cfg, s0, acts, s) ensures !Lost(s, d) {
        NeverLost(cfg, s0, acts, s, d);
      }
    } else {
      var acts, s, d := WrongRecordLoses(cfg, s0, m);
    }
  }
}
