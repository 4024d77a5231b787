/** From the handshake to the started system: what the handshake leaves behind is a
    start state of the system whose runs the other modules speak of. */
module Launch {
  import opened Wire
  import opened AddressMap
  import opened FlatMemory
  import opened Bookkeeping
  import opened Monitor
  import opened BridgeThreads
  import opened Traffic
  import opened System
  import opened Handshake
  import opened Enrolment
  import opened Ownership
  import R = RouterClient
  import P = Phases

  /** What the clients describe: no block reaches the end of the address space, and
      masters have no size, as registerMaster gives them none. */
  predicate Ordinary(plans: seq<seq<R.IpConfig>>) {
    forall c, j :: 0 <= c < |plans| && 0 <= j < |plans[c]| ==>
      && plans[c][j].address + plans[c][j].size < TWO64
      && (plans[c][j].typ.IsMaster() ==> plans[c][j].size == 0)
  }

  /** The parameters of the started system, with the contents of the slaves and
      what the model leaves open. */
  function LaunchConfig(w: P.World, boot: seq<seq<byte>>, rom: set<nat>, capacity: nat,
                        pop: Variant, terminate: Variant): Config
  {
    Config(w.reg.ips, Holders(Plans(w), |w.sides|), |w.sides|, boot, rom, capacity, pop, terminate)
  }

  /** The ids that a client got for its masters, or for its slaves. */
  function Given(s: P.Side, masters: bool): set<nat> {
    set j | 0 <= j < |s.ids| && j < |s.plan| && s.plan[j].typ.IsMaster() == masters :: s.ids[j]
  }

  /** What registerMaster and registerSlave have put into the bridge's maps. */
  function LaunchBooks(cfg: Config, s: P.Side): Books
    requires |cfg.boot| == |cfg.ips|
  {
    Books(map[], map m | m in Given(s, true) :: 0,
          map i | i in Given(s, false) && i < |cfg.ips| :: cfg.BootRam(i), map[])
  }

  function LaunchConn(cfg: Config, s: P.Side): Conn
    requires |cfg.boot| == |cfg.ips|
  {
    Conn(BridgeState(Start<Msg>().q, [], Receiving, LaunchBooks(cfg, s)), [], [], true, [], true, [])
  }

  /** All threads and goroutines at their beginning; the router counts the masters
      that it has counted. */
  function LaunchSession(cfg: Config, w: P.World): Session
    requires |cfg.boot| == |cfg.ips|
  {
    Session(seq(|w.sides|, (c: int) requires 0 <= c < |w.sides| => LaunchConn(cfg, w.sides[c])),
            Taking, w.reg.masterCount, 2 * |w.sides| + 1,
            Log(map m: nat | m < |cfg.ips| && cfg.IsMaster(m) :: [], [], seq(cfg.clients, (_) => [])), {}, {})
  }

  /** What EverythingIsRegistered says of a router that serves. */
  ghost predicate Served(w: P.World) {
    && RegistryIs(w.overlap, w.reg, Attempts(w.naming, Plans(w), |w.sides|))
    && forall c :: 0 <= c < |w.sides| ==>
         |w.sides[c].ids| == |w.sides[c].plan| && Counts(w.sides[c], Offset(Plans(w), c))
  }

  /** Each block of the registry, with the client and the registration that it comes
      from. */
  lemma BlockComesFrom(w: P.World, i: nat) returns (c: nat, j: nat)
    requires Served(w) && i < |w.reg.ips|
    ensures c < |w.sides| && j < |w.sides[c].plan| == |w.sides[c].ids| && w.sides[c].ids[j] == i
    ensures Holders(Plans(w), |w.sides|)[i] == c
    ensures w.reg.ips[i] == IpInfoOf(R.Registration(w.sides[c].plan[j]), StoredId(w.naming, c)).(id := i)
  {
    c, j := AttemptIsHeld(Plans(w), |w.sides|, i);
    AttemptAt(w.naming, Plans(w), |w.sides|, c, j);
  }

  /** Each registration, with its block. */
  lemma RegistrationGives(w: P.World, c: nat, j: nat)
    requires Served(w) && c < |w.sides| && j < |w.sides[c].plan|
    ensures var i := w.sides[c].ids[j];
            && i < |w.reg.ips| && Holders(Plans(w), |w.sides|)[i] == c
            && w.reg.ips[i] == IpInfoOf(R.Registration(w.sides[c].plan[j]), StoredId(w.naming, c)).(id := i)
  {
    var plans, i := Plans(w), Offset(Plans(w), c) + j;
    assert plans[c] == w.sides[c].plan && w.sides[c].ids[j] == i;
    AttemptAt(w.naming, plans, |plans|, c, j);
    assert w.reg.ips[i] == Attempts(w.naming, plans, |plans|)[i].(id := i);
  }

  lemma LaunchIsValid(w: P.World, cfg: Config)
    requires Served(w) && w.sides != [] && Ordinary(Plans(w)) && cfg.capacity > 0
    requires cfg == LaunchConfig(w, cfg.boot, cfg.rom, cfg.capacity, cfg.pop, cfg.terminate)
    requires |cfg.boot| == |cfg.ips| && forall i :: 0 <= i < |cfg.ips| ==> |cfg.boot[i]| == cfg.ips[i].size
    requires w.overlap.Repaired? || Disjoint(w.reg.ips)
    ensures cfg.Valid() && Recorded(w.naming, cfg)
  {
    forall i | 0 <= i < |cfg.ips|
      ensures cfg.IpValid(i) && cfg.ips[i].NonWrapping() && cfg.ips[i].clientId == StoredId(w.naming, cfg.holder[i])
    {
      var c, j := BlockComesFrom(w, i);
      assert Plans(w)[c][j] == w.sides[c].plan[j];
    }
    assert AllNonWrapping(cfg.ips);
    if w.overlap.Repaired? {
      RepairedIsDisjoint(Attempts(w.naming, Plans(w), |w.sides|));
    }
  }

  /** The masters and slaves of a bridge are those that the router has on the list
      for it. */
  lemma BooksAreRight(w: P.World, cfg: Config, c: nat)
    requires Served(w) && cfg.Valid() && c < |w.sides|
    requires cfg.ips == w.reg.ips && cfg.holder == Holders(Plans(w), |w.sides|)
    ensures InitLane(cfg, c, Lane([], [], [], LaunchBooks(cfg, w.sides[c])))
  {
    var s, b := w.sides[c], LaunchBooks(cfg, w.sides[c]);
    forall m: nat
      ensures m in b.lastId <==> cfg.IsMaster(m) && cfg.holder[m] == c
      ensures m in b.rams <==> cfg.IsSlave(m) && cfg.holder[m] == c
    {
      if m in Given(s, true) || m in Given(s, false) {
        var j :| 0 <= j < |s.ids| && s.ids[j] == m;
        RegistrationGives(w, c, j);
        SameKind(w, cfg, c, j);
      }
      if m < |cfg.ips| && cfg.holder[m] == c {
        var d, j := BlockComesFrom(w, m);
        assert m in Given(s, s.plan[j].typ.IsMaster());
      }
    }
  }

  /** An id stands for one block, so it is not both a master's and a slave's. */
  lemma SameKind(w: P.World, cfg: Config, c: nat, j: nat)
    requires Served(w) && c < |w.sides| && j < |w.sides[c].plan| && cfg.ips == w.reg.ips
    ensures var s := w.sides[c];
            s.ids[j] in Given(s, true) <==> s.ids[j] < |cfg.ips| && cfg.IsMaster(s.ids[j])
    ensures var s := w.sides[c];
            s.ids[j] in Given(s, false) <==> s.ids[j] < |cfg.ips| && cfg.IsSlave(s.ids[j])
  {
    var s := w.sides[c];
    RegistrationGives(w, c, j);
    forall k | 0 <= k < |s.ids| && s.ids[k] == s.ids[j] ensures k == j {
      assert s.ids[k] == Offset(Plans(w), c) + k;
    }
    assert s.ids[j] in Given(s, s.plan[j].typ.IsMaster());
  }

  /** Whatever happened in the handshake, as long as no registration was rejected:
      when the router serves, the registry and the bridges' maps make up a system
      that is valid, whose record of owners is as newClient left it, and which is in
      a start state.  Disjointness comes from the repaired overlap test, or is asked
      for. */
  lemma HandshakeLaunchesSystem(w0: P.World, acts: seq<P.Act>, w: P.World, cfg: Config)
    requires P.Init(w0) && P.Run(w0, acts, w) && w.pc.Serving? && Ordinary(Plans(w0)) && cfg.capacity > 0
    requires cfg == LaunchConfig(w, cfg.boot, cfg.rom, cfg.capacity, cfg.pop, cfg.terminate)
    requires |cfg.boot| == |cfg.ips| && forall i :: 0 <= i < |cfg.ips| ==> |cfg.boot[i]| == cfg.ips[i].size
    requires w.overlap.Repaired? || Disjoint(w.reg.ips)
    ensures cfg.Valid() && Recorded(w.naming, cfg) && InitSession(cfg, LaunchSession(cfg, w))
    ensures w.naming.Repaired? || |w.sides| == 1 ==> cfg.Routable()
  {
    ServedInTheEnd(w0, acts, w);
    LaunchIsValid(w, cfg);
    SessionStarts(w, cfg);
    WhenRoutable(w.naming, cfg);
  }

  lemma ServedInTheEnd(w0: P.World, acts: seq<P.Act>, w: P.World)
    requires P.Init(w0) && P.Run(w0, acts, w) && w.pc.Serving?
    ensures w.sides != [] && Served(w) && Plans(w) == Plans(w0)
  {
    EverythingIsRegistered(w0, acts, w);
    assert Plans(w) == Plans(w0);
  }

  lemma SessionStarts(w: P.World, cfg: Config)
    requires Served(w) && cfg.Valid()
    requires cfg.ips == w.reg.ips && cfg.holder == Holders(Plans(w), |w.sides|) && cfg.clients == |w.sides|
    ensures InitSession(cfg, LaunchSession(cfg, w))
  {
    var s := LaunchSession(cfg, w);
    forall c | 0 <= c < |w.sides| ensures InitConn(cfg, c, s.conns[c]) {
      BooksAreRight(w, cfg, c);
    }
  }
}
