/** Where transactions can be: who holds what, and what stays true of every
    message on its path.  As long as the router's record of owners is right,
    no bridge meets an unknown master, request or slave. */
module FlowPlacement {
  import opened Wire
  import opened AddressMap
  import opened FlatMemory
  import opened Traffic

  ghost predicate Holds(cfg: Config, c: nat, l: Lane)
    requires cfg.Valid()
  {
    && (forall m: nat :: m in l.books.lastId <==> cfg.IsMaster(m) && cfg.holder[m] == c)
    && (forall i: nat :: i in l.books.rams <==> cfg.IsSlave(i) && cfg.holder[i] == c)
  }

  /** A request that a bridge's writer may send, or a response it may return. */
  ghost predicate Outbound(cfg: Config, l: Lane, t: Txn) {
    if t.IsRequest() then t.initiator in l.books.lastId else cfg.IsMaster(t.initiator)
  }

  /** A request for a slave that this client holds, or a response for one of its
      masters. */
  ghost predicate Inbound(cfg: Config, l: Lane, t: Txn) {
    if t.IsRequest() then t.target in l.books.rams && cfg.Decodes(t) == Hit(t.target) && cfg.IsMaster(t.initiator)
    else t.initiator in l.books.lastId
  }

  ghost predicate LanePlaced(cfg: Config, c: nat, l: Lane)
    requires cfg.Valid()
  {
    && Holds(cfg, c, l)
    && (forall k :: 0 <= k < |l.queue| ==> Outbound(cfg, l, l.queue[k]))
    && (forall k :: 0 <= k < |l.up| ==> Outbound(cfg, l, l.up[k]))
    && (forall k :: 0 <= k < |l.down| ==> Inbound(cfg, l, l.down[k]))
  }

  ghost predicate SlotPlaced(cfg: Config, f: Flow)
    requires cfg.Valid()
  {
    f.slot.Some? ==> f.slot.value.dest < |f.lanes| && Inbound(cfg, f.lanes[f.slot.value.dest], f.slot.value.txn)
  }

  ghost predicate Placed(cfg: Config, f: Flow)
    requires cfg.Valid()
  {
    && |f.lanes| == |f.log.served| == cfg.clients
    && (forall m: nat :: m in f.log.issued <==> cfg.IsMaster(m))
    && (forall c :: 0 <= c < cfg.clients ==> LanePlaced(cfg, c, f.lanes[c]))
    && SlotPlaced(cfg, f)
  }

  lemma InitPlaced(cfg: Config, f: Flow)
    requires cfg.Valid() && InitFlow(cfg, f)
    ensures Placed(cfg, f)
  {
    forall c | 0 <= c < cfg.clients ensures LanePlaced(cfg, c, f.lanes[c]) {
      assert InitLane(cfg, c, f.lanes[c]);
    }
  }

  lemma LaneKeepsPlaces(cfg: Config, c: nat, l: Lane, l': Lane)
    requires cfg.Valid() && Holds(cfg, c, l)
    requires l'.books.lastId.Keys == l.books.lastId.Keys && l'.books.rams.Keys == l.books.rams.Keys
    requires forall k :: 0 <= k < |l'.queue| ==> Outbound(cfg, l, l'.queue[k])
    requires forall k :: 0 <= k < |l'.up| ==> Outbound(cfg, l, l'.up[k])
    requires forall k :: 0 <= k < |l'.down| ==> Inbound(cfg, l, l'.down[k])
    ensures LanePlaced(cfg, c, l')
    ensures forall t :: Inbound(cfg, l, t) ==> Inbound(cfg, l', t)
  {
    assert forall m: nat :: m in l'.books.lastId <==> m in l.books.lastId;
    assert forall i: nat :: i in l'.books.rams <==> i in l.books.rams;
    assert forall t :: Outbound(cfg, l, t) ==> Outbound(cfg, l', t);
    assert forall t :: Inbound(cfg, l, t) ==> Inbound(cfg, l', t);
  }

  /** One lane changes, and it holds what it held. */
  lemma LaneChange(cfg: Config, f: Flow, f': Flow, c: nat, l: Lane)
    requires cfg.Valid() && Placed(cfg, f) && c < |f.lanes|
    requires f'.lanes == f.lanes[c := l] && f'.slot == f.slot
    requires |f'.log.served| == cfg.clients
    requires forall m: nat :: m in f'.log.issued <==> m in f.log.issued
    requires l.books.lastId.Keys == f.lanes[c].books.lastId.Keys && l.books.rams.Keys == f.lanes[c].books.rams.Keys
    requires forall k :: 0 <= k < |l.queue| ==> Outbound(cfg, f.lanes[c], l.queue[k])
    requires forall k :: 0 <= k < |l.up| ==> Outbound(cfg, f.lanes[c], l.up[k])
    requires forall k :: 0 <= k < |l.down| ==> Inbound(cfg, f.lanes[c], l.down[k])
    ensures Placed(cfg, f')
  {
    assert LanePlaced(cfg, c, f.lanes[c]);
    LaneKeepsPlaces(cfg, c, f.lanes[c], l);
    forall b | 0 <= b < cfg.clients ensures LanePlaced(cfg, b, f'.lanes[b]) {
      assert LanePlaced(cfg, b, f.lanes[b]);
    }
  }

  lemma IssuePlaced(cfg: Config, f: Flow, t: Txn)
    requires cfg.Valid() && Placed(cfg, f) && CanIssue(cfg, f, t)
    ensures Placed(cfg, Issue(cfg, f, t))
  {
    var c := cfg.holder[t.initiator];
    assert LanePlaced(cfg, c, f.lanes[c]);
    assert t.initiator in f.lanes[c].books.lastId;
    LaneChange(cfg, f, Issue(cfg, f, t), c, Issue(cfg, f, t).lanes[c]);
  }

  lemma DispatchPlaced(cfg: Config, f: Flow, c: nat)
    requires cfg.Valid() && Placed(cfg, f) && CanDispatch(f, c)
    ensures Placed(cfg, Dispatch(f, c))
  {
    assert LanePlaced(cfg, c, f.lanes[c]);
    assert Outbound(cfg, f.lanes[c], f.lanes[c].queue[0]);
    LaneChange(cfg, f, Dispatch(f, c), c, Dispatch(f, c).lanes[c]);
  }

  /** route() sends each transaction to the client that holds its target or its
      initiator. */
  lemma RouteReachesHolder(cfg: Config, f: Flow, t: Txn)
    requires cfg.Valid() && cfg.Routable() && Placed(cfg, f) && cfg.IsMaster(t.initiator)
    ensures var p := Route(cfg, t); p.dest < |f.lanes| && Inbound(cfg, f.lanes[p.dest], p.txn)
  {
    var p := Route(cfg, t);
    assert cfg.IpValid(t.initiator);
    if t.IsRequest() && cfg.Decodes(t).Hit? {
      HitIsSlave(cfg, t);
      assert cfg.IpValid(cfg.Decodes(t).target);
      assert LanePlaced(cfg, p.dest, f.lanes[p.dest]);
    } else {
      assert LanePlaced(cfg, p.dest, f.lanes[p.dest]);
    }
  }

  lemma TakePlaced(cfg: Config, f: Flow, c: nat)
    requires cfg.Valid() && cfg.Routable() && Placed(cfg, f) && CanTake(cfg, f, c)
    ensures Placed(cfg, Take(cfg, f, c))
  {
    assert LanePlaced(cfg, c, f.lanes[c]);
    assert Outbound(cfg, f.lanes[c], f.lanes[c].up[0]);
    var t := f.lanes[c].up[0];
    assert cfg.IsMaster(t.initiator);
    var between := f.(lanes := Take(cfg, f, c).lanes);
    LaneChange(cfg, f, between, c, Take(cfg, f, c).lanes[c]);
    RouteReachesHolder(cfg, between, t);
  }

  lemma GivePlaced(cfg: Config, f: Flow)
    requires cfg.Valid() && Placed(cfg, f) && CanGive(f)
    ensures Placed(cfg, Give(f))
  {
    var d := f.slot.value.dest;
    assert LanePlaced(cfg, d, f.lanes[d]);
    LaneChange(cfg, f.(slot := None), Give(f), d, Give(f).lanes[d]);
  }

  lemma HandlePlaced(cfg: Config, f: Flow, d: nat)
    requires cfg.Valid() && Placed(cfg, f) && CanHandle(f, d)
    ensures Placed(cfg, Handle(f, d))
  {
    var l := f.lanes[d];
    var t := l.down[0];
    assert LanePlaced(cfg, d, l);
    assert Inbound(cfg, l, t);
    assert cfg.IsMaster(t.initiator);
    var l' := Handle(f, d).lanes[d];
    assert l'.books.rams.Keys == l.books.rams.Keys;
    LaneChange(cfg, f, Handle(f, d), d, l');
  }
}
