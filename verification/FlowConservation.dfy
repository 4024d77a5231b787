/** Conservation of requests: a request awaits its response exactly when one
    message that carries its key is on its way; ids are never reused; every
    numbered request is either awaited or fulfilled, never both. */
module FlowConservation {
  import opened Wire
  import opened FlatMemory
  import opened Traffic
  import opened FlowPlacement

  // --------------------------------------------------------------- in flight

  /** How many messages of the lane carry the key; a queued request has none yet. */
  function LaneLoad(k: Key, l: Lane): nat {
    Count(k, Select(NoRequest(), l.queue)) + Count(k, l.up) + Count(k, l.down)
  }

  function LaneSum(k: Key, lanes: seq<Lane>): nat {
    if lanes == [] then 0 else LaneSum(k, lanes[..|lanes| - 1]) + LaneLoad(k, lanes[|lanes| - 1])
  }

  function SlotLoad(k: Key, slot: Option<Parcel>): nat {
    match slot
    case None => 0
    case Some(p) => One(k, p.txn)
  }

  /** How many messages in the whole system carry the key. */
  function InFlight(f: Flow, k: Key): nat {
    LaneSum(k, f.lanes) + SlotLoad(k, f.slot)
  }

  lemma {:induction false} LaneSumUpdate(k: Key, lanes: seq<Lane>, c: nat, l: Lane)
    requires c < |lanes|
    ensures LaneSum(k, lanes[c := l]) + LaneLoad(k, lanes[c]) == LaneSum(k, lanes) + LaneLoad(k, l)
  {
    var n := |lanes| - 1;
    if c == n {
      assert lanes[c := l][..n] == lanes[..n];
    } else {
      assert lanes[c := l][..n] == lanes[..n][c := l];
      LaneSumUpdate(k, lanes[..n], c, l);
    }
  }

  lemma {:induction false} LaneSumContains(k: Key, lanes: seq<Lane>, c: nat)
    requires c < |lanes|
    ensures LaneLoad(k, lanes[c]) <= LaneSum(k, lanes)
  {
    var n := |lanes| - 1;
    if c < n {
      LaneSumContains(k, lanes[..n], c);
    }
  }

  // ---------------------------------------------------------------- invariant

  /** The master that issued the request still waits for the response. */
  predicate Awaited(cfg: Config, f: Flow, k: Key) {
    k.master < |cfg.holder| && cfg.holder[k.master] < |f.lanes| && k in f.lanes[cfg.holder[k.master]].books.txns
  }

  ghost predicate Conserved(cfg: Config, f: Flow) {
    forall k :: InFlight(f, k) == if Awaited(cfg, f, k) then 1 else 0
  }

  /** Every id below the next one is awaited or fulfilled, not both, and no other
      key is in either map. */
  ghost predicate LaneAccounts(l: Lane) {
    && (forall k :: k in l.books.txns || k in l.books.promises
                    <==> k.master in l.books.lastId && k.id < l.books.lastId[k.master])
    && (forall k :: k in l.books.txns ==> k !in l.books.promises)
  }

  ghost predicate Accounted(f: Flow) {
    forall c :: 0 <= c < |f.lanes| ==> LaneAccounts(f.lanes[c])
  }

  /** The master of the lane's next request has given out fewer than 2^64 ids. */
  predicate IdsLast(l: Lane) {
    l.queue != [] && l.queue[0].IsRequest() && l.queue[0].initiator in l.books.lastId ==>
      l.books.lastId[l.queue[0].initiator] < TWO64
  }

  // ------------------------------------------------------------------- steps

  lemma InitConserved(cfg: Config, f: Flow)
    requires cfg.Valid() && InitFlow(cfg, f)
    ensures Conserved(cfg, f) && Accounted(f)
  {
    forall c | 0 <= c < |f.lanes| ensures f.lanes[c].books.txns == map[] && LaneAccounts(f.lanes[c]) {
      assert InitLane(cfg, c, f.lanes[c]);
    }
    forall k ensures InFlight(f, k) == 0 {
      forall c | 0 <= c < |f.lanes| ensures LaneLoad(k, f.lanes[c]) == 0 {
        assert InitLane(cfg, c, f.lanes[c]);
      }
      EmptySum(k, f.lanes);
    }
  }

  lemma {:induction false} EmptySum(k: Key, lanes: seq<Lane>)
    requires forall c :: 0 <= c < |lanes| ==> LaneLoad(k, lanes[c]) == 0
    ensures LaneSum(k, lanes) == 0
  {
    if lanes != [] {
      EmptySum(k, lanes[..|lanes| - 1]);
    }
  }

  /** A step that changes one lane keeps the balance if it changes the lane's
      load of each key by as much as it changes whether the key is awaited. */
  lemma Balance(cfg: Config, f: Flow, f': Flow, c: nat, k: Key)
    requires Conserved(cfg, f) && c < |f.lanes| == |f'.lanes|
    requires f'.lanes == f.lanes[c := f'.lanes[c]]
    requires LaneLoad(k, f'.lanes[c]) + SlotLoad(k, f'.slot) + (if Awaited(cfg, f, k) then 1 else 0)
          == LaneLoad(k, f.lanes[c]) + SlotLoad(k, f.slot) + (if Awaited(cfg, f', k) then 1 else 0)
    ensures InFlight(f', k) == if Awaited(cfg, f', k) then 1 else 0
  {
    LaneSumUpdate(k, f.lanes, c, f'.lanes[c]);
    assert InFlight(f, k) == if Awaited(cfg, f, k) then 1 else 0;
  }

  lemma SameAwaited(cfg: Config, f: Flow, f': Flow, c: nat, k: Key)
    requires c < |f.lanes| == |f'.lanes| && f'.lanes == f.lanes[c := f'.lanes[c]]
    requires f'.lanes[c].books.txns == f.lanes[c].books.txns
    ensures Awaited(cfg, f', k) == Awaited(cfg, f, k)
  {
  }

  lemma StillAccounted(f: Flow, f': Flow, c: nat)
    requires Accounted(f) && c < |f.lanes| == |f'.lanes| && f'.lanes == f.lanes[c := f'.lanes[c]]
    requires LaneAccounts(f'.lanes[c])
    ensures Accounted(f')
  {
  }

  lemma IssueConserved(cfg: Config, f: Flow, t: Txn)
    requires cfg.Valid() && CanIssue(cfg, f, t)
    requires Conserved(cfg, f) && Accounted(f)
    ensures Conserved(cfg, Issue(cfg, f, t)) && Accounted(Issue(cfg, f, t))
  {
    var c, f' := cfg.holder[t.initiator], Issue(cfg, f, t);
    SelectSnoc(NoRequest(), f.lanes[c].queue, t);
    assert Select(NoRequest(), f'.lanes[c].queue) == Select(NoRequest(), f.lanes[c].queue);
    forall k ensures InFlight(f', k) == if Awaited(cfg, f', k) then 1 else 0 {
      SameAwaited(cfg, f, f', c, k);
      Balance(cfg, f, f', c, k);
    }
    assert LaneAccounts(f.lanes[c]);
    StillAccounted(f, f', c);
  }

  /** The load of a lane after its first queued transaction has moved on. */
  lemma DispatchLoad(f: Flow, c: nat, k: Key)
    requires CanDispatch(f, c)
    ensures var l, l' := f.lanes[c], Dispatch(f, c).lanes[c];
            var t := l.queue[0];
            LaneLoad(k, l') == LaneLoad(k, l)
              + if t.IsRequest() && k == Key(t.initiator, l.books.WithId(t).id) then 1 else 0
  {
    var l, l' := f.lanes[c], Dispatch(f, c).lanes[c];
    var t := l.queue[0];
    SelectHead(NoRequest(), l.queue);
    CountSnoc(k, l.up, l'.up[|l.up|]);
    if t.IsRequest() {
      assert Select(NoRequest(), l.queue) == Select(NoRequest(), l.queue[1..]);
    } else {
      CountHead(k, Select(NoRequest(), l.queue));
      assert Select(NoRequest(), l.queue)[1..] == Select(NoRequest(), l.queue[1..]);
    }
  }

  lemma DispatchAwaits(cfg: Config, f: Flow, c: nat, k: Key)
    requires cfg.Valid() && Placed(cfg, f) && CanDispatch(f, c) && Accounted(f) && IdsLast(f.lanes[c])
    ensures var t := f.lanes[c].queue[0];
            if t.IsRequest() && k == Key(t.initiator, f.lanes[c].books.WithId(t).id) then
              !Awaited(cfg, f, k) && Awaited(cfg, Dispatch(f, c), k)
            else
              Awaited(cfg, Dispatch(f, c), k) == Awaited(cfg, f, k)
  {
    assert LaneAccounts(f.lanes[c]) && LanePlaced(cfg, c, f.lanes[c]);
  }

  lemma DispatchAccounts(l: Lane, l': Lane, m: nat)
    requires LaneAccounts(l) && m in l.books.lastId && l.books.lastId[m] < TWO64
    requires l'.books.lastId == l.books.lastId[m := l.books.lastId[m] + 1] && l'.books.promises == l.books.promises
    requires l'.books.txns.Keys == l.books.txns.Keys + {Key(m, l.books.lastId[m] % TWO64)}
    ensures LaneAccounts(l')
  {
    forall k
      ensures k in l'.books.txns || k in l'.books.promises
              <==> k.master in l'.books.lastId && k.id < l'.books.lastId[k.master]
    {
      assert k in l'.books.txns.Keys <==> k in l.books.txns.Keys || k == Key(m, l.books.lastId[m]);
    }
    forall k | k in l'.books.txns ensures k !in l'.books.promises {
      assert k in l'.books.txns.Keys;
    }
  }

  lemma DispatchConserved(cfg: Config, f: Flow, c: nat)
    requires cfg.Valid() && Placed(cfg, f) && CanDispatch(f, c)
    requires Conserved(cfg, f) && Accounted(f) && IdsLast(f.lanes[c])
    ensures Conserved(cfg, Dispatch(f, c)) && Accounted(Dispatch(f, c))
  {
    var f' := Dispatch(f, c);
    forall k ensures InFlight(f', k) == if Awaited(cfg, f', k) then 1 else 0 {
      DispatchLoad(f, c, k);
      DispatchAwaits(cfg, f, c, k);
      Balance(cfg, f, f', c, k);
    }
    var t := f.lanes[c].queue[0];
    assert LaneAccounts(f.lanes[c]);
    if t.IsRequest() {
      DispatchAccounts(f.lanes[c], f'.lanes[c], t.initiator);
    }
    StillAccounted(f, f', c);
  }

  lemma TakeConserved(cfg: Config, f: Flow, c: nat)
    requires cfg.Valid() && CanTake(cfg, f, c)
    requires Conserved(cfg, f) && Accounted(f)
    ensures Conserved(cfg, Take(cfg, f, c)) && Accounted(Take(cfg, f, c))
  {
    var f' := Take(cfg, f, c);
    forall k ensures InFlight(f', k) == if Awaited(cfg, f', k) then 1 else 0 {
      CountHead(k, f.lanes[c].up);
      SameAwaited(cfg, f, f', c, k);
      Balance(cfg, f, f', c, k);
    }
    assert LaneAccounts(f.lanes[c]);
    StillAccounted(f, f', c);
  }

  lemma GiveConserved(cfg: Config, f: Flow)
    requires CanGive(f)
    requires Conserved(cfg, f) && Accounted(f)
    ensures Conserved(cfg, Give(f)) && Accounted(Give(f))
  {
    var f', d := Give(f), f.slot.value.dest;
    forall k ensures InFlight(f', k) == if Awaited(cfg, f', k) then 1 else 0 {
      CountSnoc(k, f.lanes[d].down, f.slot.value.txn);
      SameAwaited(cfg, f, f', d, k);
      Balance(cfg, f, f', d, k);
    }
    assert LaneAccounts(f.lanes[d]);
    StillAccounted(f, f', d);
  }

  /** The load of a lane after it has handled what came down first. */
  lemma HandleLoad(f: Flow, d: nat, k: Key)
    requires CanHandle(f, d)
    ensures var l, l' := f.lanes[d], Handle(f, d).lanes[d];
            var t := l.down[0];
            LaneLoad(k, l) == LaneLoad(k, l') + if t.IsRequest() then 0 else One(k, t)
  {
    var l, l' := f.lanes[d], Handle(f, d).lanes[d];
    CountHead(k, l.down);
    if l.down[0].IsRequest() {
      var r := l'.queue[|l.queue|];
      SelectSnoc(NoRequest(), l.queue, r);
      CountSnoc(k, Select(NoRequest(), l.queue), r);
    }
  }

  lemma HandleAwaits(cfg: Config, f: Flow, d: nat, k: Key)
    requires cfg.Valid() && Placed(cfg, f) && CanHandle(f, d)
    ensures var t := f.lanes[d].down[0];
            if !t.IsRequest() && k == t.RequestKey() then Awaited(cfg, f, k) && !Awaited(cfg, Handle(f, d), k)
            else Awaited(cfg, Handle(f, d), k) == Awaited(cfg, f, k)
  {
    assert LanePlaced(cfg, d, f.lanes[d]);
  }

  lemma HandleConserved(cfg: Config, f: Flow, d: nat)
    requires cfg.Valid() && Placed(cfg, f) && CanHandle(f, d)
    requires Conserved(cfg, f) && Accounted(f)
    ensures Conserved(cfg, Handle(f, d)) && Accounted(Handle(f, d))
  {
    var f' := Handle(f, d);
    forall k ensures InFlight(f', k) == if Awaited(cfg, f', k) then 1 else 0 {
      HandleLoad(f, d, k);
      HandleAwaits(cfg, f, d, k);
      Balance(cfg, f, f', d, k);
    }
    assert LaneAccounts(f.lanes[d]);
    StillAccounted(f, f', d);
  }

  // -------------------------------------------------------------- consequence

  /** No bridge meets a response to an unknown master or request, or a request
      for an unknown slave: whatever comes down to it, it can handle. */
  lemma NothingIsUnknown(cfg: Config, f: Flow, d: nat)
    requires cfg.Valid() && Placed(cfg, f) && Conserved(cfg, f)
    requires d < |f.lanes| && f.lanes[d].down != []
    ensures CanHandle(f, d)
  {
    var l := f.lanes[d];
    var t := l.down[0];
    assert LanePlaced(cfg, d, l) && Inbound(cfg, l, t);
    if !t.IsRequest() {
      CountHead(t.RequestKey(), l.down);
      LaneSumContains(t.RequestKey(), f.lanes, d);
      assert InFlight(f, t.RequestKey()) >= 1;
      assert cfg.holder[t.initiator] == d;
    }
  }
}
