/** Issue order: the requests that route() has taken from a master, then those on
    the way up, then those still queued, are the requests it issued, in order,
    numbered 0, 1, 2, ... from the writer on. */
module FlowOrder {
  import opened Wire
  import opened FlatMemory
  import opened Bookkeeping
  import opened Traffic
  import opened FlowPlacement
  import opened FlowConservation

  function Numbered(ts: seq<Txn>): (r: seq<Txn>)
    ensures |r| == |ts|
    ensures forall k :: 0 <= k < |r| ==> r[k] == ts[k].(id := k)
  {
    if ts == [] then [] else Numbered(ts[..|ts| - 1]) + [ts[|ts| - 1].(id := |ts| - 1)]
  }

  ghost predicate IssuedWell(f: Flow, m: nat)
    requires m in f.log.issued
  {
    && |f.log.issued[m]| <= TWO64
    && forall k :: 0 <= k < |f.log.issued[m]| ==> Fresh(f.log.issued[m][k]) && f.log.issued[m][k].initiator == m
  }

  /** One master's requests along the way: taken, going up, queued. */
  ghost predicate InIssueOrder(m: nat, issued: seq<Txn>, n: nat, taken: seq<Txn>, up: seq<Txn>, queue: seq<Txn>) {
    && n <= |issued|
    && Select(RequestBy(m), taken) + Select(RequestBy(m), up) == Numbered(issued[..n])
    && Select(RequestBy(m), queue) == issued[n..]
  }

  ghost predicate MasterOrdered(cfg: Config, f: Flow, m: nat) {
    m in f.log.issued ==>
      && IssuedWell(f, m)
      && m < |cfg.holder| && cfg.holder[m] < |f.lanes|
      && var l := f.lanes[cfg.holder[m]];
         m in l.books.lastId && InIssueOrder(m, f.log.issued[m], l.books.lastId[m], f.log.taken, l.up, l.queue)
  }

  ghost predicate Ordered(cfg: Config, f: Flow) {
    && (forall m: nat :: MasterOrdered(cfg, f, m))
    && (forall k :: 0 <= k < |f.log.taken| ==> f.log.taken[k].IsRequest() && f.log.taken[k].initiator in f.log.issued)
  }

  lemma InitOrdered(cfg: Config, f: Flow)
    requires cfg.Valid() && InitFlow(cfg, f)
    ensures Ordered(cfg, f)
  {
    forall m: nat ensures MasterOrdered(cfg, f, m) {
      if m in f.log.issued {
        assert cfg.IpValid(m) && InitLane(cfg, cfg.holder[m], f.lanes[cfg.holder[m]]);
      }
    }
  }

  lemma IssueInOrder(m: nat, issued: seq<Txn>, n: nat, taken: seq<Txn>, up: seq<Txn>, queue: seq<Txn>, t: Txn)
    requires InIssueOrder(m, issued, n, taken, up, queue)
    ensures InIssueOrder(m, if RequestBy(m)(t) then issued + [t] else issued, n, taken, up, queue + [t])
  {
    SelectSnoc(RequestBy(m), queue, t);
    if RequestBy(m)(t) {
      assert (issued + [t])[..n] == issued[..n];
      assert (issued + [t])[n..] == issued[n..] + [t];
    }
  }

  lemma IssueOrderedFor(cfg: Config, f: Flow, t: Txn, m: nat)
    requires cfg.Valid() && MasterOrdered(cfg, f, m) && CanIssue(cfg, f, t)
    ensures MasterOrdered(cfg, Issue(cfg, f, t), m)
  {
    if m in f.log.issued && cfg.holder[m] == cfg.holder[t.initiator] {
      var l := f.lanes[cfg.holder[m]];
      IssueInOrder(m, f.log.issued[m], l.books.lastId[m], f.log.taken, l.up, l.queue, t);
    }
  }

  lemma IssueOrdered(cfg: Config, f: Flow, t: Txn)
    requires cfg.Valid() && Ordered(cfg, f) && CanIssue(cfg, f, t)
    ensures Ordered(cfg, Issue(cfg, f, t))
  {
    forall m: nat ensures MasterOrdered(cfg, Issue(cfg, f, t), m) {
      assert MasterOrdered(cfg, f, m);
      IssueOrderedFor(cfg, f, t, m);
    }
  }

  lemma DispatchInOrder(m: nat, issued: seq<Txn>, n: nat, taken: seq<Txn>, up: seq<Txn>, queue: seq<Txn>)
    requires InIssueOrder(m, issued, n, taken, up, queue)
    requires queue != [] && queue[0].IsRequest() && queue[0].initiator == m
    ensures n < |issued| && InIssueOrder(m, issued, n + 1, taken, up + [queue[0].(id := n)], queue[1..])
  {
    var t := queue[0];
    SelectHead(RequestBy(m), queue);
    assert issued[n..][0] == t;
    assert issued[n..][1..] == issued[n + 1..];
    assert Select(RequestBy(m), queue)[1..] == Select(RequestBy(m), queue[1..]);
    SelectSnoc(RequestBy(m), up, t.(id := n));
    assert issued[..n + 1][..n] == issued[..n];
  }

  /** Moving another transaction changes nothing for this master. */
  lemma DispatchOther(m: nat, issued: seq<Txn>, n: nat, taken: seq<Txn>, up: seq<Txn>, queue: seq<Txn>, t: Txn)
    requires InIssueOrder(m, issued, n, taken, up, queue)
    requires queue != [] && !RequestBy(m)(queue[0]) && !RequestBy(m)(t)
    ensures InIssueOrder(m, issued, n, taken, up + [t], queue[1..])
  {
    SelectHead(RequestBy(m), queue);
    SelectSnoc(RequestBy(m), up, t);
  }

  /** A request at the head of a queue gets an id below 2^64. */
  lemma DispatchedIdsLast(cfg: Config, f: Flow, c: nat)
    requires cfg.Valid() && Placed(cfg, f) && Ordered(cfg, f) && CanDispatch(f, c)
    ensures IdsLast(f.lanes[c])
  {
    var l := f.lanes[c];
    if l.queue[0].IsRequest() {
      var m := l.queue[0].initiator;
      assert LanePlaced(cfg, c, l);
      assert MasterOrdered(cfg, f, m);
      DispatchInOrder(m, f.log.issued[m], l.books.lastId[m], f.log.taken, l.up, l.queue);
    }
  }

  lemma LaneDispatchOrdered(l: Lane, m: nat, issued: seq<Txn>, taken: seq<Txn>)
    requires LaneCanDispatch(l) && IdsLast(l) && m in l.books.lastId
    requires InIssueOrder(m, issued, l.books.lastId[m], taken, l.up, l.queue)
    ensures var l' := LaneDispatch(l);
            m in l'.books.lastId && InIssueOrder(m, issued, l'.books.lastId[m], taken, l'.up, l'.queue)
  {
    var t, l' := l.queue[0], LaneDispatch(l);
    var sent := l'.up[|l.up|];
    assert l'.up == l.up + [sent] && l'.queue == l.queue[1..];
    if t.IsRequest() && m == t.initiator {
      assert sent == t.(id := l.books.lastId[m]) && l'.books.lastId[m] == l.books.lastId[m] + 1;
      DispatchInOrder(m, issued, l.books.lastId[m], taken, l.up, l.queue);
    } else {
      assert l'.books.lastId[m] == l.books.lastId[m] && !RequestBy(m)(t) && !RequestBy(m)(sent);
      DispatchOther(m, issued, l.books.lastId[m], taken, l.up, l.queue, sent);
    }
  }

  lemma DispatchOrderedFor(cfg: Config, f: Flow, c: nat, m: nat)
    requires CanDispatch(f, c) && IdsLast(f.lanes[c]) && MasterOrdered(cfg, f, m)
    ensures MasterOrdered(cfg, Dispatch(f, c), m)
  {
    if m in f.log.issued && cfg.holder[m] == c {
      LaneDispatchOrdered(f.lanes[c], m, f.log.issued[m], f.log.taken);
    }
  }

  lemma DispatchOrdered(cfg: Config, f: Flow, c: nat)
    requires cfg.Valid() && Placed(cfg, f) && Ordered(cfg, f) && CanDispatch(f, c)
    ensures Ordered(cfg, Dispatch(f, c))
  {
    assert LanePlaced(cfg, c, f.lanes[c]);
    DispatchedIdsLast(cfg, f, c);
    forall m: nat ensures MasterOrdered(cfg, Dispatch(f, c), m) {
      assert MasterOrdered(cfg, f, m);
      DispatchOrderedFor(cfg, f, c, m);
    }
  }

  lemma TakeInOrder(m: nat, issued: seq<Txn>, n: nat, taken: seq<Txn>, up: seq<Txn>, queue: seq<Txn>)
    requires InIssueOrder(m, issued, n, taken, up, queue) && up != []
    ensures InIssueOrder(m, issued, n, taken + if up[0].IsRequest() then [up[0]] else [], up[1..], queue)
  {
    var p := RequestBy(m);
    SelectHead(p, up);
    if up[0].IsRequest() {
      SelectSnoc(p, taken, up[0]);
      if p(up[0]) {
        assert Select(p, taken) + ([up[0]] + Select(p, up[1..])) == Select(p, taken) + [up[0]] + Select(p, up[1..]);
      }
    } else {
      assert taken + [] == taken;
    }
  }

  lemma TakeOrderedFor(cfg: Config, f: Flow, c: nat, m: nat)
    requires cfg.Valid() && CanTake(cfg, f, c) && LanePlaced(cfg, c, f.lanes[c])
    requires MasterOrdered(cfg, f, m)
    ensures MasterOrdered(cfg, Take(cfg, f, c), m)
  {
    var l := f.lanes[c];
    var t := l.up[0];
    assert Outbound(cfg, l, t);
    if m in f.log.issued {
      if cfg.holder[m] == c {
        TakeInOrder(m, f.log.issued[m], l.books.lastId[m], f.log.taken, l.up, l.queue);
      } else {
        assert !RequestBy(m)(t);
        SelectSnoc(RequestBy(m), f.log.taken, t);
        assert f.log.taken + [] == f.log.taken;
      }
    }
  }

  lemma TakeOrdered(cfg: Config, f: Flow, c: nat)
    requires cfg.Valid() && Placed(cfg, f) && Ordered(cfg, f) && CanTake(cfg, f, c)
    ensures Ordered(cfg, Take(cfg, f, c))
  {
    var t := f.lanes[c].up[0];
    assert LanePlaced(cfg, c, f.lanes[c]);
    forall m: nat ensures MasterOrdered(cfg, Take(cfg, f, c), m) {
      assert MasterOrdered(cfg, f, m);
      TakeOrderedFor(cfg, f, c, m);
    }
  }

  lemma GiveOrdered(cfg: Config, f: Flow)
    requires Ordered(cfg, f) && CanGive(f)
    ensures Ordered(cfg, Give(f))
  {
    forall m: nat ensures MasterOrdered(cfg, Give(f), m) {
      assert MasterOrdered(cfg, f, m);
    }
  }

  lemma HandleOrdered(cfg: Config, f: Flow, d: nat)
    requires Ordered(cfg, f) && CanHandle(f, d)
    ensures Ordered(cfg, Handle(f, d))
  {
    var f', l := Handle(f, d), f.lanes[d];
    forall m: nat ensures MasterOrdered(cfg, f', m) {
      assert MasterOrdered(cfg, f, m);
      if l.down[0].IsRequest() {
        SelectSnoc(RequestBy(m), l.queue, f'.lanes[d].queue[|l.queue|]);
      }
    }
  }
}
