/** The invariant of the traffic machine and what it means for the masters. */
module FlowSafety {
  import opened Wire
  import opened FlatMemory
  import opened Bookkeeping
  import opened Traffic
  import opened FlowPlacement
  import opened FlowConservation
  import opened FlowOrder
  import opened FlowMemory

  ghost predicate Inv(cfg: Config, f: Flow)
    requires cfg.Valid()
  {
    Placed(cfg, f) && Conserved(cfg, f) && Accounted(f) && Ordered(cfg, f) && InStep(cfg, f) && FlatAnswers(cfg, f)
  }

  lemma InitInv(cfg: Config, f: Flow)
    requires cfg.Valid() && InitFlow(cfg, f)
    ensures Inv(cfg, f)
  {
    InitPlaced(cfg, f);
    InitConserved(cfg, f);
    InitOrdered(cfg, f);
    InitInStep(cfg, f);
    forall c | 0 <= c < |f.lanes| ensures LaneAnswers(cfg, f.log.taken, f.lanes[c]) {
      assert InitLane(cfg, c, f.lanes[c]);
    }
  }

  lemma IssueInv(cfg: Config, f: Flow, t: Txn)
    requires cfg.Valid() && Inv(cfg, f) && CanIssue(cfg, f, t)
    ensures Inv(cfg, Issue(cfg, f, t))
  {
    IssuePlaced(cfg, f, t);
    IssueConserved(cfg, f, t);
    IssueOrdered(cfg, f, t);
    IssueAnswers(cfg, f, t);
    QuietInStep(cfg, f, Issue(cfg, f, t));
  }

  /** A step that only moves transactions on their way to route() does not
      concern the slaves. */
  lemma QuietInStep(cfg: Config, f: Flow, f': Flow)
    requires cfg.Valid() && InStep(cfg, f)
    requires |f'.lanes| == |f.lanes| && f'.slot == f.slot
    requires f'.log.taken == f.log.taken && f'.log.served == f.log.served
    requires forall d :: 0 <= d < |f.lanes| ==>
               f'.lanes[d].down == f.lanes[d].down && f'.lanes[d].books.rams == f.lanes[d].books.rams
    ensures InStep(cfg, f')
  {
    forall d | 0 <= d < |f'.lanes| ensures ClientInStep(cfg, f', d) {
      assert ClientInStep(cfg, f, d);
    }
  }

  lemma DispatchInv(cfg: Config, f: Flow, c: nat)
    requires cfg.Valid() && Inv(cfg, f) && CanDispatch(f, c)
    ensures Inv(cfg, Dispatch(f, c))
  {
    DispatchPlaced(cfg, f, c);
    DispatchedIdsLast(cfg, f, c);
    DispatchConserved(cfg, f, c);
    DispatchOrdered(cfg, f, c);
    DispatchAnswers(cfg, f, c);
    QuietInStep(cfg, f, Dispatch(f, c));
  }

  lemma TakeInv(cfg: Config, f: Flow, c: nat)
    requires cfg.Valid() && cfg.Routable() && Inv(cfg, f) && CanTake(cfg, f, c)
    ensures Inv(cfg, Take(cfg, f, c))
  {
    TakePlaced(cfg, f, c);
    TakeConserved(cfg, f, c);
    TakeOrdered(cfg, f, c);
    TakeInStep(cfg, f, c);
    TakeAnswers(cfg, f, c);
  }

  lemma GiveInv(cfg: Config, f: Flow)
    requires cfg.Valid() && Inv(cfg, f) && CanGive(f)
    ensures Inv(cfg, Give(f))
  {
    GivePlaced(cfg, f);
    GiveConserved(cfg, f);
    GiveOrdered(cfg, f);
    GiveInStep(cfg, f);
    GiveAnswers(cfg, f);
  }

  lemma HandleInv(cfg: Config, f: Flow, d: nat)
    requires cfg.Valid() && Inv(cfg, f) && CanHandle(f, d)
    ensures Inv(cfg, Handle(f, d))
  {
    HandlePlaced(cfg, f, d);
    HandleConserved(cfg, f, d);
    HandleOrdered(cfg, f, d);
    HandleInStep(cfg, f, d);
    HandleAnswers(cfg, f, d);
  }

  /** Every step keeps the invariant. */
  lemma NextInv(cfg: Config, f: Flow, f': Flow)
    requires cfg.Valid() && cfg.Routable() && Inv(cfg, f) && Next(cfg, f, f')
    ensures Inv(cfg, f')
  {
    if f' != f {
      var a :| NextBy(cfg, f, a, f');
      match a
      case StepIssue(t) => IssueInv(cfg, f, t);
      case StepDispatch(c) => DispatchInv(cfg, f, c);
      case StepTake(c) => TakeInv(cfg, f, c);
      case StepGive => GiveInv(cfg, f);
      case StepHandle(d) => HandleInv(cfg, f, d);
    }
  }

  // ------------------------------------------------------------- the meaning

  lemma {:induction false} SelectFinds(p: Txn -> bool, ts: seq<Txn>, k: nat) returns (j: nat)
    requires k < |ts| && p(ts[k])
    ensures j < |Select(p, ts)| && Select(p, ts)[j] == ts[k]
    ensures j == |Select(p, ts[..k])|
  {
    var n := |ts| - 1;
    if k == n {
      j := |Select(p, ts[..n])|;
    } else {
      j := SelectFinds(p, ts[..n], k);
      assert ts[..n][..k] == ts[..k];
    }
  }

  /** The order of route() keeps each master's issue order, and numbers its
      requests 0, 1, 2, ... . */
  lemma TakenInIssueOrder(cfg: Config, f: Flow, m: nat)
    requires cfg.Valid() && Inv(cfg, f) && m in f.log.issued
    ensures Select(RequestBy(m), f.log.taken) <= Numbered(f.log.issued[m])
  {
    assert MasterOrdered(cfg, f, m);
    var l := f.lanes[cfg.holder[m]];
    var n, issued := l.books.lastId[m], f.log.issued[m];
    assert Numbered(issued[..n]) <= Numbered(issued);
  }

  /** A taken request is the one that its master issued under that number. */
  lemma TakenIsIssued(cfg: Config, f: Flow, k: nat)
    requires cfg.Valid() && Inv(cfg, f) && k < |f.log.taken|
    ensures f.log.taken[k].initiator in f.log.issued
    ensures var t := f.log.taken[k]; var issued := f.log.issued[t.initiator];
            t.id < |issued| && t == issued[t.id].(id := t.id)
    ensures var t := f.log.taken[k]; t.id == |Select(RequestBy(t.initiator), f.log.taken[..k])|
  {
    var t := f.log.taken[k];
    TakenInIssueOrder(cfg, f, t.initiator);
    var j := SelectFinds(RequestBy(t.initiator), f.log.taken, k);
  }

  lemma {:induction false} SelectGrows(p: Txn -> bool, ts: seq<Txn>, j: nat, k: nat)
    requires j < k <= |ts| && p(ts[j])
    ensures |Select(p, ts[..j])| < |Select(p, ts[..k])|
  {
    assert ts[..k][..k - 1] == ts[..k - 1];
    if j < k - 1 {
      SelectGrows(p, ts, j, k - 1);
    }
  }

  /** No two taken requests have the same key. */
  lemma TakenKeysAreDistinct(cfg: Config, f: Flow, j: nat, k: nat)
    requires cfg.Valid() && Inv(cfg, f) && j < k < |f.log.taken|
    ensures f.log.taken[j].RequestKey() != f.log.taken[k].RequestKey()
  {
    if f.log.taken[j].RequestKey() == f.log.taken[k].RequestKey() {
      TakenIsIssued(cfg, f, j);
      TakenIsIssued(cfg, f, k);
      SelectGrows(RequestBy(f.log.taken[j].initiator), f.log.taken, j, k);
    }
  }

  /** The position at which route() took the request of a fulfilled promise. */
  ghost predicate TakenAt(f: Flow, key: Key, k: nat) {
    k < |f.log.taken| && f.log.taken[k].RequestKey() == key
  }

  /** Each fulfilled promise holds what one flat memory answers to its request
      after it has executed, one at a time, the requests that route() took
      before; that position is the only one of the request. */
  lemma PromisesAreFlat(cfg: Config, f: Flow, c: nat, key: Key) returns (k: nat)
    requires cfg.Valid() && Inv(cfg, f) && c < |f.lanes| && key in f.lanes[c].books.promises
    ensures TakenAt(f, key, k) && forall j: nat :: TakenAt(f, key, j) ==> j == k
    ensures key.master in f.log.issued && key.id < |f.log.issued[key.master]|
    ensures f.log.taken[k] == f.log.issued[key.master][key.id].(id := key.id)
    ensures f.lanes[c].books.promises[key] == OutcomeOf(Answer(cfg, f.log.taken[..k], f.log.taken[k]))
  {
    assert LaneAnswers(cfg, f.log.taken, f.lanes[c]) && LaneAccounts(f.lanes[c]) && LanePlaced(cfg, c, f.lanes[c]);
    k :| 0 <= k < |f.log.taken| && OutcomeAt(cfg, f.log.taken, k, key, f.lanes[c].books.promises[key]);
    TakenIsIssued(cfg, f, k);
    forall j: nat | TakenAt(f, key, j) ensures j == k {
      if j < k {
        TakenKeysAreDistinct(cfg, f, j, k);
      } else if k < j {
        TakenKeysAreDistinct(cfg, f, k, j);
      }
    }
  }

  /** A read that succeeds fills its buffer exactly; a write, and a request that
      fails, leave every buffer alone. */
  lemma BuffersAreFilledExactly(cfg: Config, f: Flow, c: nat, key: Key)
    requires cfg.Valid() && Inv(cfg, f) && c < |f.lanes| && key in f.lanes[c].books.promises
    ensures key.master in f.log.issued && key.id < |f.log.issued[key.master]|
    ensures var o, request := f.lanes[c].books.promises[key], f.log.issued[key.master][key.id];
            && (o.filled.Some? <==> o.ok && request.typ.READ_REQ?)
            && (o.filled.Some? ==> |o.filled.value| == request.size)
  {
    var k := PromisesAreFlat(cfg, f, c, key);
    assert MasterOrdered(cfg, f, key.master);
    assert Fresh(f.log.issued[key.master][key.id]);
  }

  /** A request succeeds exactly when its address decodes and its slave allows
      it; a request that decodes, stays in the address space and does not write
      to a read-only slave always succeeds. */
  lemma WhatSucceeds(cfg: Config, f: Flow, c: nat, key: Key)
    requires cfg.Valid() && Inv(cfg, f) && c < |f.lanes| && key in f.lanes[c].books.promises
    ensures key.master in f.log.issued && key.id < |f.log.issued[key.master]|
    ensures var o, t := f.lanes[c].books.promises[key], f.log.issued[key.master][key.id];
            match cfg.Decodes(t)
            case Miss(note) => !o.ok && o.note == note
            case Hit(i) =>
              && i < |cfg.ips|
              && (o.ok <==> !cfg.BootRam(i).Refuses(t))
              && (t.address + t.size < TWO64 && (t.typ.WRITE_REQ? ==> i !in cfg.rom) ==> o.ok)
  {
    var k := PromisesAreFlat(cfg, f, c, key);
    assert MasterOrdered(cfg, f, key.master);
    var t := f.log.issued[key.master][key.id];
    assert Fresh(t);
    if cfg.Decodes(t).Hit? {
      HitIsSlave(cfg, t);
      if t.address + t.size < TWO64 && (t.typ.WRITE_REQ? ==> cfg.Decodes(t).target !in cfg.rom) {
        DecodedIsNotRefused(cfg, t);
      }
    }
  }

  /** A step never changes a promise that has been set, and never takes back a
      request that route() took. */
  lemma PromisesStay(cfg: Config, f: Flow, f': Flow, c: nat, key: Key)
    requires cfg.Valid() && Inv(cfg, f) && Next(cfg, f, f')
    requires c < |f.lanes| && key in f.lanes[c].books.promises
    ensures |f'.lanes| == |f.lanes| && f.log.taken <= f'.log.taken
    ensures key in f'.lanes[c].books.promises && f'.lanes[c].books.promises[key] == f.lanes[c].books.promises[key]
  {
    if f' != f {
      var a :| NextBy(cfg, f, a, f');
      PromisesStayBy(cfg, f, a, f', c, key);
    }
  }

  lemma PromisesStayBy(cfg: Config, f: Flow, a: Step, f': Flow, c: nat, key: Key)
    requires cfg.Valid() && Accounted(f) && NextBy(cfg, f, a, f')
    requires c < |f.lanes| && key in f.lanes[c].books.promises
    ensures |f'.lanes| == |f.lanes| && f.log.taken <= f'.log.taken
    ensures key in f'.lanes[c].books.promises && f'.lanes[c].books.promises[key] == f.lanes[c].books.promises[key]
  {
    match a
    case StepIssue(t) =>
    case StepDispatch(b) =>
    case StepTake(b) =>
    case StepGive =>
    case StepHandle(d) =>
      assert LaneAccounts(f.lanes[c]);
      if d == c {
        PromisesStayInLane(f.lanes[c], key);
      }
  }

  lemma PromisesStayInLane(l: Lane, key: Key)
    requires LaneAccounts(l) && LaneCanHandle(l) && key in l.books.promises
    ensures var l' := LaneHandle(l);
            key in l'.books.promises && l'.books.promises[key] == l.books.promises[key]
  {
  }
}
