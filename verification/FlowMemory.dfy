/** The slaves together are one flat memory: each response in flight, and each
    fulfilled promise, is what that memory answers when it executes the requests
    one at a time in the order in which route() took them. */
module FlowMemory {
  import opened Wire
  import opened AddressMap
  import opened FlatMemory
  import opened Traffic
  import opened FlowPlacement

  // ------------------------------------------------ what the slaves have done

  function SlotRequest(slot: Option<Parcel>, d: nat): seq<Txn> {
    match slot
    case None => []
    case Some(p) => if p.txn.IsRequest() && p.dest == d then [p.txn] else []
  }

  /** The requests for client d, as route() took them, are those that its slaves
      have executed and then those on the way down, and the slaves' contents are
      what the executed ones made of them. */
  ghost predicate ClientInStep(cfg: Config, f: Flow, d: nat)
    requires cfg.Valid() && d < |f.lanes| == |f.log.served|
  {
    && ToClient(cfg, f.log.taken, d)
       == f.log.served[d] + Select(Request(), f.lanes[d].down) + SlotRequest(f.slot, d)
    && forall i: nat :: i in f.lanes[d].books.rams ==>
         i < |cfg.ips| && f.lanes[d].books.rams[i] == Content(cfg, i, f.log.served[d])
  }

  ghost predicate InStep(cfg: Config, f: Flow)
    requires cfg.Valid()
  {
    && |f.lanes| == |f.log.served|
    && forall d :: 0 <= d < |f.lanes| ==> ClientInStep(cfg, f, d)
  }

  lemma ToClientSnoc(cfg: Config, ts: seq<Txn>, t: Txn, d: nat)
    ensures ToClient(cfg, ts + [t], d)
      == ToClient(cfg, ts, d)
         + match cfg.Decodes(t)
           case Hit(i) => if i < |cfg.holder| && cfg.holder[i] == d then [t.(target := i)] else []
           case Miss(_) => []
  {
    assert (ts + [t])[..|ts + [t]| - 1] == ts;
  }

  lemma ContentSnoc(cfg: Config, i: nat, ts: seq<Txn>, t: Txn)
    requires i < |cfg.ips| == |cfg.boot|
    ensures Content(cfg, i, ts + [t])
      == if cfg.Decodes(t) == Hit(i) then Content(cfg, i, ts).After(t) else Content(cfg, i, ts)
  {
    assert (ts + [t])[..|ts + [t]| - 1] == ts;
  }

  lemma InitInStep(cfg: Config, f: Flow)
    requires cfg.Valid() && InitFlow(cfg, f)
    ensures InStep(cfg, f)
  {
    forall d | 0 <= d < |f.lanes| ensures ClientInStep(cfg, f, d) {
      assert InitLane(cfg, d, f.lanes[d]);
      assert f.log.served[d] == [];
    }
  }

  lemma TakeInStep(cfg: Config, f: Flow, c: nat)
    requires cfg.Valid() && cfg.Routable() && InStep(cfg, f) && CanTake(cfg, f, c)
    ensures InStep(cfg, Take(cfg, f, c))
  {
    var f' := Take(cfg, f, c);
    var t := f.lanes[c].up[0];
    forall d | 0 <= d < |f'.lanes| ensures ClientInStep(cfg, f', d) {
      assert ClientInStep(cfg, f, d);
      if t.IsRequest() {
        ToClientSnoc(cfg, f.log.taken, t, d);
        if cfg.Decodes(t).Hit? {
          HitIsSlave(cfg, t);
        }
      } else {
        assert f'.log.taken == f.log.taken;
      }
    }
  }

  lemma GiveStream(served: seq<Txn>, down: seq<Txn>, t: Txn)
    ensures served + Select(Request(), down + [t]) + []
         == served + Select(Request(), down) + if t.IsRequest() then [t] else []
  {
    SelectSnoc(Request(), down, t);
  }

  lemma GiveOwnStep(cfg: Config, f: Flow, d: nat)
    requires cfg.Valid() && CanGive(f) && d < |f.lanes| == |f.log.served| && ClientInStep(cfg, f, d)
    ensures ClientInStep(cfg, Give(f), d)
  {
    if f.slot.value.dest == d {
      GiveStream(f.log.served[d], f.lanes[d].down, f.slot.value.txn);
      assert Give(f).lanes[d] == f.lanes[d].(down := f.lanes[d].down + [f.slot.value.txn]);
    } else {
      assert Give(f).lanes[d] == f.lanes[d];
    }
  }

  lemma GiveInStep(cfg: Config, f: Flow)
    requires cfg.Valid() && InStep(cfg, f) && CanGive(f)
    ensures InStep(cfg, Give(f))
  {
    forall d | 0 <= d < |f.lanes| ensures ClientInStep(cfg, Give(f), d) {
      assert ClientInStep(cfg, f, d);
      GiveOwnStep(cfg, f, d);
    }
  }

  /** A slave keeps step with the requests it executes. */
  lemma HandleContent(cfg: Config, l: Lane, served: seq<Txn>, t: Txn, i: nat)
    requires cfg.Valid() && t.IsRequest() && t.target in l.books.rams && cfg.Decodes(t) == Hit(t.target)
    requires i in l.books.rams && i < |cfg.ips| && l.books.rams[i] == Content(cfg, i, served)
    ensures l.books.rams[t.target := l.books.rams[t.target].After(t)][i] == Content(cfg, i, served + [t])
  {
    ContentSnoc(cfg, i, served, t);
  }

  lemma HandleInStep(cfg: Config, f: Flow, d: nat)
    requires cfg.Valid() && Placed(cfg, f) && InStep(cfg, f) && CanHandle(f, d)
    ensures InStep(cfg, Handle(f, d))
  {
    var f' := Handle(f, d);
    forall b | 0 <= b < |f'.lanes| ensures ClientInStep(cfg, f', b) {
      assert ClientInStep(cfg, f, b);
      if b == d {
        assert LanePlaced(cfg, d, f.lanes[d]);
        HandleOwnStep(cfg, f, d);
      }
    }
  }

  lemma HandleStream(l: Lane, served: seq<Txn>, slot: seq<Txn>)
    requires LaneCanHandle(l)
    ensures served + Select(Request(), l.down) + slot
         == (if l.down[0].IsRequest() then served + [l.down[0]] else served)
            + Select(Request(), LaneHandle(l).down) + slot
  {
    SelectHead(Request(), l.down);
  }

  lemma HandleOwnStep(cfg: Config, f: Flow, d: nat)
    requires cfg.Valid() && CanHandle(f, d) && LanePlaced(cfg, d, f.lanes[d]) && ClientInStep(cfg, f, d)
    ensures ClientInStep(cfg, Handle(f, d), d)
  {
    var l, served, served' := f.lanes[d], f.log.served[d], Handle(f, d).log.served[d];
    var t := l.down[0];
    assert Inbound(cfg, l, t);
    HandleStream(l, served, SlotRequest(f.slot, d));
    forall i: nat | i in LaneHandle(l).books.rams
      ensures i < |cfg.ips| && LaneHandle(l).books.rams[i] == Content(cfg, i, served')
    {
      if t.IsRequest() {
        HandleContent(cfg, l, served, t, i);
      }
    }
  }

  // ------------------------------------------------------------------ answers

  /** t is what the flat memory answers to some taken request. */
  ghost predicate IsAnswer(cfg: Config, taken: seq<Txn>, t: Txn) {
    exists k :: 0 <= k < |taken| && AnswersAt(cfg, taken, k, t)
  }

  ghost predicate AnswersAt(cfg: Config, taken: seq<Txn>, k: nat, t: Txn)
    requires k < |taken|
  {
    t == Answer(cfg, taken[..k], taken[k])
  }

  ghost predicate IsOutcome(cfg: Config, taken: seq<Txn>, key: Key, o: Outcome) {
    exists k :: 0 <= k < |taken| && OutcomeAt(cfg, taken, k, key, o)
  }

  ghost predicate OutcomeAt(cfg: Config, taken: seq<Txn>, k: nat, key: Key, o: Outcome)
    requires k < |taken|
  {
    taken[k].RequestKey() == key && o == OutcomeOf(Answer(cfg, taken[..k], taken[k]))
  }

  ghost predicate AllAnswers(cfg: Config, taken: seq<Txn>, ts: seq<Txn>) {
    forall j :: 0 <= j < |ts| && !ts[j].IsRequest() ==> IsAnswer(cfg, taken, ts[j])
  }

  ghost predicate LaneAnswers(cfg: Config, taken: seq<Txn>, l: Lane) {
    && AllAnswers(cfg, taken, l.queue) && AllAnswers(cfg, taken, l.up) && AllAnswers(cfg, taken, l.down)
    && forall key :: key in l.books.promises ==> IsOutcome(cfg, taken, key, l.books.promises[key])
  }

  ghost predicate FlatAnswers(cfg: Config, f: Flow) {
    && (f.slot.Some? && !f.slot.value.txn.IsRequest() ==> IsAnswer(cfg, f.log.taken, f.slot.value.txn))
    && forall c :: 0 <= c < |f.lanes| ==> LaneAnswers(cfg, f.log.taken, f.lanes[c])
  }

  lemma AnswerHasKey(cfg: Config, ops: seq<Txn>, t: Txn)
    requires t.IsRequest()
    ensures Answer(cfg, ops, t).RequestKey() == t.RequestKey() && !Answer(cfg, ops, t).IsRequest()
  {
  }

  /** Answers stay answers when more requests are taken. */
  lemma StillAnswers(cfg: Config, taken: seq<Txn>, more: seq<Txn>, l: Lane)
    requires LaneAnswers(cfg, taken, l)
    ensures LaneAnswers(cfg, taken + more, l)
  {
    forall t | IsAnswer(cfg, taken, t) ensures IsAnswer(cfg, taken + more, t) {
      StillAnswer(cfg, taken, more, t);
    }
    forall key | key in l.books.promises ensures IsOutcome(cfg, taken + more, key, l.books.promises[key]) {
      var k :| 0 <= k < |taken| && OutcomeAt(cfg, taken, k, key, l.books.promises[key]);
      assert (taken + more)[..k] == taken[..k];
      assert OutcomeAt(cfg, taken + more, k, key, l.books.promises[key]);
    }
  }

  lemma StillAnswer(cfg: Config, taken: seq<Txn>, more: seq<Txn>, t: Txn)
    requires IsAnswer(cfg, taken, t)
    ensures IsAnswer(cfg, taken + more, t)
  {
    var k :| 0 <= k < |taken| && AnswersAt(cfg, taken, k, t);
    assert (taken + more)[..k] == taken[..k];
    assert AnswersAt(cfg, taken + more, k, t);
  }

  /** A lane whose transactions come from this one has answers too. */
  lemma Subset(cfg: Config, taken: seq<Txn>, l: Lane, l': Lane)
    requires LaneAnswers(cfg, taken, l)
    requires forall t :: t in l'.queue && !t.IsRequest() ==> t in l.queue || IsAnswer(cfg, taken, t)
    requires forall t :: t in l'.up && !t.IsRequest() ==> t in l.up || t in l.queue
    requires forall t :: t in l'.down && !t.IsRequest() ==> t in l.down || IsAnswer(cfg, taken, t)
    requires forall key :: key in l'.books.promises ==> IsOutcome(cfg, taken, key, l'.books.promises[key])
    ensures LaneAnswers(cfg, taken, l')
  {
    forall j | 0 <= j < |l'.queue| && !l'.queue[j].IsRequest() ensures IsAnswer(cfg, taken, l'.queue[j]) {
      assert l'.queue[j] in l'.queue;
    }
    forall j | 0 <= j < |l'.up| && !l'.up[j].IsRequest() ensures IsAnswer(cfg, taken, l'.up[j]) {
      assert l'.up[j] in l'.up;
    }
    forall j | 0 <= j < |l'.down| && !l'.down[j].IsRequest() ensures IsAnswer(cfg, taken, l'.down[j]) {
      assert l'.down[j] in l'.down;
    }
  }

  lemma IssueAnswers(cfg: Config, f: Flow, t: Txn)
    requires cfg.Valid() && FlatAnswers(cfg, f) && CanIssue(cfg, f, t)
    ensures FlatAnswers(cfg, Issue(cfg, f, t))
  {
    var c := cfg.holder[t.initiator];
    assert LaneAnswers(cfg, f.log.taken, f.lanes[c]);
    Subset(cfg, f.log.taken, f.lanes[c], Issue(cfg, f, t).lanes[c]);
  }

  lemma DispatchAnswers(cfg: Config, f: Flow, c: nat)
    requires FlatAnswers(cfg, f) && CanDispatch(f, c)
    ensures FlatAnswers(cfg, Dispatch(f, c))
  {
    assert LaneAnswers(cfg, f.log.taken, f.lanes[c]);
    Subset(cfg, f.log.taken, f.lanes[c], Dispatch(f, c).lanes[c]);
  }

  lemma TakeAnswers(cfg: Config, f: Flow, c: nat)
    requires cfg.Valid() && FlatAnswers(cfg, f) && CanTake(cfg, f, c)
    ensures FlatAnswers(cfg, Take(cfg, f, c))
  {
    var f', t := Take(cfg, f, c), f.lanes[c].up[0];
    var more := if t.IsRequest() then [t] else [];
    assert LaneAnswers(cfg, f.log.taken, f.lanes[c]);
    Subset(cfg, f.log.taken, f.lanes[c], f'.lanes[c]);
    forall b | 0 <= b < |f'.lanes| ensures LaneAnswers(cfg, f'.log.taken, f'.lanes[b]) {
      assert LaneAnswers(cfg, f.log.taken, f.lanes[b]);
      StillAnswers(cfg, f.log.taken, more, f'.lanes[b]);
    }
    if !t.IsRequest() {
      assert IsAnswer(cfg, f.log.taken, t);
      assert f'.log.taken == f.log.taken;
    } else if cfg.Decodes(t).Miss? {
      var k := |f.log.taken|;
      assert f'.log.taken[..k] == f.log.taken;
      assert AnswersAt(cfg, f'.log.taken, k, f'.slot.value.txn);
    }
  }

  lemma GiveAnswers(cfg: Config, f: Flow)
    requires FlatAnswers(cfg, f) && CanGive(f)
    ensures FlatAnswers(cfg, Give(f))
  {
    var d := f.slot.value.dest;
    assert LaneAnswers(cfg, f.log.taken, f.lanes[d]);
    Subset(cfg, f.log.taken, f.lanes[d], Give(f).lanes[d]);
  }

  /** The next request for a client is the first one that its slaves have not
      executed, in the order of route(). */
  lemma {:induction false} NextServed(cfg: Config, taken: seq<Txn>, d: nat, served: seq<Txn>, t: Txn, rest: seq<Txn>)
      returns (k: nat, i: nat)
    requires ToClient(cfg, taken, d) == served + [t] + rest
    ensures k < |taken| && ToClient(cfg, taken[..k], d) == served
    ensures cfg.Decodes(taken[k]) == Hit(i) && i < |cfg.holder| && cfg.holder[i] == d && t == taken[k].(target := i)
  {
    var n := |taken| - 1;
    var hit := match cfg.Decodes(taken[n])
      case Hit(j) => j < |cfg.holder| && cfg.holder[j] == d
      case Miss(_) => false;
    if !hit {
      assert ToClient(cfg, taken, d) == ToClient(cfg, taken[..n], d);
      k, i := NextServed(cfg, taken[..n], d, served, t, rest);
      assert taken[..n][..k] == taken[..k];
    } else if rest == [] {
      k, i := n, cfg.Decodes(taken[n]).target;
      assert ToClient(cfg, taken, d)[..|served|] == ToClient(cfg, taken[..n], d);
      assert ToClient(cfg, taken, d)[|served|] == t;
    } else {
      var r := |rest| - 1;
      assert ToClient(cfg, taken, d)[..|ToClient(cfg, taken, d)| - 1] == ToClient(cfg, taken[..n], d);
      assert (served + [t] + rest)[..|served + [t] + rest| - 1] == served + [t] + rest[..r];
      k, i := NextServed(cfg, taken[..n], d, served, t, rest[..r]);
      assert taken[..n][..k] == taken[..k];
    }
  }

  /** For a slave, only the requests to its own client matter. */
  lemma {:induction false} ContentOfClient(cfg: Config, i: nat, ops: seq<Txn>, d: nat)
    requires cfg.Valid() && i < |cfg.ips| && cfg.holder[i] == d
    ensures Content(cfg, i, ToClient(cfg, ops, d)) == Content(cfg, i, ops)
  {
    if ops != [] {
      var n := |ops| - 1;
      ContentOfClient(cfg, i, ops[..n], d);
      ToClientSnoc(cfg, ops[..n], ops[n], d);
      assert ops == ops[..n] + [ops[n]];
      SameContent(cfg, i, ToClient(cfg, ops[..n], d), ops[..n], ops[n], d);
    }
  }

  lemma SameContent(cfg: Config, i: nat, mine: seq<Txn>, ops: seq<Txn>, t: Txn, d: nat)
    requires cfg.Valid() && i < |cfg.ips| && cfg.holder[i] == d
    requires Content(cfg, i, mine) == Content(cfg, i, ops)
    ensures Content(cfg, i, mine + match cfg.Decodes(t)
              case Hit(j) => if j < |cfg.holder| && cfg.holder[j] == d then [t.(target := j)] else []
              case Miss(_) => [])
            == Content(cfg, i, ops + [t])
  {
    ContentSnoc(cfg, i, ops, t);
    if cfg.Decodes(t).Hit? && cfg.Decodes(t).target < |cfg.holder| && cfg.holder[cfg.Decodes(t).target] == d {
      ContentSnoc(cfg, i, mine, t.(target := cfg.Decodes(t).target));
    } else {
      assert mine + [] == mine;
    }
  }

  lemma HandleAnswers(cfg: Config, f: Flow, d: nat)
    requires cfg.Valid() && Placed(cfg, f) && InStep(cfg, f) && FlatAnswers(cfg, f) && CanHandle(f, d)
    requires forall k :: 0 <= k < |f.log.taken| ==> f.log.taken[k].IsRequest()
    ensures FlatAnswers(cfg, Handle(f, d))
  {
    var f', l, taken := Handle(f, d), f.lanes[d], f.log.taken;
    var t := l.down[0];
    assert LaneAnswers(cfg, taken, l);
    if t.IsRequest() {
      ReplyIsAnswer(cfg, f, d);
    } else {
      var k :| 0 <= k < |taken| && AnswersAt(cfg, taken, k, t);
      AnswerHasKey(cfg, taken[..k], taken[k]);
      assert OutcomeAt(cfg, taken, k, t.RequestKey(), OutcomeOf(t));
    }
    Subset(cfg, taken, l, f'.lanes[d]);
  }

  /** The slave that is about to execute a request answers it as the flat memory. */
  lemma RamAnswers(cfg: Config, taken: seq<Txn>, k: nat, i: nat, d: nat, served: seq<Txn>, t: Txn, ram: Ram)
    requires cfg.Valid() && k < |taken| && taken[k].IsRequest() && ToClient(cfg, taken[..k], d) == served
    requires cfg.Decodes(taken[k]) == Hit(i) && i < |cfg.holder| && cfg.holder[i] == d && t == taken[k].(target := i)
    requires ram == Content(cfg, i, served)
    ensures AnswersAt(cfg, taken, k, Response(t, ram.Refuses(t), ram.Fetch(t)))
  {
    HitIsSlave(cfg, taken[k]);
    ContentOfClient(cfg, i, taken[..k], d);
    SlaveAnswersAsFlat(cfg, i, taken[..k], taken[k]);
    assert ram.Refuses(t) == ram.Refuses(taken[k]) && ram.Fetch(t) == ram.Fetch(taken[k]);
  }

  /** What a client's slaves execute next, in the order of route(). */
  lemma NextForClient(cfg: Config, f: Flow, d: nat) returns (rest: seq<Txn>)
    requires cfg.Valid() && d < |f.lanes| == |f.log.served| && ClientInStep(cfg, f, d)
    requires f.lanes[d].down != [] && f.lanes[d].down[0].IsRequest()
    ensures ToClient(cfg, f.log.taken, d) == f.log.served[d] + [f.lanes[d].down[0]] + rest
  {
    SelectHead(Request(), f.lanes[d].down);
    rest := Select(Request(), f.lanes[d].down[1..]) + SlotRequest(f.slot, d);
  }

  lemma ReplyIsAnswer(cfg: Config, f: Flow, d: nat)
    requires cfg.Valid() && InStep(cfg, f) && CanHandle(f, d)
    requires forall k :: 0 <= k < |f.log.taken| ==> f.log.taken[k].IsRequest()
    requires f.lanes[d].down[0].IsRequest()
    ensures IsAnswer(cfg, f.log.taken, f.lanes[d].books.Reply(f.lanes[d].down[0]))
  {
    var t, served := f.lanes[d].down[0], f.log.served[d];
    assert ClientInStep(cfg, f, d);
    var rest := NextForClient(cfg, f, d);
    var k, i := NextServed(cfg, f.log.taken, d, served, t, rest);
    RamAnswers(cfg, f.log.taken, k, i, d, served, t, f.lanes[d].books.rams[t.target]);
  }
}
