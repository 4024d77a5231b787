/** What becomes of a request, told in terms of the list of blocks, the contents
    that the slaves start with and the requests themselves. */
module Outcomes {
  import opened Wire
  import opened AddressMap
  import opened FlatMemory
  import opened Traffic
  import opened FlowOrder
  import opened FlowMemory
  import opened System
  import opened Refinement
  import opened Guarantees
  import FlowSafety

  // -------------------------------------------------------------- the verdict

  /** The request starts inside block i; all of it lies there. */
  predicate StartsIn(cfg: Config, t: Txn, i: nat) {
    i < |cfg.ips| && cfg.ips[i].address <= t.address < cfg.ips[i].address + cfg.ips[i].size
  }

  predicate LiesIn(cfg: Config, t: Txn, i: nat) {
    StartsIn(cfg, t, i) && t.address + t.size <= cfg.ips[i].address + cfg.ips[i].size
  }

  /** It starts inside block i, and leaves the address space so far that the wrapped
      end comes out low enough. */
  predicate WrapsPast(cfg: Config, t: Txn, i: nat) {
    StartsIn(cfg, t, i) && TWO64 <= t.address + t.size <= TWO64 + cfg.ips[i].address + cfg.ips[i].size
  }

  /** Block i carries it out. */
  predicate Served(cfg: Config, t: Txn, i: nat) {
    LiesIn(cfg, t, i) && (t.typ.WRITE_REQ? ==> i !in cfg.rom)
  }

  /** What speaks for each text; NoText is that of a success. */
  ghost predicate Reason(cfg: Config, t: Txn, note: Note) {
    match note
    case NoText => exists i: nat :: Served(cfg, t, i)
    case NoBlockAtAddress => forall i: nat :: !StartsIn(cfg, t, i)
    case SpansBoundary => exists i: nat :: StartsIn(cfg, t, i) && !LiesIn(cfg, t, i) && !WrapsPast(cfg, t, i)
    case SlaveFailed => exists i: nat :: WrapsPast(cfg, t, i) || (LiesIn(cfg, t, i) && t.typ.WRITE_REQ? && i in cfg.rom)
  }

  lemma OneBlock(cfg: Config, t: Txn, i: nat, j: nat)
    requires cfg.Valid() && StartsIn(cfg, t, i) && StartsIn(cfg, t, j)
    ensures i == j
  {
    assert cfg.ips[i] in cfg.ips && cfg.ips[j] in cfg.ips;
    CoveringBlockIsUnique(cfg.ips, t.address, i, j);
  }

  lemma DecodesIn(cfg: Config, t: Txn, i: nat)
    requires cfg.Valid() && StartsIn(cfg, t, i)
    ensures cfg.Decodes(t) == if LiesIn(cfg, t, i) || WrapsPast(cfg, t, i) then Hit(i) else Miss(SpansBoundary)
    ensures |cfg.boot| == |cfg.ips| && (Sized(t) ==> (cfg.BootRam(i).Refuses(t) <==> !Served(cfg, t, i)))
  {
    assert cfg.IpValid(i) && cfg.ips[i] in cfg.ips;
    BlockAtIs(cfg.ips, t.address, i);
  }

  lemma DecodesNowhere(cfg: Config, t: Txn)
    requires cfg.Valid() && forall i: nat :: !StartsIn(cfg, t, i)
    ensures cfg.Decodes(t) == Miss(NoBlockAtAddress)
  {
    BlockAtFinds(cfg.ips, t.address, 0);
    var b := BlockAt(cfg.ips, t.address);
    if b.Some? {
      assert cfg.ips[b.value] in cfg.ips;
      assert StartsIn(cfg, t, b.value);
    }
  }

  /** A request carries as much data as it says. */
  predicate Sized(t: Txn) { t.IsRequest() && |t.data| == if t.typ.WRITE_REQ? then t.size else 0 }

  // ----------------------------------------------------------- the last write

  /** The request is a write that some block carries out, over this address. */
  ghost predicate Writes(cfg: Config, t: Txn, a: int) {
    t.typ.WRITE_REQ? && t.address <= a < t.address + t.size && exists i: nat :: Served(cfg, t, i)
  }

  lemma AppliedIsServed(cfg: Config, t: Txn)
    requires cfg.Valid() && Sized(t) && t.typ.WRITE_REQ?
    ensures Applied(cfg, t) <==> exists i: nat :: Served(cfg, t, i)
  {
    if i: nat :| StartsIn(cfg, t, i) {
      DecodesIn(cfg, t, i);
      forall j: nat | Served(cfg, t, j) ensures j == i {
        OneBlock(cfg, t, i, j);
      }
    } else {
      DecodesNowhere(cfg, t);
    }
  }

  /** Of the first k requests, number w is the last to write there. */
  ghost predicate IsLastWrite(cfg: Config, taken: seq<Txn>, k: nat, a: int, w: nat)
    requires k <= |taken|
  {
    && w < k && Writes(cfg, taken[w], a) && a - taken[w].address < |taken[w].data|
    && forall v :: w < v < k ==> !Writes(cfg, taken[v], a)
  }

  /** After the first k requests the byte is that of the last write over the address,
      and the one that block i starts with if there is none. */
  ghost predicate IsLatest(cfg: Config, taken: seq<Txn>, k: nat, a: int, i: nat, b: byte)
    requires k <= |taken| && i < |cfg.ips| == |cfg.boot|
  {
    && (forall w: nat :: IsLastWrite(cfg, taken, k, a, w) ==> b == taken[w].data[a - taken[w].address])
    && (0 <= a - cfg.ips[i].address < |cfg.boot[i]| && (forall w :: 0 <= w < k ==> !Writes(cfg, taken[w], a)) ==>
          b == cfg.boot[i][a - cfg.ips[i].address])
  }

  /** One more request: a write over the address makes the byte, and any other leaves
      it. */
  lemma LatestNext(cfg: Config, taken: seq<Txn>, k: nat, a: int, i: nat, b: byte, b': byte)
    requires k < |taken| && i < |cfg.ips| == |cfg.boot| && IsLatest(cfg, taken, k, a, i, b)
    requires var t := taken[k];
             if Writes(cfg, t, a) then a - t.address < |t.data| && b' == t.data[a - t.address] else b' == b
    ensures IsLatest(cfg, taken, k + 1, a, i, b')
  {
    forall w: nat | IsLastWrite(cfg, taken, k + 1, a, w) ensures b' == taken[w].data[a - taken[w].address] {
      if w < k {
        assert !Writes(cfg, taken[k], a);
        assert IsLastWrite(cfg, taken, k, a, w);
      }
    }
  }

  lemma {:induction false} FlatByteIsLatest(cfg: Config, taken: seq<Txn>, k: nat, a: int, i: nat)
    requires cfg.Valid() && k <= |taken| && (forall w :: 0 <= w < k ==> Sized(taken[w]))
    requires i < |cfg.ips| && cfg.ips[i].Contains(a)
    ensures IsLatest(cfg, taken, k, a, i, FlatByte(cfg, taken[..k], a))
  {
    if k == 0 {
      assert cfg.IpValid(i) && cfg.ips[i] in cfg.ips;
      BlockAtIs(cfg.ips, a, i);
    } else {
      FlatByteIsLatest(cfg, taken, k - 1, a, i);
      FlatByteAfter(cfg, taken[..k - 1], taken[k - 1], a);
      assert taken[..k - 1] + [taken[k - 1]] == taken[..k];
      LatestNext(cfg, taken, k - 1, a, i, FlatByte(cfg, taken[..k - 1], a), FlatByte(cfg, taken[..k], a));
    }
  }

  lemma FlatByteAfter(cfg: Config, ops: seq<Txn>, t: Txn, a: int)
    requires cfg.Valid() && Sized(t)
    ensures if Writes(cfg, t, a) then a - t.address < |t.data| && FlatByte(cfg, ops + [t], a) == t.data[a - t.address]
            else FlatByte(cfg, ops + [t], a) == FlatByte(cfg, ops, a)
  {
    assert (ops + [t])[..|ops|] == ops;
    if t.typ.WRITE_REQ? {
      AppliedIsServed(cfg, t);
    }
  }

  // --------------------------------------------------------------- the answer

  /** What a response to t says when the earlier requests were ops. */
  ghost predicate Right(cfg: Config, ops: seq<Txn>, t: Txn, r: Txn) {
    && r.initiator == t.initiator && r.id == t.id
    && (r.typ.READ_RESP? <==> t.typ.READ_REQ?) && (r.typ.WRITE_RESP? <==> t.typ.WRITE_REQ?)
    && (forall note :: r.message == note <==> Reason(cfg, t, note))
    && (r.ok <==> r.message == NoText)
    && (if r.message in {NoBlockAtAddress, SpansBoundary} then r.target == 0 && r.address == 0 && r.size == 0
        else StartsIn(cfg, t, r.target) && r.address == t.address && r.size == t.size)
    && |r.data| == (if r.ok && t.typ.READ_REQ? then t.size else 0)
    && (forall j :: 0 <= j < |r.data| ==> r.data[j] == FlatByte(cfg, ops, t.address + j))
  }

  lemma ReasonNowhere(cfg: Config, t: Txn, note: Note)
    requires cfg.Valid() && forall i: nat :: !StartsIn(cfg, t, i)
    ensures Reason(cfg, t, note) <==> note == NoBlockAtAddress
  {
  }

  lemma ReasonIn(cfg: Config, t: Txn, i: nat, note: Note)
    requires cfg.Valid() && Sized(t) && StartsIn(cfg, t, i)
    ensures Reason(cfg, t, note) <==>
      note == if Served(cfg, t, i) then NoText
              else if LiesIn(cfg, t, i) || WrapsPast(cfg, t, i) then SlaveFailed
              else SpansBoundary
  {
    assert cfg.IpValid(i) && cfg.ips[i] in cfg.ips;
    forall j: nat | StartsIn(cfg, t, j) ensures j == i {
      OneBlock(cfg, t, i, j);
    }
  }

  lemma AnswerIsRight(cfg: Config, ops: seq<Txn>, t: Txn)
    requires cfg.Valid() && Sized(t)
    ensures Right(cfg, ops, t, Answer(cfg, ops, t))
  {
    if i: nat :| StartsIn(cfg, t, i) {
      DecodesIn(cfg, t, i);
      forall note ensures Answer(cfg, ops, t).message == note <==> Reason(cfg, t, note) {
        ReasonIn(cfg, t, i, note);
      }
    } else {
      DecodesNowhere(cfg, t);
      forall note ensures Answer(cfg, ops, t).message == note <==> Reason(cfg, t, note) {
        ReasonNowhere(cfg, t, note);
      }
    }
  }

  // ------------------------------------------------------------ in every run

  lemma TakenIsSized(cfg: Config, f: Flow, k: nat)
    requires cfg.Valid() && FlowSafety.Inv(cfg, f) && k < |f.log.taken|
    ensures Sized(f.log.taken[k])
    ensures var t := f.log.taken[k];
            t.initiator in f.log.issued && t.id < |f.log.issued[t.initiator]|
            && t == f.log.issued[t.initiator][t.id].(id := t.id)
  {
    FlowSafety.TakenIsIssued(cfg, f, k);
    assert MasterOrdered(cfg, f, f.log.taken[k].initiator);
  }

  /** The transaction is in a queue or in a bridge's hands, on its way up or down, or
      held by route(). */
  predicate Underway(f: Flow, r: Txn) {
    || (f.slot.Some? && f.slot.value.txn == r)
    || exists c :: 0 <= c < |f.lanes| && (r in f.lanes[c].queue || r in f.lanes[c].up || r in f.lanes[c].down)
  }

  lemma AnsweredRequest(cfg: Config, f: Flow, r: Txn) returns (k: nat)
    requires cfg.Valid() && FlowSafety.Inv(cfg, f) && !r.IsRequest() && Underway(f, r)
    ensures k < |f.log.taken| && Right(cfg, f.log.taken[..k], f.log.taken[k], r)
    ensures r.initiator in f.log.issued && r.id < |f.log.issued[r.initiator]|
    ensures f.log.taken[k] == f.log.issued[r.initiator][r.id].(id := r.id)
  {
    var taken := f.log.taken;
    UnderwayIsAnswer(cfg, f, r);
    k :| 0 <= k < |taken| && AnswersAt(cfg, taken, k, r);
    TakenIsSized(cfg, f, k);
    AnswerIsRight(cfg, taken[..k], taken[k]);
  }

  lemma UnderwayIsAnswer(cfg: Config, f: Flow, r: Txn)
    requires FlatAnswers(cfg, f) && !r.IsRequest() && Underway(f, r)
    ensures IsAnswer(cfg, f.log.taken, r)
  {
    if !(f.slot.Some? && f.slot.value.txn == r) {
      var c :| 0 <= c < |f.lanes| && (r in f.lanes[c].queue || r in f.lanes[c].up || r in f.lanes[c].down);
      assert LaneAnswers(cfg, f.log.taken, f.lanes[c]);
    }
  }

  /** Every response that a bridge has queued or route() has made up, wherever it is,
      is the right one to a request that its master has issued and route() has
      taken: of the right kind, with the right verdict and the right bytes. */
  lemma ResponsesAreRight(cfg: Config, s: Session, r: Txn) returns (k: nat)
    requires cfg.Valid() && cfg.Routable() && Reachable(cfg, s) && !r.IsRequest() && Underway(FlowOf(s), r)
    ensures k < |s.log.taken| && Right(cfg, s.log.taken[..k], s.log.taken[k], r)
    ensures r.initiator in s.log.issued && r.id < |s.log.issued[r.initiator]|
    ensures s.log.taken[k] == s.log.issued[r.initiator][r.id].(id := r.id)
  {
    ReachableIsGood(cfg, s);
    k := AnsweredRequest(cfg, FlowOf(s), r);
  }

  /** What a promise says of request t when the requests ops came before it. */
  ghost predicate Told(cfg: Config, ops: seq<Txn>, t: Txn, o: Outcome) {
    && (forall note :: o.note == note <==> Reason(cfg, t, note))
    && (o.ok <==> o.note == NoText)
    && (o.filled.Some? <==> o.ok && t.typ.READ_REQ?)
    && (o.filled.Some? ==>
          && |o.filled.value| == t.size
          && forall j :: 0 <= j < t.size ==> o.filled.value[j] == FlatByte(cfg, ops, t.address + j))
  }

  lemma OutcomeTells(cfg: Config, ops: seq<Txn>, t: Txn)
    requires cfg.Valid() && Sized(t)
    ensures Told(cfg, ops, t, OutcomeOf(Answer(cfg, ops, t)))
  {
    AnswerIsRight(cfg, ops, t);
  }

  lemma TellsTheSame(cfg: Config, ops: seq<Txn>, t: Txn, t': Txn, o: Outcome)
    requires t == t'.(id := t.id) && Told(cfg, ops, t, o)
    ensures Told(cfg, ops, t', o)
  {
    forall note ensures Reason(cfg, t, note) <==> Reason(cfg, t', note) {
      SameReason(cfg, t, t', note);
    }
  }

  lemma ToldInFlow(cfg: Config, f: Flow, c: nat, key: Key) returns (k: nat)
    requires cfg.Valid() && FlowSafety.Inv(cfg, f) && c < |f.lanes| && key in f.lanes[c].books.promises
    ensures key.master in f.log.issued && key.id < |f.log.issued[key.master]|
    ensures k < |f.log.taken| && f.log.taken[k] == f.log.issued[key.master][key.id].(id := key.id)
    ensures Told(cfg, f.log.taken[..k], f.log.issued[key.master][key.id], f.lanes[c].books.promises[key])
  {
    k := FlowSafety.PromisesAreFlat(cfg, f, c, key);
    TakenIsSized(cfg, f, k);
    OutcomeTells(cfg, f.log.taken[..k], f.log.taken[k]);
    TellsTheSame(cfg, f.log.taken[..k], f.log.taken[k], f.log.issued[key.master][key.id], f.lanes[c].books.promises[key]);
  }

  /** What a master is told: success exactly when some block holds the whole range
      and allows the access, and otherwise which of the reasons applies; a read
      that succeeds has filled its buffer with the bytes of the flat memory at its
      place k in the order of route(), and nothing else touches a buffer. */
  lemma WhatAMasterIsTold(cfg: Config, s: Session, c: nat, key: Key) returns (k: nat)
    requires cfg.Valid() && cfg.Routable() && Reachable(cfg, s) && c < |s.conns| && key in BooksOf(s, c).promises
    ensures key.master in s.log.issued && key.id < |s.log.issued[key.master]|
    ensures k < |s.log.taken| && s.log.taken[k] == s.log.issued[key.master][key.id].(id := key.id)
    ensures Told(cfg, s.log.taken[..k], s.log.issued[key.master][key.id], BooksOf(s, c).promises[key])
  {
    ReachableIsGood(cfg, s);
    k := ToldInFlow(cfg, FlowOf(s), c, key);
  }

  /** The id does not matter. */
  lemma SameReason(cfg: Config, t: Txn, t': Txn, note: Note)
    requires t == t'.(id := t.id)
    ensures Reason(cfg, t, note) <==> Reason(cfg, t', note)
  {
    forall i: nat
      ensures StartsIn(cfg, t, i) == StartsIn(cfg, t', i) && LiesIn(cfg, t, i) == LiesIn(cfg, t', i)
      ensures WrapsPast(cfg, t, i) == WrapsPast(cfg, t', i) && Served(cfg, t, i) == Served(cfg, t', i)
    {
    }
  }

  lemma LatestInFlow(cfg: Config, f: Flow, k: nat, a: int, i: nat)
    requires cfg.Valid() && FlowSafety.Inv(cfg, f) && k <= |f.log.taken| && i < |cfg.ips| && cfg.ips[i].Contains(a)
    ensures |cfg.boot| == |cfg.ips| && IsLatest(cfg, f.log.taken, k, a, i, FlatByte(cfg, f.log.taken[..k], a))
  {
    forall w | 0 <= w < k ensures Sized(f.log.taken[w]) {
      TakenIsSized(cfg, f, w);
    }
    FlatByteIsLatest(cfg, f.log.taken, k, a, i);
  }

  lemma SucceedsIn(cfg: Config, ops: seq<Txn>, t: Txn, o: Outcome) returns (i: nat)
    requires Told(cfg, ops, t, o) && o.ok
    ensures LiesIn(cfg, t, i)
  {
    assert Reason(cfg, t, NoText);
    i :| Served(cfg, t, i);
  }

  lemma LatestInRun(cfg: Config, s: Session, k: nat, a: int, i: nat)
    requires cfg.Valid() && cfg.Routable() && Reachable(cfg, s)
    requires k <= |s.log.taken| && i < |cfg.ips| && cfg.ips[i].Contains(a)
    ensures |cfg.boot| == |cfg.ips| && IsLatest(cfg, s.log.taken, k, a, i, FlatByte(cfg, s.log.taken[..k], a))
  {
    ReachableIsGood(cfg, s);
    LatestInFlow(cfg, FlowOf(s), k, a, i);
  }

  /** Each byte that a read brings is the one that the last earlier write over its
      address put there, earlier in the order of route(), or else the one that the
      block started with. */
  lemma ReadsSeeTheLastWrite(cfg: Config, s: Session, c: nat, key: Key, j: nat) returns (k: nat, i: nat)
    requires cfg.Valid() && cfg.Routable() && Reachable(cfg, s) && c < |s.conns| && key in BooksOf(s, c).promises
    requires BooksOf(s, c).promises[key].filled.Some? && j < |BooksOf(s, c).promises[key].filled.value|
    ensures key.master in s.log.issued && key.id < |s.log.issued[key.master]|
    ensures k < |s.log.taken| && s.log.taken[k] == s.log.issued[key.master][key.id].(id := key.id)
    ensures LiesIn(cfg, s.log.issued[key.master][key.id], i) && |cfg.boot| == |cfg.ips|
    ensures IsLatest(cfg, s.log.taken, k, s.log.issued[key.master][key.id].address + j, i,
                     BooksOf(s, c).promises[key].filled.value[j])
  {
    k := WhatAMasterIsTold(cfg, s, c, key);
    i := ReadIsLatest(cfg, s, k, s.log.issued[key.master][key.id], BooksOf(s, c).promises[key], j);
  }

  lemma ReadIsLatest(cfg: Config, s: Session, k: nat, t: Txn, o: Outcome, j: nat) returns (i: nat)
    requires cfg.Valid() && cfg.Routable() && Reachable(cfg, s) && k <= |s.log.taken|
    requires Told(cfg, s.log.taken[..k], t, o) && o.filled.Some? && j < |o.filled.value|
    ensures LiesIn(cfg, t, i) && |cfg.boot| == |cfg.ips|
    ensures IsLatest(cfg, s.log.taken, k, t.address + j, i, o.filled.value[j])
  {
    i := SucceedsIn(cfg, s.log.taken[..k], t, o);
    LatestInRun(cfg, s, k, t.address + j, i);
  }
}
