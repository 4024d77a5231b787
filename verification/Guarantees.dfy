/** What every run of the started system guarantees to the masters, from the
    start on and under every interleaving of threads and goroutines. */
module Guarantees {
  import opened Wire
  import opened FlatMemory
  import opened Bookkeeping
  import opened Traffic
  import opened Monitor
  import opened System
  import opened Refinement
  import opened Closing
  import opened Progress
  import opened Termination
  import opened Shutdown
  import opened CleanShutdown
  import FlowConservation
  import FlowOrder
  import FlowPlacement
  import FlowSafety

  /** s is reached in some run of the system. */
  ghost predicate Reachable(cfg: Config, s: Session)
    requires cfg.Valid()
  {
    exists s0: Session, acts: seq<Act> :: InitSession(cfg, s0) && Run(cfg, s0, acts, s)
  }

  lemma ReachableIsGood(cfg: Config, s: Session)
    requires cfg.Valid() && cfg.Routable() && Reachable(cfg, s)
    ensures Good(cfg, s) && FlowSafety.Inv(cfg, FlowOf(s))
  {
    var s0: Session, acts: seq<Act> :| InitSession(cfg, s0) && Run(cfg, s0, acts, s);
    InitGood(cfg, s0);
    RunGood(cfg, s0, acts, s);
  }

  function BooksOf(s: Session, c: nat): Books
    requires c < |s.conns|
  {
    s.conns[c].bridge.books
  }

  /** How many messages in hands, sockets, channels and queues carry the key. */
  function Carriers(s: Session, key: Key): nat {
    FlowConservation.InFlight(FlowOf(s), key)
  }

  lemma ConservedWhenGood(cfg: Config, s: Session, key: Key)
    requires cfg.Valid() && Good(cfg, s) && key.master in s.log.issued
    ensures cfg.IsMaster(key.master) && cfg.holder[key.master] < |s.conns|
    ensures Carriers(s, key) == if key in BooksOf(s, cfg.holder[key.master]).txns then 1 else 0
  {
    assert cfg.IpValid(key.master);
    var f := FlowOf(s);
    assert FlowConservation.InFlight(f, key) == if FlowConservation.Awaited(cfg, f, key) then 1 else 0;
  }

  /** A request awaits its response exactly when one message that carries its key
      is on its way; otherwise none is. */
  lemma RequestsAreConserved(cfg: Config, s: Session, key: Key)
    requires cfg.Valid() && cfg.Routable() && Reachable(cfg, s) && key.master in s.log.issued
    ensures cfg.IsMaster(key.master) && cfg.holder[key.master] < |s.conns|
    ensures Carriers(s, key) == if key in BooksOf(s, cfg.holder[key.master]).txns then 1 else 0
  {
    ReachableIsGood(cfg, s);
    ConservedWhenGood(cfg, s, key);
  }

  /** The ids given out are 0, 1, 2, ...: each of them is awaited or fulfilled, and
      not both, and no other is either. */
  lemma IdsAreAccountedFor(cfg: Config, s: Session, c: nat, key: Key)
    requires cfg.Valid() && cfg.Routable() && Reachable(cfg, s) && c < |s.conns| && key.master in BooksOf(s, c).lastId
    ensures key.id < BooksOf(s, c).lastId[key.master] <==> key in BooksOf(s, c).txns || key in BooksOf(s, c).promises
    ensures !(key in BooksOf(s, c).txns && key in BooksOf(s, c).promises)
  {
    ReachableIsGood(cfg, s);
    var f := FlowOf(s);
    assert FlowConservation.LaneAccounts(f.lanes[c]);
  }

  lemma ApplyKeepsPromise(cfg: Config, s: Session, a: Act, c: nat, key: Key)
    requires cfg.Valid() && Safe(cfg, s) && Enabled(cfg, s, a)
    requires c < |s.conns| && key in BooksOf(s, c).promises
    ensures var s' := Apply(cfg, s, a);
            && |s'.conns| == |s.conns| && key in BooksOf(s', c).promises
            && BooksOf(s', c).promises[key] == BooksOf(s, c).promises[key]
  {
    var s' := Apply(cfg, s, a);
    StepRefines(cfg, s, a);
    FlowSafety.PromisesStay(cfg, FlowOf(s), FlowOf(s'), c, key);
    assert FlowOf(s').lanes[c].books == BooksOf(s', c);
  }

  lemma {:induction false} RunKeepsPromise(cfg: Config, s: Session, acts: seq<Act>, s': Session, c: nat, key: Key)
    requires cfg.Valid() && cfg.Routable() && Good(cfg, s) && Run(cfg, s, acts, s')
    requires c < |s.conns| && key in BooksOf(s, c).promises
    ensures c < |s'.conns| && key in BooksOf(s', c).promises && BooksOf(s', c).promises[key] == BooksOf(s, c).promises[key]
    decreases |acts|
  {
    if acts != [] {
      ApplyKeepsPromise(cfg, s, acts[0], c, key);
      ApplyGood(cfg, s, acts[0]);
      RunKeepsPromise(cfg, Apply(cfg, s, acts[0]), acts[1..], s', c, key);
    }
  }

  /** A promise is set once: in no continuation of the run does it change. */
  lemma PromisesAreSetOnce(cfg: Config, s: Session, acts: seq<Act>, s': Session, c: nat, key: Key)
    requires cfg.Valid() && cfg.Routable() && Reachable(cfg, s) && Run(cfg, s, acts, s')
    requires c < |s.conns| && key in BooksOf(s, c).promises
    ensures c < |s'.conns| && key in BooksOf(s', c).promises && BooksOf(s', c).promises[key] == BooksOf(s, c).promises[key]
  {
    ReachableIsGood(cfg, s);
    RunKeepsPromise(cfg, s, acts, s', c, key);
  }

  /** Every fulfilled promise holds the answer of one flat memory that executes the
      requests one at a time, in the order in which route() took them. */
  lemma MemoryIsFlat(cfg: Config, s: Session, c: nat, key: Key) returns (k: nat)
    requires cfg.Valid() && cfg.Routable() && Reachable(cfg, s)
    requires c < |s.conns| && key in BooksOf(s, c).promises
    ensures k < |s.log.taken| && s.log.taken[k].RequestKey() == key
    ensures forall j: nat :: j < |s.log.taken| && s.log.taken[j].RequestKey() == key ==> j == k
    ensures key.master in s.log.issued && key.id < |s.log.issued[key.master]|
    ensures s.log.taken[k] == s.log.issued[key.master][key.id].(id := key.id)
    ensures BooksOf(s, c).promises[key] == OutcomeOf(Answer(cfg, s.log.taken[..k], s.log.taken[k]))
  {
    ReachableIsGood(cfg, s);
    k := FlowSafety.PromisesAreFlat(cfg, FlowOf(s), c, key);
    forall j: nat | j < |s.log.taken| && s.log.taken[j].RequestKey() == key ensures j == k {
      assert FlowSafety.TakenAt(FlowOf(s), key, j);
    }
  }

  /** That order keeps each master's issue order; ids are 0, 1, 2, ... in it. */
  lemma IssueOrderIsKept(cfg: Config, s: Session, m: nat)
    requires cfg.Valid() && cfg.Routable() && Reachable(cfg, s) && m in s.log.issued
    ensures Select(RequestBy(m), s.log.taken) <= FlowOrder.Numbered(s.log.issued[m])
  {
    ReachableIsGood(cfg, s);
    FlowSafety.TakenInIssueOrder(cfg, FlowOf(s), m);
  }

  /** A read that succeeds fills its buffer exactly; a write, and a request that
      fails, leave every buffer alone. */
  lemma BuffersFitExactly(cfg: Config, s: Session, c: nat, key: Key)
    requires cfg.Valid() && cfg.Routable() && Reachable(cfg, s)
    requires c < |s.conns| && key in BooksOf(s, c).promises
    ensures key.master in s.log.issued && key.id < |s.log.issued[key.master]|
    ensures var o, request := BooksOf(s, c).promises[key], s.log.issued[key.master][key.id];
            && (o.filled.Some? <==> o.ok && request.typ.READ_REQ?)
            && (o.filled.Some? ==> |o.filled.value| == request.size)
  {
    ReachableIsGood(cfg, s);
    FlowSafety.BuffersAreFilledExactly(cfg, FlowOf(s), c, key);
  }

  /** A request whose promise is set has succeeded exactly when its address decodes
      and its slave allows it; a miss fails with the router's reason. */
  lemma WhatSucceeds(cfg: Config, s: Session, c: nat, key: Key)
    requires cfg.Valid() && cfg.Routable() && Reachable(cfg, s)
    requires c < |s.conns| && key in BooksOf(s, c).promises
    ensures key.master in s.log.issued && key.id < |s.log.issued[key.master]|
    ensures var o, t := BooksOf(s, c).promises[key], s.log.issued[key.master][key.id];
            match cfg.Decodes(t)
            case Miss(note) => !o.ok && o.note == note
            case Hit(i) => i < |cfg.ips| && (o.ok <==> !cfg.BootRam(i).Refuses(t))
  {
    ReachableIsGood(cfg, s);
    FlowSafety.WhatSucceeds(cfg, FlowOf(s), c, key);
  }

  // -------------------------------------------------------------- bounds

  /** No thread or goroutine holds more than one message, and no direction of the
      socket more than its capacity. */
  predicate Bounded(k: Conn, capacity: nat) {
    |k.up| <= capacity && |k.down| <= capacity && |k.rx| <= 1 && |k.tx| <= 1 && |k.bridge.writer| <= 1
  }

  ghost predicate AllBounded(cfg: Config, s: Session) {
    forall c :: 0 <= c < |s.conns| ==> Bounded(s.conns[c], cfg.capacity)
  }

  lemma HopBounded(k: Conn, capacity: nat, v: Variant, h: Hop)
    requires Bounded(k, capacity) && k.CanHop(capacity, h)
    ensures Bounded(k.AfterHop(capacity, v, h), capacity)
  {
  }

  lemma ApplyBounded(cfg: Config, s: Session, a: Act)
    requires cfg.Valid() && Enabled(cfg, s, a) && AllBounded(cfg, s)
    ensures AllBounded(cfg, Apply(cfg, s, a))
  {
    if a.DoHop? {
      HopBounded(s.conns[a.c], cfg.capacity, cfg.pop, a.h);
    }
  }

  lemma {:induction false} RunBounded(cfg: Config, s: Session, acts: seq<Act>, s': Session)
    requires cfg.Valid() && AllBounded(cfg, s) && Run(cfg, s, acts, s')
    ensures AllBounded(cfg, s')
    decreases acts
  {
    if acts != [] {
      ApplyBounded(cfg, s, acts[0]);
      RunBounded(cfg, Apply(cfg, s, acts[0]), acts[1..], s');
    }
  }

  /** Nothing is buffered beyond the sockets' capacity, whoever the record of owners
      names. */
  lemma SocketsAreBounded(cfg: Config, s: Session, c: nat)
    requires cfg.Valid() && Reachable(cfg, s) && c < |s.conns|
    ensures var k := s.conns[c];
            && |k.up| <= cfg.capacity && |k.down| <= cfg.capacity
            && |k.rx| <= 1 && |k.tx| <= 1 && |k.bridge.writer| <= 1
  {
    var s0: Session, acts: seq<Act> :| InitSession(cfg, s0) && Run(cfg, s0, acts, s);
    forall b | 0 <= b < |s0.conns| ensures Bounded(s0.conns[b], cfg.capacity) {
      assert InitConn(cfg, b, s0.conns[b]);
    }
    RunBounded(cfg, s0, acts, s);
    assert Bounded(s.conns[c], cfg.capacity);
  }

  // ----------------------------------------------------------- environment

  /** The application and the operating system are free: any master can issue any
      request as long as its ids last, and terminate, at any time; and a writer that
      waits can wake up without a notification. */
  lemma EnvironmentIsFree(cfg: Config, s: Session, t: Txn, c: nat)
    requires cfg.Valid() && cfg.Routable() && Reachable(cfg, s) && Fresh(t) && cfg.IsMaster(t.initiator) && c < |s.conns|
    ensures t.initiator in s.log.issued
    ensures |s.log.issued[t.initiator]| < TWO64 ==> Enabled(cfg, s, DoIssue(t))
    ensures Enabled(cfg, s, DoTerminate(t.initiator))
    ensures s.conns[c].bridge.q.consumer == Waiting(false) ==> Enabled(cfg, s, DoHop(c, Spurious))
  {
    ReachableIsGood(cfg, s);
    HoldersAreThere(cfg, FlowOf(s), t.initiator);
  }

  lemma HoldersAreThere(cfg: Config, f: Flow, m: nat)
    requires cfg.Valid() && FlowPlacement.Placed(cfg, f) && cfg.IsMaster(m)
    ensures m in f.log.issued && m < |cfg.holder| && cfg.holder[m] < |f.lanes|
  {
    assert cfg.IpValid(m);
  }

  // ------------------------------------------------------------- progress

  /** While route() runs, every connection with a message on it can step for that
      message when route() is at the incoming channel; when it is not, its own
      transaction can move on, however full the sockets are. */
  lemma NothingBlocks(cfg: Config, s: Session)
    requires cfg.Valid() && cfg.Routable() && Reachable(cfg, s) && Routing(s)
    ensures s.route.Taking? ==> forall c :: 0 <= c < |s.conns| && !Idle(s.conns[c]) ==>
              Enabled(cfg, s, ConnStep(s.conns[c], c)) && Moves(s, ConnStep(s.conns[c], c))
    ensures s.route.Giving? ==>
              s.route.dest < |s.conns| && Enabled(cfg, s, GiveStep(cfg, s)) && Moves(s, GiveStep(cfg, s))
  {
    ReachableIsGood(cfg, s);
    DeadlockFree(cfg, s);
  }

  /** With no new operation, there are at most Measure(s) steps, and two more for
      each spurious wake-up. */
  lemma StepsAreBounded(cfg: Config, s: Session, acts: seq<Act>, s': Session)
    requires cfg.Valid() && cfg.Routable() && Reachable(cfg, s) && Undisturbed(acts) && Run(cfg, s, acts, s')
    ensures |acts| <= Measure(s) + 2 * WakeUps(acts)
  {
    ReachableIsGood(cfg, s);
    RunsAreBounded(cfg, s, acts, s');
  }

  /** When it can go no further while route() runs, it has set every promise. */
  lemma AnswersCome(cfg: Config, s: Session, m: nat)
    requires cfg.Valid() && cfg.Routable() && Reachable(cfg, s) && Routing(s) && Stuck(cfg, s)
    ensures AllSet(cfg, s, m)
  {
    ReachableIsGood(cfg, s);
    StuckMeansDone(cfg, s, m);
  }

  /** In a polite run: once sendDone has begun, every promise is set and nothing
      but DONE is anywhere; and the wait group is at zero exactly when route() and
      all readers and writers of the router have returned. */
  lemma DoneComesLast(cfg: Config, s0: Session, acts: seq<Act>, s: Session)
    requires cfg.Valid() && cfg.Routable() && InitSession(cfg, s0) && PoliteRun(cfg, s0, acts, s)
    ensures s.route.Finishing? || s.route.Exited? ==>
              EverythingSet(cfg, s) && forall c :: 0 <= c < |s.conns| ==> Drained(s.conns[c])
    ensures s.wg == 0 <==> s.route.Exited? && forall c :: 0 <= c < |s.conns| ==> !s.conns[c].rxOpen && !s.conns[c].txOpen
  {
    InitGood(cfg, s0);
    InitCounted(cfg, s0);
    PoliteRunKeeps(cfg, s0, acts, s);
    if s.route.Finishing? || s.route.Exited? {
      assert Tallied(cfg, s);
      EverythingIsSet(cfg, s);
      forall c | 0 <= c < |s.conns| ensures Drained(s.conns[c]) {
        DrainedAtDone(cfg, s, c);
      }
    }
    WaitGroupIsExact(s);
  }

  // ------------------------------------------------------------- real time

  lemma ApplyTakes(cfg: Config, s: Session, a: Act)
    requires cfg.Valid() && Enabled(cfg, s, a)
    ensures s.log.taken <= Apply(cfg, s, a).log.taken
  {
  }

  lemma {:induction false} RunTakes(cfg: Config, s: Session, acts: seq<Act>, s': Session)
    requires cfg.Valid() && Run(cfg, s, acts, s')
    ensures s.log.taken <= s'.log.taken
    decreases acts
  {
    if acts != [] {
      ApplyTakes(cfg, s, acts[0]);
      RunTakes(cfg, Apply(cfg, s, acts[0]), acts[1..], s');
    }
  }

  /** A request whose promise is set before another request is issued comes before
      it in the order that the flat memory follows. */
  lemma RealTimeOrder(cfg: Config, s: Session, acts: seq<Act>, s': Session, c: nat, first: Key, second: Key, j: nat, k: nat)
    requires cfg.Valid() && cfg.Routable() && Reachable(cfg, s) && Run(cfg, s, acts, s')
    requires c < |s.conns| && first in BooksOf(s, c).promises
    requires second.master in s.log.issued && second.id >= |s.log.issued[second.master]|
    requires j < |s'.log.taken| && s'.log.taken[j].RequestKey() == first
    requires k < |s'.log.taken| && s'.log.taken[k].RequestKey() == second
    ensures j < k
  {
    GoodAround(cfg, s, acts, s');
    TakenFirst(cfg, s, s', c, first, second, j, k);
  }

  lemma GoodAround(cfg: Config, s: Session, acts: seq<Act>, s': Session)
    requires cfg.Valid() && cfg.Routable() && Reachable(cfg, s) && Run(cfg, s, acts, s')
    ensures Good(cfg, s) && Good(cfg, s') && s.log.taken <= s'.log.taken
  {
    ReachableIsGood(cfg, s);
    RunGood(cfg, s, acts, s');
    RunTakes(cfg, s, acts, s');
  }

  lemma TakenFirst(cfg: Config, s: Session, s': Session, c: nat, first: Key, second: Key, j: nat, k: nat)
    requires cfg.Valid() && Good(cfg, s) && Good(cfg, s') && s.log.taken <= s'.log.taken
    requires c < |s.conns| && first in BooksOf(s, c).promises
    requires second.master in s.log.issued && second.id >= |s.log.issued[second.master]|
    requires j < |s'.log.taken| && s'.log.taken[j].RequestKey() == first
    requires k < |s'.log.taken| && s'.log.taken[k].RequestKey() == second
    ensures j < k
  {
    var at := FlowSafety.PromisesAreFlat(cfg, FlowOf(s), c, first);
    assert s.log.taken[at] == s'.log.taken[at];
    assert cfg.IsMaster(first.master);
    SameKeySamePlace(cfg, s', at, j, first);
    if k < |s.log.taken| {
      NotTakenYet(cfg, s, second, k);
    }
  }

  lemma NotTakenYet(cfg: Config, s: Session, key: Key, k: nat)
    requires cfg.Valid() && Good(cfg, s) && key.master in s.log.issued && key.id >= |s.log.issued[key.master]|
    requires k < |s.log.taken|
    ensures s.log.taken[k].RequestKey() != key
  {
    if s.log.taken[k].RequestKey() == key {
      FlowSafety.TakenIsIssued(cfg, FlowOf(s), k);
    }
  }

  lemma SameKeySamePlace(cfg: Config, s: Session, i: nat, j: nat, key: Key)
    requires cfg.Valid() && Good(cfg, s) && i < |s.log.taken| && j < |s.log.taken|
    requires s.log.taken[i].RequestKey() == key == s.log.taken[j].RequestKey() && key.master in s.log.issued
    ensures i == j
  {
    if i < j {
      FlowSafety.TakenKeysAreDistinct(cfg, FlowOf(s), i, j);
    } else if j < i {
      FlowSafety.TakenKeysAreDistinct(cfg, FlowOf(s), j, i);
    }
  }
}
