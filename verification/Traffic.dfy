/** The transaction traffic of a started system with the hops between processes
    taken away: per client one queue, one path up to route() and one path down
    from it.  Refinement shows that the system of threads and goroutines refines
    this machine. */
module Traffic {
  import opened Wire
  import opened FlatMemory
  import opened Bookkeeping

  // ------------------------------------------------------------------ lists

  /** The elements that satisfy p, in order. */
  function Select(p: Txn -> bool, ts: seq<Txn>): seq<Txn> {
    if ts == [] then []
    else Select(p, ts[..|ts| - 1]) + if p(ts[|ts| - 1]) then [ts[|ts| - 1]] else []
  }

  lemma {:induction false} SelectConcat(p: Txn -> bool, a: seq<Txn>, b: seq<Txn>)
    ensures Select(p, a + b) == Select(p, a) + Select(p, b)
  {
    if b == [] {
      assert a + b == a;
    } else {
      var n := |b| - 1;
      assert (a + b)[..|a + b| - 1] == a + b[..n];
      SelectConcat(p, a, b[..n]);
    }
  }

  lemma SelectOne(p: Txn -> bool, t: Txn)
    ensures Select(p, [t]) == if p(t) then [t] else []
  {
    assert [t][..0] == [];
  }

  lemma SelectSnoc(p: Txn -> bool, ts: seq<Txn>, t: Txn)
    ensures Select(p, ts + [t]) == Select(p, ts) + if p(t) then [t] else []
  {
    SelectConcat(p, ts, [t]);
    SelectOne(p, t);
  }

  lemma SelectHead(p: Txn -> bool, ts: seq<Txn>)
    requires ts != []
    ensures Select(p, ts) == (if p(ts[0]) then [ts[0]] else []) + Select(p, ts[1..])
  {
    assert ts == [ts[0]] + ts[1..];
    SelectConcat(p, [ts[0]], ts[1..]);
    SelectOne(p, ts[0]);
  }

  function Request(): Txn -> bool { (t: Txn) => t.IsRequest() }
  function NoRequest(): Txn -> bool { (t: Txn) => !t.IsRequest() }
  function RequestBy(m: nat): Txn -> bool { (t: Txn) => t.IsRequest() && t.initiator == m }

  /** How many of the transactions carry the key. */
  function Count(k: Key, ts: seq<Txn>): nat {
    if ts == [] then 0
    else Count(k, ts[..|ts| - 1]) + One(k, ts[|ts| - 1])
  }

  function One(k: Key, t: Txn): nat {
    if t.RequestKey() == k then 1 else 0
  }

  lemma {:induction false} CountConcat(k: Key, a: seq<Txn>, b: seq<Txn>)
    ensures Count(k, a + b) == Count(k, a) + Count(k, b)
  {
    if b == [] {
      assert a + b == a;
    } else {
      var n := |b| - 1;
      assert (a + b)[..|a + b| - 1] == a + b[..n];
      CountConcat(k, a, b[..n]);
    }
  }

  lemma CountOne(k: Key, t: Txn)
    ensures Count(k, [t]) == One(k, t)
  {
    assert [t][..0] == [];
  }

  lemma CountSnoc(k: Key, ts: seq<Txn>, t: Txn)
    ensures Count(k, ts + [t]) == Count(k, ts) + One(k, t)
  {
    CountConcat(k, ts, [t]);
    CountOne(k, t);
  }

  lemma CountHead(k: Key, ts: seq<Txn>)
    requires ts != []
    ensures Count(k, ts) == One(k, ts[0]) + Count(k, ts[1..])
  {
    assert ts == [ts[0]] + ts[1..];
    CountConcat(k, [ts[0]], ts[1..]);
    CountOne(k, ts[0]);
  }

  /** The requests that decode to a block of client d, their target filled in. */
  function ToClient(cfg: Config, ts: seq<Txn>, d: nat): seq<Txn> {
    if ts == [] then []
    else
      var t := ts[|ts| - 1];
      ToClient(cfg, ts[..|ts| - 1], d)
      + match cfg.Decodes(t)
        case Hit(i) => if i < |cfg.holder| && cfg.holder[i] == d then [t.(target := i)] else []
        case Miss(_) => []
  }

  // ---------------------------------------------------------------- machine

  /** One client.
      queue     transactions in Bridge::queue; requests there carry no id yet
      up, down  transactions between the bridge's writer and route(), and back
      books     what the bridge keeps about its masters and slaves */
  datatype Lane = Lane(queue: seq<Txn>, up: seq<Txn>, down: seq<Txn>, books: Books)

  /** What route() holds while it waits for a client's outgoing channel. */
  datatype Parcel = Parcel(txn: Txn, dest: nat)

  /** History: the requests each master issued, the requests route() took, and
      the requests each client's slaves have executed. */
  datatype Log = Log(issued: map<nat, seq<Txn>>, taken: seq<Txn>, served: seq<seq<Txn>>)

  datatype Flow = Flow(lanes: seq<Lane>, slot: Option<Parcel>, log: Log)

  /** A master may issue any request as long as its ids last. */
  predicate CanIssue(cfg: Config, f: Flow, t: Txn) {
    && Fresh(t) && cfg.IsMaster(t.initiator)
    && t.initiator < |cfg.holder| && cfg.holder[t.initiator] < |f.lanes|
    && t.initiator in f.log.issued && |f.log.issued[t.initiator]| < TWO64
  }

  function Issue(cfg: Config, f: Flow, t: Txn): Flow
    requires CanIssue(cfg, f, t)
  {
    var m, c := t.initiator, cfg.holder[t.initiator];
    f.(lanes := f.lanes[c := f.lanes[c].(queue := f.lanes[c].queue + [t])],
       log := f.log.(issued := f.log.issued[m := f.log.issued[m] + [t]]))
  }

  predicate LaneCanDispatch(l: Lane) {
    l.queue != [] && (l.queue[0].IsRequest() ==> l.queue[0].initiator in l.books.lastId)
  }

  /** The writer pops a transaction; a request is numbered and recorded. */
  function LaneDispatch(l: Lane): Lane
    requires LaneCanDispatch(l)
  {
    var t := l.queue[0];
    if t.IsRequest() then
      l.(queue := l.queue[1..], up := l.up + [l.books.WithId(t)], books := l.books.Record(t))
    else
      l.(queue := l.queue[1..], up := l.up + [t])
  }

  predicate CanDispatch(f: Flow, c: nat) {
    c < |f.lanes| && LaneCanDispatch(f.lanes[c])
  }

  function Dispatch(f: Flow, c: nat): Flow
    requires CanDispatch(f, c)
  {
    f.(lanes := f.lanes[c := LaneDispatch(f.lanes[c])])
  }

  /** route()'s decision about a transaction. */
  function Route(cfg: Config, t: Txn): Parcel
    requires cfg.Valid() && t.initiator < |cfg.ips|
  {
    if t.IsRequest() then
      match cfg.Decodes(t)
      case Miss(note) => Parcel(ErrorTxn(t, note), cfg.ips[t.initiator].clientId)
      case Hit(i) => HitIsSlave(cfg, t); Parcel(t.(target := i), cfg.ips[i].clientId)
    else
      Parcel(t, cfg.ips[t.initiator].clientId)
  }

  predicate CanTake(cfg: Config, f: Flow, c: nat) {
    c < |f.lanes| && f.lanes[c].up != [] && f.lanes[c].up[0].initiator < |cfg.ips| && f.slot == None
  }

  function Take(cfg: Config, f: Flow, c: nat): Flow
    requires cfg.Valid() && CanTake(cfg, f, c)
  {
    var l := f.lanes[c];
    var t := l.up[0];
    Flow(f.lanes[c := l.(up := l.up[1..])],
         Some(Route(cfg, t)),
         f.log.(taken := f.log.taken + if t.IsRequest() then [t] else []))
  }

  predicate CanGive(f: Flow) {
    f.slot.Some? && f.slot.value.dest < |f.lanes|
  }

  function Give(f: Flow): Flow
    requires CanGive(f)
  {
    var l, d := f.lanes[f.slot.value.dest], f.slot.value.dest;
    f.(lanes := f.lanes[d := l.(down := l.down + [f.slot.value.txn])], slot := None)
  }

  /** The transaction that reached the client is for one of its slaves, or
      answers a request that one of its masters awaits. */
  predicate LaneCanHandle(l: Lane) {
    l.down != [] &&
    var t := l.down[0];
    if t.IsRequest() then l.books.KnowsSlave(t)
    else l.books.KnowsMaster(t) && l.books.KnowsRequest(t)
  }

  /** A request goes to its slave, whose response is queued; a response fulfils
      its promise. */
  function LaneHandle(l: Lane): Lane
    requires LaneCanHandle(l)
  {
    var t := l.down[0];
    if t.IsRequest() then
      l.(down := l.down[1..], queue := l.queue + [l.books.Reply(t)], books := l.books.Serve(t))
    else
      l.(down := l.down[1..], books := l.books.Fulfil(t))
  }

  predicate CanHandle(f: Flow, d: nat) {
    d < |f.lanes| == |f.log.served| && LaneCanHandle(f.lanes[d])
  }

  function Handle(f: Flow, d: nat): Flow
    requires CanHandle(f, d)
  {
    var t := f.lanes[d].down[0];
    f.(lanes := f.lanes[d := LaneHandle(f.lanes[d])],
       log := if t.IsRequest() then f.log.(served := f.log.served[d := f.log.served[d] + [t]]) else f.log)
  }

  ghost predicate InitFlow(cfg: Config, f: Flow)
    requires cfg.Valid()
  {
    && |f.lanes| == cfg.clients
    && f.slot == None
    && f.log.taken == [] && f.log.served == seq(cfg.clients, (_) => [])
    && (forall m: nat :: m in f.log.issued <==> cfg.IsMaster(m))
    && (forall m :: m in f.log.issued ==> f.log.issued[m] == [])
    && (forall c :: 0 <= c < cfg.clients ==> InitLane(cfg, c, f.lanes[c]))
  }

  ghost predicate InitLane(cfg: Config, c: nat, l: Lane)
    requires cfg.Valid()
  {
    && l.queue == l.up == l.down == []
    && l.books.txns == map[] && l.books.promises == map[]
    && (forall m: nat :: m in l.books.lastId <==> cfg.IsMaster(m) && cfg.holder[m] == c)
    && (forall m :: m in l.books.lastId ==> l.books.lastId[m] == 0)
    && (forall i: nat :: i in l.books.rams <==> cfg.IsSlave(i) && cfg.holder[i] == c)
    && (forall i :: i in l.books.rams ==> l.books.rams[i] == cfg.BootRam(i))
  }

  datatype Step = StepIssue(t: Txn) | StepDispatch(c: nat) | StepTake(c: nat) | StepGive | StepHandle(d: nat)

  /** One step of the machine, or none. */
  ghost predicate Next(cfg: Config, f: Flow, f': Flow)
    requires cfg.Valid()
  {
    f' == f || exists a :: NextBy(cfg, f, a, f')
  }

  ghost predicate NextBy(cfg: Config, f: Flow, a: Step, f': Flow)
    requires cfg.Valid()
  {
    match a
    case StepIssue(t) => CanIssue(cfg, f, t) && f' == Issue(cfg, f, t)
    case StepDispatch(c) => CanDispatch(f, c) && f' == Dispatch(f, c)
    case StepTake(c) => CanTake(cfg, f, c) && f' == Take(cfg, f, c)
    case StepGive => CanGive(f) && f' == Give(f)
    case StepHandle(d) => CanHandle(f, d) && f' == Handle(f, d)
  }
}
