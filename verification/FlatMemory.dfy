/** The started system's fixed parameters, RAM slaves, and the flat memory that
    the whole system is compared with. */
module FlatMemory {
  import opened Wire
  import opened AddressMap

  /** A software slave backed by an array of bytes.  It refuses accesses outside
      its bytes, and writes when it is read-only. */
  datatype Ram = Ram(base: u64, readOnly: bool, bytes: seq<byte>) {

    predicate Refuses(t: Txn) {
      || !(base <= t.address && t.address + t.size <= base + |bytes|)
      || (t.typ.WRITE_REQ? && (readOnly || |t.data| != t.size))
    }

    /** handleWrite and handleRead as state changes. */
    function After(t: Txn): (r: Ram)
      ensures r.base == base && r.readOnly == readOnly && |r.bytes| == |bytes|
    {
      if t.typ.WRITE_REQ? && !Refuses(t) then
        var k := t.address - base;
        this.(bytes := bytes[..k] + t.data + bytes[k + t.size..])
      else this
    }

    /** The bytes that handleRead copies out. */
    function Fetch(t: Txn): seq<byte> {
      if t.typ.READ_REQ? && !Refuses(t) then bytes[t.address - base..t.address - base + t.size] else []
    }
  }

  function ResponseType(typ: TxnType): TxnType {
    match typ
    case READ_REQ => READ_RESP
    case WRITE_REQ => WRITE_RESP
    case _ => typ
  }

  /** The response that the bridge builds around a slave's result. */
  function Response(t: Txn, refused: bool, data: seq<byte>): Txn {
    Txn(ResponseType(t.typ), t.initiator, t.target, t.id, t.address, t.size,
        if refused then [] else data, !refused, if refused then SlaveFailed else NoText)
  }

  /** The response that the router makes up when no target is found. */
  function ErrorTxn(t: Txn, note: Note): Txn {
    Txn(ResponseType(t.typ), t.initiator, 0, t.id, 0, 0, [], false, note)
  }

  /** What a promise is set to, and what the read buffer is filled with. */
  datatype Outcome = Outcome(ok: bool, note: Note, filled: Option<seq<byte>>)

  function OutcomeOf(t: Txn): Outcome {
    Outcome(t.ok, if t.ok then NoText else t.message, if t.typ.READ_RESP? && t.ok then Some(t.data) else None)
  }

  // ------------------------------------------------------------- parameters

  /** The started system.
      ips           the router's list, ids being positions
      holder        the client that registered each block
      boot, rom     contents of the slaves at the start; the read-only slaves
      capacity      messages that a socket can hold in one direction
      pop           repaired: Queue::pop looks at `done` before it waits
      terminate     repaired: route() goes on after a TERMINATE that is not the last */
  datatype Config = Config(
    ips: seq<IpInfo>,
    holder: seq<nat>,
    clients: nat,
    boot: seq<seq<byte>>,
    rom: set<nat>,
    capacity: nat,
    pop: Variant,
    terminate: Variant)
  {
    ghost predicate Valid() {
      && clients > 0 && capacity > 0
      && |holder| == |ips| && |boot| == |ips|
      && (forall i :: 0 <= i < |ips| ==> IpValid(i))
      && Disjoint(ips) && AllNonWrapping(ips)
    }

    predicate IpValid(i: nat)
      requires i < |ips| && |holder| == |ips| && |boot| == |ips|
    {
      && ips[i].id == i && ips[i].clientId < clients && holder[i] < clients
      && |boot[i]| == ips[i].size
      && (ips[i].typ.IsMaster() ==> ips[i].size == 0)
    }

    /** The client that the router has on record for a block is the one that
        registered it; for blocks that traffic can reach. */
    ghost predicate Routable()
      requires Valid()
    {
      forall i :: 0 <= i < |ips| && (ips[i].typ.IsMaster() || ips[i].NonEmpty()) ==> ips[i].clientId == holder[i]
    }

    predicate IsMaster(m: nat) { m < |ips| && ips[m].typ.IsMaster() }

    predicate IsSlave(i: nat) { i < |ips| && !ips[i].typ.IsMaster() }

    function Decodes(t: Txn): Decoded { Decode(ips, t.address, t.size) }

    function BootRam(i: nat): Ram
      requires i < |ips| && |boot| == |ips|
    {
      Ram(ips[i].address, i in rom, boot[i])
    }
  }

  /** A hit is a slave of the list. */
  lemma HitIsSlave(cfg: Config, t: Txn)
    requires cfg.Valid() && cfg.Decodes(t).Hit?
    ensures cfg.IsSlave(cfg.Decodes(t).target)
    ensures cfg.ips[cfg.Decodes(t).target].Contains(t.address)
  {
    var i := cfg.Decodes(t).target;
    BlockAtFinds(cfg.ips, t.address, 0);
    assert cfg.IpValid(i);
    assert cfg.ips[i] in cfg.ips;
  }

  // ------------------------------------------------------------ flat memory

  function BootByte(cfg: Config, a: int): byte {
    if 0 <= a < TWO64 && BlockAt(cfg.ips, a).Some? then
      var i := BlockAt(cfg.ips, a).value;
      if i < |cfg.boot| && 0 <= a - cfg.ips[i].address < |cfg.boot[i]| then cfg.boot[i][a - cfg.ips[i].address] else 0
    else 0
  }

  /** The request is a write that its slave carries out. */
  predicate Applied(cfg: Config, t: Txn) {
    && t.typ.WRITE_REQ?
    && cfg.Decodes(t).Hit?
    && cfg.Decodes(t).target < |cfg.ips| == |cfg.boot|
    && !cfg.BootRam(cfg.Decodes(t).target).Refuses(t)
  }

  /** One flat memory: an address holds what the last write over it put there. */
  function FlatByte(cfg: Config, ops: seq<Txn>, a: int): byte {
    if ops == [] then BootByte(cfg, a)
    else
      var t := ops[|ops| - 1];
      if Applied(cfg, t) && t.address <= a < t.address + |t.data| then t.data[a - t.address]
      else FlatByte(cfg, ops[..|ops| - 1], a)
  }

  /** What the flat memory answers to a request after it has executed ops. */
  function Answer(cfg: Config, ops: seq<Txn>, t: Txn): Txn {
    match cfg.Decodes(t)
    case Miss(note) => ErrorTxn(t, note)
    case Hit(i) =>
      Response(t.(target := i),
               i < |cfg.ips| == |cfg.boot| && cfg.BootRam(i).Refuses(t),
               if t.typ.READ_REQ? then seq<byte>(t.size, (j: int) => FlatByte(cfg, ops, t.address + j)) else [])
  }

  // ---------------------------------------- a slave as a part of that memory

  /** A slave after the operations of the list that decode to it. */
  function Content(cfg: Config, i: nat, ops: seq<Txn>): (r: Ram)
    requires i < |cfg.ips| == |cfg.boot|
    ensures r.base == cfg.ips[i].address && r.readOnly == (i in cfg.rom) && |r.bytes| == |cfg.boot[i]|
  {
    if ops == [] then cfg.BootRam(i)
    else
      var before, t := Content(cfg, i, ops[..|ops| - 1]), ops[|ops| - 1];
      if cfg.Decodes(t) == Hit(i) then before.After(t) else before
  }

  lemma {:induction false} ContentIsFlat(cfg: Config, i: nat, ops: seq<Txn>, j: nat)
    requires cfg.Valid() && i < |cfg.ips| && j < cfg.ips[i].size
    ensures cfg.IpValid(i) && Content(cfg, i, ops).bytes[j] == FlatByte(cfg, ops, cfg.ips[i].address + j)
  {
    assert cfg.IpValid(i) && cfg.ips[i] in cfg.ips;
    var a := cfg.ips[i].address + j;
    if ops == [] {
      BlockAtIs(cfg.ips, a, i);
    } else {
      var t := ops[|ops| - 1];
      ContentIsFlat(cfg, i, ops[..|ops| - 1], j);
      if Applied(cfg, t) && t.address <= a < t.address + |t.data| {
        var k := cfg.Decodes(t).target;
        HitIsSlave(cfg, t);
        assert cfg.IpValid(k) && cfg.ips[k] in cfg.ips;
        BlockAtIs(cfg.ips, a, k);
        BlockAtIs(cfg.ips, a, i);
        assert k == i;
      }
    }
  }

  /** A slave that has executed the earlier operations that decode to it answers
      as the flat memory does. */
  lemma SlaveAnswersAsFlat(cfg: Config, i: nat, ops: seq<Txn>, t: Txn)
    requires cfg.Valid() && cfg.Decodes(t) == Hit(i) && t.IsRequest() && cfg.IsSlave(i)
    ensures var ram := Content(cfg, i, ops);
            Response(t.(target := i), ram.Refuses(t), ram.Fetch(t)) == Answer(cfg, ops, t)
  {
    var ram := Content(cfg, i, ops);
    assert cfg.IpValid(i);
    if t.typ.READ_REQ? && !ram.Refuses(t) {
      var flat := seq<byte>(t.size, (j: int) => FlatByte(cfg, ops, t.address + j));
      forall j | 0 <= j < t.size ensures ram.Fetch(t)[j] == flat[j] {
        ContentIsFlat(cfg, i, ops, t.address - ram.base + j);
      }
      assert ram.Fetch(t) == flat;
    }
  }

  /** A request that stays in the address space and goes to a slave that allows
      it is never refused. */
  lemma DecodedIsNotRefused(cfg: Config, t: Txn)
    requires cfg.Valid() && cfg.Decodes(t).Hit? && t.address + t.size < TWO64
    requires t.typ.WRITE_REQ? ==> |t.data| == t.size && cfg.Decodes(t).target !in cfg.rom
    ensures cfg.Decodes(t).target < |cfg.ips| && !cfg.BootRam(cfg.Decodes(t).target).Refuses(t)
  {
    HitIsSlave(cfg, t);
    var i := cfg.Decodes(t).target;
    assert cfg.IpValid(i);
    DecodeIsContainment(cfg.ips, t.address, t.size, i);
  }
}
