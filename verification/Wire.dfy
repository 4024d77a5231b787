/** Values that travel between the bridges and the router: 64-bit numbers, IP
    descriptions, transactions and messages.  Tables of the wire schema are
    records here; encoding them to bytes is not modelled. */
module Wire {

  datatype Option<+T> = None | Some(value: T)

  /** A place of the code that departs from its evident intent is modelled twice:
      as the code stands, and with a repair. */
  datatype Variant = AsWritten | Repaired

  const TWO64: nat := 0x1_0000_0000_0000_0000

  /** An unsigned 64-bit number. */
  type u64 = x: int | 0 <= x < TWO64 witness 0

  /** An unsigned 16-bit number. */
  type u16 = x: int | 0 <= x < 0x1_0000 witness 0

  type byte = x: int | 0 <= x < 256 witness 0

  /** Addition of two unsigned 64-bit numbers, which wraps around. */
  function Add64(a: u64, b: u64): (r: u64)
    ensures r == (a + b) % TWO64
  {
    if a + b < TWO64 then a + b else a + b - TWO64
  }

  datatype IpType = SLAVE | SLAVE_LITE | SLAVE_STREAM | MASTER | MASTER_LITE | MASTER_STREAM {
    predicate IsMaster() { MASTER? || MASTER_LITE? || MASTER_STREAM? }
  }

  datatype IpImplementation = SOFTWARE | HARDWARE

  datatype SystemInfo = SystemInfo(name: string, systemName: string, hostname: string, pid: u64)

  /** An IP block as the router keeps it. */
  datatype IpInfo = IpInfo(
    name: string,
    address: u64,
    size: u64,
    firstInterrupt: u16,
    numInterrupts: u16,
    typ: IpType,
    impl: IpImplementation,
    id: nat,
    clientId: nat)
  {
    /** One past the last address of the block, as an unbounded number. */
    function End(): nat { address + size }

    /** One past the last address is a 64-bit number, too. */
    predicate NonWrapping() { End() < TWO64 }

    predicate NonEmpty() { size > 0 }

    predicate Contains(a: int) { address <= a < End() }
  }

  datatype TxnType = READ_REQ | WRITE_REQ | READ_RESP | WRITE_RESP {
    predicate IsRequest() { READ_REQ? || WRITE_REQ? }
  }

  /** The texts that a transaction's message field can carry. */
  datatype Note = NoText | NoBlockAtAddress | SpansBoundary | SlaveFailed

  datatype Txn = Txn(
    typ: TxnType,
    initiator: nat,
    target: nat,
    id: nat,
    address: u64,
    size: u64,
    data: seq<byte>,
    ok: bool,
    message: Note)
  {
    predicate IsRequest() { typ.IsRequest() }
    function RequestKey(): Key { Key(initiator, id) }
  }

  /** A request, as its issuing master and its response know it. */
  datatype Key = Key(master: nat, id: nat)

  /** Messages of the traffic phase. */
  datatype Msg = TRANSACTION(txn: Txn) | TERMINATE(ip: nat) | DONE
}
