/** A started bridge: its writer thread, which takes transactions from the queue
    and sends them, and its reader thread, which serves what the router sends. */
module BridgeThreads {
  import opened Wire
  import opened FlatMemory
  import opened Bookkeeping
  import opened Monitor

  datatype ReaderStatus = Ok | UnknownMaster | UnknownRequest | UnknownSlave | UnexpectedMessage

  /** The reader: in receiveTransaction; busy with a transaction; or returned. */
  datatype Reader = Receiving | Handling(txn: Txn) | Stopped(status: ReaderStatus)

  /** q       the queue; an entry is a transaction or a termination
      writer  the message that the writer is sending, if any
      reader  the reader thread
      books   what is kept about masters and slaves */
  datatype BridgeState = BridgeState(q: Monitor<Msg>, writer: seq<Msg>, reader: Reader, books: Books) {

    /** The writer inside pop, up to the message that it will send next.  When
        pop returns false it logs out. */
    function Popped(v: Variant): BridgeState
      requires q.consumer.Testing?
    {
      var q' := Tested(v, q);
      if q.items != [] then
        match q.items[0]
        case TRANSACTION(t) =>
          if t.IsRequest() && books.KnowsMaster(t) then
            this.(q := q', writer := [TRANSACTION(books.WithId(t))], books := books.Record(t))
          else
            this.(q := q', writer := [TRANSACTION(t)])
        case _ => this.(q := q', writer := [q.items[0]])
      else if q'.consumer.Ended? then
        this.(q := q', writer := [DONE])
      else
        this.(q := q')
    }

    function Wakened(v: Variant): BridgeState
      requires q.consumer.Waiting?
    {
      var q' := Woken(v, q);
      this.(q := q', writer := if q'.consumer.Ended? then [DONE] else writer)
    }

    /** The message in hand has been written to the socket. */
    function Sent(): BridgeState {
      this.(q := if q.consumer.Away? then Returned(q) else q, writer := [])
    }

    function Failed(status: ReaderStatus): BridgeState {
      this.(q := Finished(q), reader := Stopped(status))
    }

    /** The reader has received a message. */
    function Received(m: Msg): BridgeState {
      match m
      case TRANSACTION(t) => this.(reader := Handling(t))
      case DONE => Failed(Ok)
      case TERMINATE(_) => Failed(UnexpectedMessage)
    }

    /** The reader serves the transaction in hand. */
    function Handled(): BridgeState
      requires reader.Handling?
    {
      var t := reader.txn;
      if !t.IsRequest() then
        if !books.KnowsMaster(t) then Failed(UnknownMaster)
        else if !books.KnowsRequest(t) then Failed(UnknownRequest)
        else this.(reader := Receiving, books := books.Fulfil(t))
      else
        if !books.KnowsSlave(t) then Failed(UnknownSlave)
        else this.(reader := Receiving, books := books.Serve(t), q := Pushed(q, TRANSACTION(books.Reply(t))))
    }
  }

  /** A request as Master::read makes it. */
  function ReadRequest(m: nat, address: u64, size: u64): (t: Txn)
    ensures Fresh(t) && t.typ.READ_REQ? && t.initiator == m && t.address == address && t.size == size
  {
    Txn(READ_REQ, m, 0, 0, address, size, [], true, NoText)
  }

  /** A request as Master::write makes it; the payload is copied. */
  function WriteRequest(m: nat, address: u64, data: seq<byte>): (t: Txn)
    requires |data| < TWO64
    ensures Fresh(t) && t.typ.WRITE_REQ? && t.initiator == m && t.address == address && t.size == |data| && t.data == data
  {
    Txn(WRITE_REQ, m, 0, 0, address, |data|, data, true, NoText)
  }

  /** The bridge object.  Each method is what one thread does between two points
      at which other threads can come in. */
  class Bridge {
    var queue: Queue<Msg>
    var writerMsg: seq<Msg>
    var readerPc: Reader
    var txns: map<Key, Txn>
    var lastTxnId: map<nat, nat>
    var slaveMap: map<nat, Ram>
    var promises: map<Key, Outcome>

    ghost function View(): BridgeState
      reads this, queue
    {
      BridgeState(queue.View(), writerMsg, readerPc, Books(txns, lastTxnId, slaveMap, promises))
    }

    constructor (masters: set<nat>, slaves: map<nat, Ram>)
      ensures fresh(queue)
      ensures View() == BridgeState(Start<Msg>().q, [], Receiving, Books(map[], map m | m in masters :: 0, slaves, map[]))
    {
      queue := new Queue<Msg>();
      writerMsg, readerPc, slaveMap := [], Receiving, slaves;
      txns, promises := map[], map[];
      lastTxnId := map m | m in masters :: 0;
    }

    /** Master::read, Master::write and Master::terminate push their entry. */
    method Push(m: Msg)
      modifies queue
      ensures View() == old(View()).(q := Pushed(old(View()).q, m))
      ensures queue.queue == old(queue.queue) + [m] && queue.notifies == old(queue.notifies) + 1
    {
      queue.Push(m);
    }

    /** The writer thread from pop to the send. */
    method Writer(v: Variant)
      requires queue.consumer.Testing?
      modifies this`writerMsg, this`txns, this`lastTxnId, queue
      ensures View() == old(View()).Popped(v)
      ensures old(queue.queue) == [] ==>
                && txns == old(txns) && lastTxnId == old(lastTxnId)
                && writerMsg == if queue.consumer.Ended? then [DONE] else old(writerMsg)
      ensures old(queue.queue) != [] ==>
                var m := old(queue.queue[0]);
                if m.TRANSACTION? && m.txn.IsRequest() && m.txn.initiator in old(lastTxnId) then
                  var n := old(lastTxnId)[m.txn.initiator];
                  var t := m.txn.(id := n % TWO64);
                  && writerMsg == [TRANSACTION(t)] && lastTxnId == old(lastTxnId)[t.initiator := n + 1]
                  && txns == old(txns)[Key(t.initiator, n % TWO64) := t]
                else writerMsg == [m] && txns == old(txns) && lastTxnId == old(lastTxnId)
    {
      var item, waits := queue.PopTest(v);
      if item == [] {
        if !waits {
          writerMsg := [DONE];
        }
        return;
      }
      var m := item[0];
      if m.TRANSACTION? && m.txn.IsRequest() && m.txn.initiator in lastTxnId {
        var id := lastTxnId[m.txn.initiator];
        var t := m.txn.(id := id % TWO64);
        lastTxnId := lastTxnId[t.initiator := id + 1];
        txns := txns[t.RequestKey() := t];
        m := TRANSACTION(t);
      }
      writerMsg := [m];
    }

    method WriterWakes(v: Variant)
      requires queue.consumer.Waiting?
      modifies this`writerMsg, queue
      ensures View() == old(View()).Wakened(v)
      ensures writerMsg == if queue.done && v == AsWritten then [DONE] else old(writerMsg)
    {
      var again := queue.PopWake(v);
      if !again {
        writerMsg := [DONE];
      }
    }

    /** The reader thread from receiveTransaction on; a message that is not a
        transaction ends it. */
    method Receive(m: Msg)
      modifies this`readerPc, queue
      ensures View() == old(View()).Received(m)
      ensures m.TRANSACTION? ==> readerPc == Handling(m.txn) && queue.done == old(queue.done)
      ensures !m.TRANSACTION? ==> queue.done && readerPc == Stopped(if m.DONE? then Ok else UnexpectedMessage)
    {
      match m
      case TRANSACTION(t) =>
        readerPc := Handling(t);
      case DONE =>
        readerPc := Stopped(Ok);
        queue.Finish();
      case TERMINATE(_) =>
        readerPc := Stopped(UnexpectedMessage);
        queue.Finish();
    }

    /** The reader thread serves a transaction. */
    method Handle()
      requires readerPc.Handling?
      modifies this`readerPc, this`txns, this`promises, this`slaveMap, queue
      ensures View() == old(View()).Handled()
      ensures var t := old(readerPc.txn);
              readerPc == if t.IsRequest() then (if t.target in old(slaveMap) then Receiving else Stopped(UnknownSlave))
                          else if t.initiator !in lastTxnId then Stopped(UnknownMaster)
                          else if Key(t.initiator, t.id) !in old(txns) then Stopped(UnknownRequest)
                          else Receiving
      ensures readerPc.Stopped? ==> queue.done && queue.queue == old(queue.queue) && slaveMap == old(slaveMap)
      ensures readerPc.Stopped? || old(readerPc.txn.IsRequest()) ==> txns == old(txns) && promises == old(promises)
      ensures var t := old(readerPc.txn);
              readerPc == Receiving && !t.IsRequest() ==>
                var filled := if t.typ.READ_RESP? && t.ok then Some(t.data) else None;
                && txns == old(txns) - {Key(t.initiator, t.id)}
                && promises == old(promises)[Key(t.initiator, t.id) :=
                                               Outcome(t.ok, if t.ok then NoText else t.message, filled)]
                && slaveMap == old(slaveMap) && queue.queue == old(queue.queue)
      ensures var t := old(readerPc.txn);
              readerPc == Receiving && t.IsRequest() ==>
                var s := old(slaveMap)[t.target];
                var typ := if t.typ.READ_REQ? then READ_RESP else WRITE_RESP;
                var resp := Txn(typ, t.initiator, t.target, t.id, t.address, t.size, s.Fetch(t), true, NoText);
                && slaveMap == old(slaveMap)[t.target := s.After(t)]
                && queue.queue == old(queue.queue)
                     + [TRANSACTION(if s.Refuses(t) then resp.(data := [], ok := false, message := SlaveFailed) else resp)]
    {
      var t := readerPc.txn;
      if t.typ.READ_RESP? || t.typ.WRITE_RESP? {
        if t.initiator !in lastTxnId {
          readerPc := Stopped(UnknownMaster);
          queue.Finish();
          return;
        }
        if t.RequestKey() !in txns {
          readerPc := Stopped(UnknownRequest);
          queue.Finish();
          return;
        }
        txns := txns - {t.RequestKey()};
        var filled := if t.typ.READ_RESP? && t.ok then Some(t.data) else None;
        promises := promises[t.RequestKey() := Outcome(t.ok, if t.ok then NoText else t.message, filled)];
      } else {
        if t.target !in slaveMap {
          readerPc := Stopped(UnknownSlave);
          queue.Finish();
          return;
        }
        var s := slaveMap[t.target];
        var refused := s.Refuses(t);
        var data := s.Fetch(t);
        slaveMap := slaveMap[t.target := s.After(t)];
        var typ := if t.typ.WRITE_REQ? then WRITE_RESP else READ_RESP;
        var resp := Txn(typ, t.initiator, t.target, t.id, t.address, t.size, data, true, NoText);
        if refused {
          resp := resp.(data := [], ok := false, message := SlaveFailed);
        }
        queue.Push(TRANSACTION(resp));
      }
      readerPc := Receiving;
    }
  }
}
