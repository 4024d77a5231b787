/** What a bridge keeps about its masters and slaves, as the reader and writer
    threads change it. */
module Bookkeeping {
  import opened Wire
  import opened FlatMemory

  /** A request as Master::read and Master::write push it. */
  predicate Fresh(t: Txn) {
    && t.IsRequest() && t.target == 0 && t.id == 0 && t.ok && t.message == NoText
    && |t.data| == if t.typ.WRITE_REQ? then t.size else 0
  }

  /** txns      the requests that await a response
      lastId    per master, how many ids it has given out
      rams      the slaves
      promises  the outcomes of the fulfilled promises */
  datatype Books = Books(
    txns: map<Key, Txn>,
    lastId: map<nat, nat>,
    rams: map<nat, Ram>,
    promises: map<Key, Outcome>)
  {
    /** The request with the next id of its master; ids are 64-bit numbers. */
    function WithId(t: Txn): Txn
      requires t.initiator in lastId
    {
      t.(id := lastId[t.initiator] % TWO64)
    }

    /** The writer numbers a request and records it. */
    function Record(t: Txn): Books
      requires t.initiator in lastId
    {
      var n := WithId(t);
      this.(txns := txns[n.RequestKey() := n], lastId := lastId[t.initiator := lastId[t.initiator] + 1])
    }

    predicate KnowsSlave(t: Txn) { t.target in rams }

    /** The response of the slave that a request is for. */
    function Reply(t: Txn): Txn
      requires KnowsSlave(t)
    {
      Response(t, rams[t.target].Refuses(t), rams[t.target].Fetch(t))
    }

    function Serve(t: Txn): Books
      requires KnowsSlave(t)
    {
      this.(rams := rams[t.target := rams[t.target].After(t)])
    }

    predicate KnowsMaster(t: Txn) { t.initiator in lastId }

    predicate KnowsRequest(t: Txn) { t.RequestKey() in txns }

    /** A response fulfils its promise. */
    function Fulfil(t: Txn): Books {
      this.(txns := txns - {t.RequestKey()}, promises := promises[t.RequestKey() := OutcomeOf(t)])
    }
  }
}
