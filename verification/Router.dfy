/** The router as an object: registration, decoding and one turn of route(). */
module Router {
  import opened Wire
  import opened AddressMap
  import opened FlatMemory
  import opened System

  class Router {
    var ips: seq<IpInfo>
    var ipMMap: map<u64, IpInfo>
    var ipCount: nat
    var masterCount: nat

    ghost function View(): Registry
      reads this
    {
      Registry(ips, ipMMap, ipCount, masterCount)
    }

    constructor ()
      ensures View() == EMPTY
    {
      ips, ipMMap, ipCount, masterCount := [], map[], 0, 0;
    }

    /** Registers a block, or turns it away; a master is counted in both cases. */
    method RegisterIp(v: Variant, ip: IpInfo) returns (id: Option<nat>)
      modifies this
      ensures View() == Register(v, old(View()), ip)
      ensures id == if Accepts(v, old(ips), ip) then Some(old(ipCount)) else None
      ensures masterCount == old(masterCount) + if ip.typ in {MASTER, MASTER_LITE, MASTER_STREAM} then 1 else 0
      ensures id == None ==> ips == old(ips) && ipMMap == old(ipMMap) && ipCount == old(ipCount)
      ensures id != None ==>
                var entry := ip.(id := old(ipCount));
                ips == old(ips) + [entry] && ipMMap == old(ipMMap)[ip.address := entry] && ipCount == old(ipCount) + 1
    {
      if ip.typ == MASTER || ip.typ == MASTER_LITE || ip.typ == MASTER_STREAM {
        masterCount := masterCount + 1;
      }
      for k := 0 to |ips|
        invariant forall j :: 0 <= j < k ==> !Clashes(v, ip, ips[j])
        invariant View() == old(View()).(masterCount := masterCount)
        invariant masterCount == old(masterCount) + if ip.typ.IsMaster() then 1 else 0
      {
        var r := ips[k];
        if ip.address >= r.address && ip.address < Add64(r.address, r.size) {
          assert r in ips && Clashes(v, ip, r);
          return None;
        }
        var bound := if v.AsWritten? then r.size else Add64(r.address, r.size);
        if ip.address < bound && Add64(ip.address, ip.size) > r.address {
          assert r in ips && Clashes(v, ip, r);
          return None;
        }
      }
      var entry := ip.(id := ipCount);
      id := Some(ipCount);
      ipCount := ipCount + 1;
      ipMMap := ipMMap[ip.address := entry];
      ips := ips + [entry];
    }

    /** Searches the map in whatever order its keys come.  The answer is that of
        some covering block; when blocks are disjoint it is that of a scan of the
        list, whatever the order. */
    method FindTarget(address: u64, size: u64) returns (r: Decoded)
      requires Consistent(View())
      ensures r.Hit? ==>
                && r.target < |ips| && Covers(ips[r.target], address)
                && Add64(address, size) <= Add64(ips[r.target].address, ips[r.target].size)
      ensures r.Miss? ==> r.note in {NoBlockAtAddress, SpansBoundary}
      ensures r == Miss(SpansBoundary) ==>
                exists i :: && 0 <= i < |ips| && Covers(ips[i], address)
                            && Add64(address, size) > Add64(ips[i].address, ips[i].size)
      ensures r == Miss(NoBlockAtAddress) <==> forall i :: 0 <= i < |ips| ==> !Covers(ips[i], address)
      ensures Disjoint(ips) && AllNonWrapping(ips) ==> r == Decode(ips, address, size)
    {
      var found: Option<IpInfo> := None;
      var todo := ipMMap.Keys;
      while todo != {} && found.None?
        invariant todo <= ipMMap.Keys
        invariant forall a :: a in ipMMap && a !in todo && found.None? ==> !Covers(ipMMap[a], address)
        invariant found.Some? ==> found.value in ips && Covers(found.value, address)
        decreases |todo|
      {
        var key :| key in todo;
        todo := todo - {key};
        var rIp := ipMMap[key];
        if address >= rIp.address && address < Add64(rIp.address, rIp.size) {
          found := Some(rIp);
        }
      }
      if found.None? {
        r := Miss(NoBlockAtAddress);
        NothingCovers(View(), address);
        BlockAtFinds(ips, address, 0);
        return;
      }
      var ip := found.value;
      ghost var i: nat :| i < |ips| && ips[i] == ip;
      FoundIsDecoded(ips, i, address);
      assert ip.id == i;
      if Add64(address, size) > Add64(ip.address, ip.size) {
        return Miss(SpansBoundary);
      }
      return Hit(ip.id);
    }

    /** One turn of route()'s loop: where it is afterwards, and the count. */
    method Turn(cfg: Config, msg: Msg, ghost s: Session) returns (pc: RoutePc)
      requires cfg.Valid() && Consistent(View()) && ips == cfg.ips
      requires s.masterCount == masterCount && s.route.Taking?
      modifies this`masterCount
      ensures pc == Routed(cfg, s, msg).route && masterCount == Routed(cfg, s, msg).masterCount
      ensures masterCount == if !(msg.TERMINATE? && msg.ip < |ips|) then old(masterCount)
                             else if old(masterCount) == 0 then TWO64 - 1
                             else old(masterCount) - 1
      ensures msg.TERMINATE? ==>
                pc == if msg.ip < |ips| && masterCount == 0 then Finishing(0)
                      else if msg.ip < |ips| && cfg.terminate == Repaired then Taking
                      else Crashed
      ensures msg.DONE? || (msg.TRANSACTION? && msg.txn.initiator >= |ips|) ==> pc == Crashed
      ensures msg.TRANSACTION? && msg.txn.initiator < |ips| && !msg.txn.IsRequest() ==>
                pc == Giving(msg, ips[msg.txn.initiator].clientId)
      ensures msg.TRANSACTION? && msg.txn.initiator < |ips| && msg.txn.IsRequest() ==>
                var t := msg.txn;
                match Decode(ips, t.address, t.size)
                case Hit(i) => i < |ips| && pc == Giving(TRANSACTION(t.(target := i)), ips[i].clientId)
                case Miss(note) =>
                  pc == Giving(TRANSACTION(Txn(if t.typ.READ_REQ? then READ_RESP else WRITE_RESP, t.initiator, 0, t.id,
                                               0, 0, [], false, note)),
                               ips[t.initiator].clientId)
    {
      if msg.TERMINATE? {
        if msg.ip >= |ips| {
          return Crashed;
        }
        masterCount := if masterCount == 0 then TWO64 - 1 else masterCount - 1;
        if masterCount == 0 {
          return Finishing(0);
        }
        if cfg.terminate.Repaired? {
          return Taking;
        }
      }
      if !msg.TRANSACTION? {
        return Crashed;
      }
      var txn := msg.txn;
      if txn.initiator >= |ips| {
        return Crashed;
      }
      if txn.typ.READ_RESP? || txn.typ.WRITE_RESP? {
        return Giving(msg, ips[txn.initiator].clientId);
      }
      var found := FindTarget(txn.address, txn.size);
      match found {
        case Miss(note) =>
          return Giving(TRANSACTION(ErrorTxn(txn, note)), ips[txn.initiator].clientId);
        case Hit(target) =>
          return Giving(TRANSACTION(txn.(target := target)), ips[target].clientId);
      }
    }
  }

  /** The block that a search has come upon is the first of the list. */
  lemma FoundIsDecoded(ips: seq<IpInfo>, i: nat, address: u64)
    requires i < |ips| && Covers(ips[i], address)
    ensures Disjoint(ips) && AllNonWrapping(ips) ==> BlockAt(ips, address) == Some(i)
  {
    if Disjoint(ips) && AllNonWrapping(ips) {
      BlockAtIs(ips, address, i);
    }
  }

  /** An address that no entry of the map covers is covered by no block. */
  lemma NothingCovers(reg: Registry, address: u64)
    requires Consistent(reg) && forall a :: a in reg.ipMMap ==> !Covers(reg.ipMMap[a], address)
    ensures forall i :: 0 <= i < |reg.ips| ==> !Covers(reg.ips[i], address)
  {
    forall i | 0 <= i < |reg.ips| ensures !Covers(reg.ips[i], address) {
      if reg.ips[i].NonEmpty() && reg.ips[i].NonWrapping() {
        assert reg.ips[i].address in reg.ipMMap;
      }
    }
  }
}
