/** The router's registry of IP blocks and its address decoder. */
module AddressMap {
  import opened Wire

  datatype Registry = Registry(ips: seq<IpInfo>, ipMMap: map<u64, IpInfo>, ipCount: nat, masterCount: nat)

  const EMPTY: Registry := Registry([], map[], 0, 0)

  /** The Id field of the router's n-th client: as written, newClient does not
      store it; receiveIpInfo puts it into every block of that client. */
  function StoredId(v: Variant, n: nat): nat {
    if v.Repaired? then n else 0
  }

  /** `ip` starts inside the registered block `r`. */
  predicate StartsInside(ip: IpInfo, r: IpInfo) {
    ip.address >= r.address && ip.address < Add64(r.address, r.size)
  }

  /** The second overlap test.  As written, it compares with the size of the
      registered block; repaired, with its end. */
  predicate Straddles(v: Variant, ip: IpInfo, r: IpInfo) {
    match v
    case AsWritten => ip.address < r.size && Add64(ip.address, ip.size) > r.address
    case Repaired => ip.address < Add64(r.address, r.size) && Add64(ip.address, ip.size) > r.address
  }

  predicate Clashes(v: Variant, ip: IpInfo, r: IpInfo) {
    StartsInside(ip, r) || Straddles(v, ip, r)
  }

  predicate Accepts(v: Variant, ips: seq<IpInfo>, ip: IpInfo) {
    forall r :: r in ips ==> !Clashes(v, ip, r)
  }

  /** One registration.  A master is counted before the tests are made. */
  function Register(v: Variant, reg: Registry, ip: IpInfo): Registry {
    var counted := reg.(masterCount := reg.masterCount + if ip.typ.IsMaster() then 1 else 0);
    if Accepts(v, reg.ips, ip) then
      var entry := ip.(id := reg.ipCount);
      counted.(ips := reg.ips + [entry],
               ipMMap := reg.ipMMap[ip.address := entry],
               ipCount := reg.ipCount + 1)
    else
      counted
  }

  function RegisterAll(v: Variant, attempts: seq<IpInfo>): Registry {
    if attempts == [] then EMPTY
    else Register(v, RegisterAll(v, attempts[..|attempts| - 1]), attempts[|attempts| - 1])
  }

  function MasterCount(ips: seq<IpInfo>): nat {
    if ips == [] then 0
    else MasterCount(ips[..|ips| - 1]) + if ips[|ips| - 1].typ.IsMaster() then 1 else 0
  }

  // ---------------------------------------------------------------- overlap

  predicate Overlap(a: IpInfo, b: IpInfo) {
    a.address < b.End() && b.address < a.End()
  }

  /** No two non-empty blocks share an address. */
  ghost predicate Disjoint(ips: seq<IpInfo>) {
    forall i, j :: 0 <= i < j < |ips| && ips[i].NonEmpty() && ips[j].NonEmpty() ==> !Overlap(ips[i], ips[j])
  }

  predicate AllNonWrapping(ips: seq<IpInfo>) {
    forall ip :: ip in ips ==> ip.NonWrapping()
  }

  /** What the two tests let through, for a pair of ordinary blocks: the overlap
      they miss is exactly a newcomer that starts before the registered block
      but not below that block's size. */
  lemma MissedOverlap(r: IpInfo, ip: IpInfo)
    requires r.NonEmpty() && r.NonWrapping() && ip.NonEmpty() && ip.NonWrapping()
    ensures !Clashes(AsWritten, ip, r) && Overlap(r, ip) <==> r.size <= ip.address < r.address < ip.End()
    ensures Clashes(Repaired, ip, r) <==> Overlap(r, ip)
  {
  }

  /** A rejected ordinary block really shares an address with a registered one;
      repaired, this takes a registry whose empty blocks are at address 0, where
      masters are. */
  lemma NoFalseRejection(v: Variant, ips: seq<IpInfo>, ip: IpInfo)
    requires ip.NonEmpty() && ip.NonWrapping() && !Accepts(v, ips, ip)
    requires v == AsWritten || forall r :: r in ips ==> r.NonWrapping() && (r.NonEmpty() || r.address == 0)
    ensures exists r, a :: r in ips && r.Contains(a) && ip.Contains(a)
  {
    var r :| r in ips && Clashes(v, ip, r);
    var a := if ip.address >= r.address then ip.address else r.address;
    assert r.Contains(a) && ip.Contains(a);
  }

  /** An empty block occupies no address, and yet it is rejected, exactly when it
      is placed inside a registered block. */
  lemma EmptyBlockRejection(v: Variant, ips: seq<IpInfo>, ip: IpInfo)
    requires AllNonWrapping(ips) && !ip.NonEmpty()
    ensures !Accepts(v, ips, ip) <==> exists r :: r in ips && r.Contains(ip.address)
  {
    forall r | r in ips ensures Clashes(v, ip, r) <==> r.Contains(ip.address) {}
  }

  /** A block that ends at 2^64 or beyond is accepted exactly when it does not start
      inside a registered block; what else it runs over is not looked at. */
  lemma WrappingBlockAcceptance(v: Variant, ips: seq<IpInfo>, ip: IpInfo)
    requires AllNonWrapping(ips) && ip.address + ip.size >= TWO64
    ensures Accepts(v, ips, ip) <==> forall r :: r in ips ==> !(r.address <= ip.address < r.address + r.size)
  {
    forall r | r in ips ensures Clashes(v, ip, r) <==> r.address <= ip.address < r.address + r.size {}
  }

  /** As written, a block that ends below 2^64 is accepted exactly when it does not
      start inside a registered block, nor below the size of one that it reaches. */
  lemma AcceptanceAsWritten(ips: seq<IpInfo>, ip: IpInfo)
    requires AllNonWrapping(ips) && ip.address + ip.size < TWO64
    ensures Accepts(AsWritten, ips, ip) <==>
      forall r :: r in ips ==>
        && !(r.address <= ip.address < r.address + r.size)
        && !(ip.address < r.size && r.address < ip.address + ip.size)
  {
    forall r | r in ips
      ensures Clashes(AsWritten, ip, r) <==>
        r.address <= ip.address < r.address + r.size || (ip.address < r.size && r.address < ip.address + ip.size)
    {}
  }

  /** A registered block that ends at 2^64 or beyond turns nobody away who starts
      inside it: as written it rejects by its size alone, and repaired by what its
      end wraps to. */
  lemma WrappingBlockRejects(v: Variant, ip: IpInfo, r: IpInfo)
    requires r.address + r.size >= TWO64 && ip.address + ip.size < TWO64
    ensures Clashes(v, ip, r) <==>
      && r.address < ip.address + ip.size
      && ip.address < if v.AsWritten? then r.size else r.address + r.size - TWO64
  {
  }

  /** A master as registerMaster describes it: no address and no size. */
  predicate BareMaster(ip: IpInfo) { ip.typ.IsMaster() && ip.address == 0 && !ip.NonEmpty() }

  /** A master is turned away exactly when a non-empty block starts at address 0. */
  lemma MasterIsTurnedAwayExactlyWhen(v: Variant, ips: seq<IpInfo>, ip: IpInfo)
    requires BareMaster(ip)
    ensures !Accepts(v, ips, ip) <==> exists r :: r in ips && r.address == 0 && r.NonEmpty()
  {
    forall r | r in ips ensures Clashes(v, ip, r) <==> r.address == 0 && r.NonEmpty() {}
  }

  // ------------------------------------------------------ registry invariant

  /** What every mix of accepted and rejected registrations keeps. */
  ghost predicate Consistent(reg: Registry) {
    && reg.ipCount == |reg.ips|
    && (forall i :: 0 <= i < |reg.ips| ==> reg.ips[i].id == i)
    && (forall i :: 0 <= i < |reg.ips| && reg.ips[i].NonEmpty() && reg.ips[i].NonWrapping() ==>
          reg.ips[i].address in reg.ipMMap && reg.ipMMap[reg.ips[i].address] == reg.ips[i])
    && (forall a :: a in reg.ipMMap ==> reg.ipMMap[a] in reg.ips && reg.ipMMap[a].address == a)
  }

  lemma RegisterKeepsConsistent(v: Variant, reg: Registry, ip: IpInfo)
    requires Consistent(reg)
    ensures Consistent(Register(v, reg, ip))
  {
    var reg' := Register(v, reg, ip);
    if Accepts(v, reg.ips, ip) {
      forall i | 0 <= i < |reg'.ips| && reg'.ips[i].NonEmpty() && reg'.ips[i].NonWrapping()
        ensures reg'.ips[i].address in reg'.ipMMap && reg'.ipMMap[reg'.ips[i].address] == reg'.ips[i]
      {
        if i < |reg.ips| {
          assert reg.ips[i] in reg.ips;
          assert !StartsInside(ip, reg.ips[i]);
        }
      }
      forall a | a in reg'.ipMMap ensures reg'.ipMMap[a] in reg'.ips {
        if a == ip.address {
          assert reg'.ips[|reg.ips|] == reg'.ipMMap[a];
        } else {
          assert reg'.ipMMap[a] in reg.ips;
        }
      }
    }
  }

  lemma {:induction false} RegistryInvariant(v: Variant, attempts: seq<IpInfo>)
    ensures Consistent(RegisterAll(v, attempts))
    ensures RegisterAll(v, attempts).masterCount == MasterCount(attempts)
  {
    if attempts != [] {
      RegistryInvariant(v, attempts[..|attempts| - 1]);
      RegisterKeepsConsistent(v, RegisterAll(v, attempts[..|attempts| - 1]), attempts[|attempts| - 1]);
    }
  }

  /** The k-th attempt is a master, and it was rejected. */
  predicate TurnedAway(v: Variant, attempts: seq<IpInfo>, k: nat)
    requires k < |attempts|
  {
    attempts[k].typ.IsMaster() && !Accepts(v, RegisterAll(v, attempts[..k]).ips, attempts[k])
  }

  lemma RegisterCounts(v: Variant, reg: Registry, ip: IpInfo)
    ensures var reg' := Register(v, reg, ip);
            reg'.masterCount - MasterCount(reg'.ips)
            == reg.masterCount - MasterCount(reg.ips) + if ip.typ.IsMaster() && !Accepts(v, reg.ips, ip) then 1 else 0
  {
    if Accepts(v, reg.ips, ip) {
      assert Register(v, reg, ip).ips[..|reg.ips|] == reg.ips;
    }
  }

  /** The count of masters is that of the registered ones exactly as long as no
      master has been turned away. */
  lemma {:induction false} MasterCountIsExact(v: Variant, attempts: seq<IpInfo>)
    ensures MasterCount(RegisterAll(v, attempts).ips) <= RegisterAll(v, attempts).masterCount
    ensures RegisterAll(v, attempts).masterCount == MasterCount(RegisterAll(v, attempts).ips)
            <==> forall k :: 0 <= k < |attempts| ==> !TurnedAway(v, attempts, k)
  {
    if attempts != [] {
      var n := |attempts| - 1;
      var before := attempts[..n];
      MasterCountIsExact(v, before);
      RegisterCounts(v, RegisterAll(v, before), attempts[n]);
      forall k | 0 <= k < n ensures TurnedAway(v, before, k) <==> TurnedAway(v, attempts, k) {
        assert before[..k] == attempts[..k];
      }
      assert TurnedAway(v, attempts, n)
        <==> attempts[n].typ.IsMaster() && !Accepts(v, RegisterAll(v, before).ips, attempts[n]);
    }
  }

  lemma OneThenAnother(v: Variant, a: IpInfo, b: IpInfo)
    ensures RegisterAll(v, [a]) == Register(v, EMPTY, a)
    ensures RegisterAll(v, [a]).ips == [a.(id := 0)]
    ensures RegisterAll(v, [a, b]) == Register(v, RegisterAll(v, [a]), b)
  {
    assert [a][..0] == [] && [a, b][..1] == [a];
  }

  /** A slave at address 0 and then a master: the master is rejected and counted. */
  lemma MasterCanBeTurnedAway(v: Variant) returns (attempts: seq<IpInfo>, k: nat)
    ensures k < |attempts| && BareMaster(attempts[k]) && TurnedAway(v, attempts, k)
    ensures RegisterAll(v, attempts).masterCount > MasterCount(RegisterAll(v, attempts).ips)
  {
    var a := IpInfo("ram", 0, 0x100, 0, 0, SLAVE, SOFTWARE, 0, 0);
    var m := IpInfo("cpu", 0, 0, 0, 0, MASTER, SOFTWARE, 0, 0);
    OneThenAnother(v, a, m);
    assert a in RegisterAll(v, [a]).ips;
    MasterIsTurnedAwayExactlyWhen(v, RegisterAll(v, [a]).ips, m);
    attempts, k := [a, m], 1;
    assert attempts[..1] == [a];
    MasterCountIsExact(v, attempts);
  }

  /** No later block clashes with an earlier one. */
  ghost predicate PairsPass(v: Variant, ips: seq<IpInfo>) {
    forall i, j :: 0 <= i < j < |ips| ==> !Clashes(v, ips[j], ips[i])
  }

  lemma {:induction false} PairsPassTheTests(v: Variant, attempts: seq<IpInfo>)
    ensures PairsPass(v, RegisterAll(v, attempts).ips)
  {
    if attempts != [] {
      var n := |attempts| - 1;
      var reg, reg' := RegisterAll(v, attempts[..n]), RegisterAll(v, attempts);
      PairsPassTheTests(v, attempts[..n]);
      assert reg' == Register(v, reg, attempts[n]);
      forall i, j | 0 <= i < j < |reg'.ips| ensures !Clashes(v, reg'.ips[j], reg'.ips[i]) {
        if j == |reg.ips| {
          assert reg.ips[i] in reg.ips;
          assert !Clashes(v, attempts[n], reg.ips[i]);
        }
      }
    }
  }

  /** As written: two registered ordinary blocks overlap in exactly one situation. */
  lemma OverlapsAsWritten(attempts: seq<IpInfo>, i: nat, j: nat)
    requires i < j < |RegisterAll(AsWritten, attempts).ips|
    requires var ips := RegisterAll(AsWritten, attempts).ips;
             ips[i].NonEmpty() && ips[i].NonWrapping() && ips[j].NonEmpty() && ips[j].NonWrapping()
    ensures var ips := RegisterAll(AsWritten, attempts).ips;
            Overlap(ips[i], ips[j]) <==> ips[i].size <= ips[j].address < ips[i].address < ips[j].End()
  {
    PairsPassTheTests(AsWritten, attempts);
    var ips := RegisterAll(AsWritten, attempts).ips;
    MissedOverlap(ips[i], ips[j]);
  }

  /** As written, blocks that arrive in ascending address order never overlap. */
  lemma AscendingOrderIsDisjoint(attempts: seq<IpInfo>)
    requires AllNonWrapping(RegisterAll(AsWritten, attempts).ips)
    requires var ips := RegisterAll(AsWritten, attempts).ips;
             forall i, j :: 0 <= i < j < |ips| && ips[i].NonEmpty() && ips[j].NonEmpty() ==>
               ips[i].address <= ips[j].address
    ensures Disjoint(RegisterAll(AsWritten, attempts).ips)
  {
    var ips := RegisterAll(AsWritten, attempts).ips;
    forall i, j | 0 <= i < j < |ips| && ips[i].NonEmpty() && ips[j].NonEmpty()
      ensures !Overlap(ips[i], ips[j])
    {
      assert ips[i] in ips && ips[j] in ips;
      OverlapsAsWritten(attempts, i, j);
    }
  }

  /** As written, a block placed across an earlier, higher one is let through. */
  lemma AcceptedOverlap()
    ensures exists a, b :: !Disjoint(RegisterAll(AsWritten, [a, b]).ips) && a.NonWrapping() && b.NonWrapping()
  {
    var a := IpInfo("ram", 0x1000, 0x100, 0, 0, SLAVE, SOFTWARE, 0, 0);
    var b := a.(address := 0x800, size := 0x1000);
    OneThenAnother(AsWritten, a, b);
    var ips := RegisterAll(AsWritten, [a, b]).ips;
    assert ips == [a, b.(id := 1)];
    assert Overlap(ips[0], ips[1]);
  }

  /** Repaired: whatever is registered stays disjoint. */
  lemma RepairedIsDisjoint(attempts: seq<IpInfo>)
    requires AllNonWrapping(RegisterAll(Repaired, attempts).ips)
    ensures Disjoint(RegisterAll(Repaired, attempts).ips)
  {
    var ips := RegisterAll(Repaired, attempts).ips;
    PairsPassTheTests(Repaired, attempts);
    forall i, j | 0 <= i < j < |ips| && ips[i].NonEmpty() && ips[j].NonEmpty()
      ensures !Overlap(ips[i], ips[j])
    {
      assert ips[i] in ips && ips[j] in ips;
      MissedOverlap(ips[i], ips[j]);
    }
  }

  /** Repaired: a non-empty block is accepted exactly when it overlaps none. */
  lemma RepairedAcceptance(ips: seq<IpInfo>, ip: IpInfo)
    requires AllNonWrapping(ips) && ip.NonEmpty() && ip.NonWrapping()
    ensures Accepts(Repaired, ips, ip) <==> forall r :: r in ips ==> !Overlap(r, ip)
  {
    forall r | r in ips ensures Clashes(Repaired, ip, r) <==> Overlap(r, ip) {}
  }

  // ---------------------------------------------------------------- decoding

  datatype Decoded = Hit(target: nat) | Miss(note: Note)

  /** The test of the search loop in findTarget. */
  predicate Covers(ip: IpInfo, address: u64) {
    address >= ip.address && address < Add64(ip.address, ip.size)
  }

  /** Some address is covered by the block exactly when it is not empty and ends
      below 2^64; a block that ends at 2^64 is accepted and never found. */
  lemma CoversSomething(ip: IpInfo)
    ensures (exists a: u64 :: Covers(ip, a)) <==> ip.NonEmpty() && ip.NonWrapping()
  {
    if ip.NonEmpty() && ip.NonWrapping() {
      assert Covers(ip, ip.address);
    }
  }

  /** The first block of the list that covers the address, from position i on. */
  function BlockAt(ips: seq<IpInfo>, address: u64, i: nat := 0): (r: Option<nat>)
    requires i <= |ips|
    ensures r.Some? ==> i <= r.value < |ips| && Covers(ips[r.value], address)
    decreases |ips| - i
  {
    if i == |ips| then None
    else if Covers(ips[i], address) then Some(i)
    else BlockAt(ips, address, i + 1)
  }

  /** Decoding by a scan of the list. */
  function Decode(ips: seq<IpInfo>, address: u64, size: u64): Decoded {
    match BlockAt(ips, address)
    case None => Miss(NoBlockAtAddress)
    case Some(i) => Fit(ips[i], i, address, size)
  }

  function Fit(ip: IpInfo, i: nat, address: u64, size: u64): Decoded {
    if Add64(address, size) > Add64(ip.address, ip.size) then Miss(SpansBoundary) else Hit(i)
  }

  lemma {:induction false} BlockAtFinds(ips: seq<IpInfo>, address: u64, i: nat)
    requires i <= |ips|
    ensures match BlockAt(ips, address, i)
            case Some(k) => i <= k < |ips| && Covers(ips[k], address) && forall j :: i <= j < k ==> !Covers(ips[j], address)
            case None => forall j :: i <= j < |ips| ==> !Covers(ips[j], address)
    decreases |ips| - i
  {
    if i < |ips| && !Covers(ips[i], address) {
      BlockAtFinds(ips, address, i + 1);
    }
  }

  /** Over disjoint blocks at most one covers an address, so the order of a
      search does not matter. */
  lemma CoveringBlockIsUnique(ips: seq<IpInfo>, address: u64, i: nat, j: nat)
    requires Disjoint(ips) && AllNonWrapping(ips) && i < |ips| && j < |ips|
    requires Covers(ips[i], address) && Covers(ips[j], address)
    ensures i == j
  {
    assert ips[i] in ips && ips[j] in ips;
  }

  /** Two entries of the map cover the address. */
  predicate Ambiguous(reg: Registry, address: u64, a: u64, b: u64) {
    a != b && a in reg.ipMMap && b in reg.ipMMap && Covers(reg.ipMMap[a], address) && Covers(reg.ipMMap[b], address)
  }

  lemma OverlapIsAmbiguous(v: Variant, attempts: seq<IpInfo>, i: nat, j: nat) returns (address: u64)
    requires var ips := RegisterAll(v, attempts).ips;
             && AllNonWrapping(ips) && i < j < |ips| && ips[i].NonEmpty() && ips[j].NonEmpty() && Overlap(ips[i], ips[j])
    ensures var reg := RegisterAll(v, attempts); Ambiguous(reg, address, reg.ips[i].address, reg.ips[j].address)
  {
    var reg := RegisterAll(v, attempts);
    RegistryInvariant(v, attempts);
    PairsPassTheTests(v, attempts);
    assert reg.ips[i] in reg.ips && reg.ips[j] in reg.ips && !Clashes(v, reg.ips[j], reg.ips[i]);
    address := reg.ips[i].address;
  }

  lemma CoveringEntryIsUnique(reg: Registry, address: u64, a: u64, b: u64)
    requires Consistent(reg) && Disjoint(reg.ips) && AllNonWrapping(reg.ips) && a in reg.ipMMap && b in reg.ipMMap
    requires Covers(reg.ipMMap[a], address) && Covers(reg.ipMMap[b], address)
    ensures a == b
  {
    var i :| 0 <= i < |reg.ips| && reg.ips[i] == reg.ipMMap[a];
    var j :| 0 <= j < |reg.ips| && reg.ips[j] == reg.ipMMap[b];
    CoveringBlockIsUnique(reg.ips, address, i, j);
  }

  /** The order in which the map is searched matters for some address exactly when
      registered blocks overlap. */
  lemma OrderMattersExactlyWhen(v: Variant, attempts: seq<IpInfo>)
    requires AllNonWrapping(RegisterAll(v, attempts).ips)
    ensures (exists address: u64, a: u64, b: u64 :: Ambiguous(RegisterAll(v, attempts), address, a, b))
            <==> !Disjoint(RegisterAll(v, attempts).ips)
  {
    var reg := RegisterAll(v, attempts);
    RegistryInvariant(v, attempts);
    if Disjoint(reg.ips) {
      forall address: u64, a: u64, b: u64
        | a in reg.ipMMap && b in reg.ipMMap && Covers(reg.ipMMap[a], address) && Covers(reg.ipMMap[b], address)
        ensures a == b
      {
        CoveringEntryIsUnique(reg, address, a, b);
      }
    } else {
      var i, j :| 0 <= i < j < |reg.ips| && reg.ips[i].NonEmpty() && reg.ips[j].NonEmpty()
                  && Overlap(reg.ips[i], reg.ips[j]);
      var address := OverlapIsAmbiguous(v, attempts, i, j);
    }
  }

  lemma BlockAtIs(ips: seq<IpInfo>, address: u64, i: nat)
    requires Disjoint(ips) && AllNonWrapping(ips) && i < |ips| && Covers(ips[i], address)
    ensures BlockAt(ips, address) == Some(i)
  {
    BlockAtFinds(ips, address, 0);
    CoveringBlockIsUnique(ips, address, i, BlockAt(ips, address).value);
  }

  /** The whole range of a transaction lies in the block. */
  predicate Encloses(ip: IpInfo, address: u64, size: u64) {
    ip.Contains(address) && address + size <= ip.End()
  }

  /** Decoding succeeds with a block exactly when the block holds the whole range,
      for ranges that do not leave the 64-bit address space. */
  lemma DecodeIsContainment(ips: seq<IpInfo>, address: u64, size: u64, i: nat)
    requires Disjoint(ips) && AllNonWrapping(ips) && i < |ips|
    requires address + size < TWO64
    ensures Decode(ips, address, size) == Hit(i) <==> Encloses(ips[i], address, size)
  {
    BlockAtFinds(ips, address, 0);
    assert ips[i] in ips;
    if Covers(ips[i], address) {
      BlockAtIs(ips, address, i);
    }
  }

  /** A start address inside a block decodes as it should exactly when the range
      does not leave the 64-bit address space: a range that does is taken for
      one that fits. */
  lemma DecodeIsExactUnlessWrapping(ips: seq<IpInfo>, address: u64, size: u64, i: nat)
    requires Disjoint(ips) && AllNonWrapping(ips) && i < |ips| && ips[i].Contains(address)
    ensures (Decode(ips, address, size) == Hit(i) <==> Encloses(ips[i], address, size))
            <==> address + size < TWO64
  {
    assert ips[i] in ips;
    BlockAtIs(ips, address, i);
  }
}
