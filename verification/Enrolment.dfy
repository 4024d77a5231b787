/** What the composed handshake leaves in the registry: the blocks of all clients,
    in order, each under the id that its client got for it. */
module Enrolment {
  import opened Wire
  import opened AddressMap
  import opened RouterClient
  import opened Handshake
  import opened Phases

  // --------------------------------------------------------------- the order

  /** The blocks of one client, as the router takes them in. */
  function Entries(plan: seq<IpConfig>, owner: nat): (r: seq<IpInfo>)
    ensures |r| == |plan|
    ensures forall j :: 0 <= j < |plan| ==> r[j] == IpInfoOf(Registration(plan[j]), owner)
  {
    seq(|plan|, (j: int) requires 0 <= j < |plan| => IpInfoOf(Registration(plan[j]), owner))
  }

  /** How many blocks the first n clients register. */
  function Offset(plans: seq<seq<IpConfig>>, n: nat): nat
    requires n <= |plans|
  {
    if n == 0 then 0 else Offset(plans, n - 1) + |plans[n - 1]|
  }

  /** The registrations of the first n clients, one client after the other. */
  function Attempts(naming: Variant, plans: seq<seq<IpConfig>>, n: nat): (r: seq<IpInfo>)
    requires n <= |plans|
    ensures |r| == Offset(plans, n)
  {
    if n == 0 then [] else Attempts(naming, plans, n - 1) + Entries(plans[n - 1], StoredId(naming, n - 1))
  }

  /** Who makes them. */
  function Holders(plans: seq<seq<IpConfig>>, n: nat): (r: seq<nat>)
    requires n <= |plans|
    ensures |r| == Offset(plans, n)
    ensures forall i :: 0 <= i < |r| ==> r[i] < n
  {
    if n == 0 then [] else Holders(plans, n - 1) + seq(|plans[n - 1]|, (_) => n - 1)
  }

  lemma {:induction false} OffsetGrows(plans: seq<seq<IpConfig>>, c: nat, n: nat)
    requires c < n <= |plans|
    ensures Offset(plans, c) + |plans[c]| <= Offset(plans, n)
  {
    if c < n - 1 {
      OffsetGrows(plans, c, n - 1);
    }
  }

  /** The j-th block of client c. */
  lemma {:induction false} AttemptAt(naming: Variant, plans: seq<seq<IpConfig>>, n: nat, c: nat, j: nat)
    requires c < n <= |plans| && j < |plans[c]|
    ensures Offset(plans, c) + j < Offset(plans, n)
    ensures Attempts(naming, plans, n)[Offset(plans, c) + j] == IpInfoOf(Registration(plans[c][j]), StoredId(naming, c))
    ensures Holders(plans, n)[Offset(plans, c) + j] == c
  {
    OffsetGrows(plans, c, n);
    if c < n - 1 {
      AttemptAt(naming, plans, n - 1, c, j);
    }
  }

  /** Every registration is some client's. */
  lemma {:induction false} AttemptIsHeld(plans: seq<seq<IpConfig>>, n: nat, i: nat) returns (c: nat, j: nat)
    requires n <= |plans| && i < Offset(plans, n)
    ensures c < n && j < |plans[c]| && i == Offset(plans, c) + j && Holders(plans, n)[i] == c
  {
    if i < Offset(plans, n - 1) {
      c, j := AttemptIsHeld(plans, n - 1, i);
    } else {
      c, j := n - 1, i - Offset(plans, n - 1);
    }
  }

  function Plans(w: World): (r: seq<seq<IpConfig>>)
    ensures |r| == |w.sides|
    ensures forall c :: 0 <= c < |r| ==> r[c] == w.sides[c].plan
  {
    seq(|w.sides|, (c: int) requires 0 <= c < |w.sides| => w.sides[c].plan)
  }

  // ---------------------------------------------------------------- invariant

  /** An id that is on its way to the client. */
  function Underway(s: Side): nat {
    if |s.down| == 1 && s.down[0].IP_ACK? then 1 else 0
  }

  predicate SamePlans(w: World, plans: seq<seq<IpConfig>>) {
    |w.sides| == |plans| && forall c :: 0 <= c < |plans| ==> w.sides[c].plan == plans[c]
  }

  /** How far the registrations have come. */
  function Reached(w: World, plans: seq<seq<IpConfig>>): nat
    requires SamePlans(w, plans)
  {
    match w.pc
    case Shaking(i) => if i < |plans| then Offset(plans, i) else 0
    case Listing(i) => if i < |plans| then Offset(plans, i) + |w.sides[i].ids| + Underway(w.sides[i]) else 0
    case _ => Offset(plans, |plans|)
  }

  /** The registry is what these registrations make of it, and none of them was
      rejected. */
  ghost predicate RegistryIs(overlap: Variant, reg: Registry, attempts: seq<IpInfo>) {
    && reg == RegisterAll(overlap, attempts) && |reg.ips| == |attempts|
    && (forall i :: 0 <= i < |attempts| ==> reg.ips[i] == attempts[i].(id := i))
    && reg.masterCount == MasterCount(reg.ips)
  }

  /** The ids of a client count up from those of the clients before it. */
  predicate Counts(s: Side, offset: nat) {
    forall j :: 0 <= j < |s.ids| ==> s.ids[j] == offset + j
  }

  /** So does the id on its way. */
  predicate AckCounts(s: Side, offset: nat) {
    |s.down| == 1 && s.down[0].IP_ACK? ==> s.down[0].id == offset + |s.ids|
  }

  ghost predicate RegistryFits(w: World, plans: seq<seq<IpConfig>>, all: seq<IpInfo>)
    requires SamePlans(w, plans)
  {
    Reached(w, plans) <= |all| && RegistryIs(w.overlap, w.reg, all[..Reached(w, plans)])
  }

  ghost predicate IdsFit(w: World, plans: seq<seq<IpConfig>>)
    requires SamePlans(w, plans)
  {
    && (forall c :: 0 <= c < |plans| ==> Counts(w.sides[c], Offset(plans, c)))
    && (w.pc.Listing? && w.pc.i < |plans| ==> AckCounts(w.sides[w.pc.i], Offset(plans, w.pc.i)))
  }

  ghost predicate Enrolled(w: World, plans: seq<seq<IpConfig>>, all: seq<IpInfo>) {
    SamePlans(w, plans) && RegistryFits(w, plans, all) && IdsFit(w, plans)
  }

  // ------------------------------------------------------------------- steps

  lemma InitEnrolled(w: World)
    requires Init(w)
    ensures Enrolled(w, Plans(w), Attempts(w.naming, Plans(w), |w.sides|))
  {
    var all := Attempts(w.naming, Plans(w), |w.sides|);
    assert all[..0] == [];
  }

  /** A step that changes one side and leaves the registry. */
  lemma SideEnrolled(w: World, plans: seq<seq<IpConfig>>, all: seq<IpInfo>, c: nat, w': World)
    requires Enrolled(w, plans, all) && c < |plans| == |w'.sides| && w'.sides == w.sides[c := w'.sides[c]]
    requires w'.overlap == w.overlap && w'.reg == w.reg
    requires w'.sides[c].plan == plans[c] && Counts(w'.sides[c], Offset(plans, c))
    requires Reached(w', plans) == Reached(w, plans)
    requires w'.pc.Listing? ==> w'.pc == w.pc || w'.pc.i == c
    requires w'.pc == Listing(c) ==> AckCounts(w'.sides[c], Offset(plans, c))
    ensures Enrolled(w', plans, all)
  {
  }

  /** A client in its turn gets the id that is on its way. */
  lemma HearsId(s: Side, owner: nat, ips: seq<IpInfo>, offset: nat)
    requires InTurn(s, owner, ips) && s.down != [] && s.waiting && Counts(s, offset) && AckCounts(s, offset)
    ensures Counts(Heard(s), offset) && AckCounts(Heard(s), offset)
    ensures |Heard(s).ids| + Underway(Heard(s)) == |s.ids| + Underway(s)
  {
  }

  lemma HeardEnrolled(w: World, plans: seq<seq<IpConfig>>, all: seq<IpInfo>, c: nat)
    requires Enrolled(w, plans, all) && Enabled(w, Hear(c))
    requires Counts(Heard(w.sides[c]), Offset(plans, c))
    requires w.pc == Listing(c) ==>
               && AckCounts(Heard(w.sides[c]), Offset(plans, c))
               && |Heard(w.sides[c]).ids| + Underway(Heard(w.sides[c])) == |w.sides[c].ids| + Underway(w.sides[c])
    ensures Enrolled(Apply(w, Hear(c)), plans, all)
  {
    HeardKeepsNames(w.sides[c]);
    SideEnrolled(w, plans, all, c, SetSide(w, c, Heard(w.sides[c])));
  }

  lemma HearEnrolled(w: World, plans: seq<seq<IpConfig>>, all: seq<IpInfo>, c: nat)
    requires Enrolled(w, plans, all) && Enabled(w, Hear(c)) && SideOk(w, c) && !w.pc.Refusing?
    ensures Enrolled(Apply(w, Hear(c)), plans, all)
  {
    var s := w.sides[c];
    if w.pc == Listing(c) {
      HearsId(s, StoredId(w.naming, c), w.reg.ips, Offset(plans, c));
    } else {
      HearTold(s, w.infos, w.reg.ips, Written(w, c), w.pc.Serving?);
    }
    HeardEnrolled(w, plans, all, c);
  }

  /** A step of a client that reads nothing. */
  lemma ClientEnrolled(w: World, plans: seq<seq<IpConfig>>, all: seq<IpInfo>, a: Act)
    requires Enrolled(w, plans, all) && Enabled(w, a) && (a.Ask? || a.Talk?)
    ensures Enrolled(Apply(w, a), plans, all)
  {
    SideEnrolled(w, plans, all, a.c, Apply(w, a));
  }

  lemma ShakeEnrolled(w: World, plans: seq<seq<IpConfig>>, all: seq<IpInfo>)
    requires Enrolled(w, plans, all) && Enabled(w, Shake) && Fresh(w.sides[w.pc.i]) && w.sides[w.pc.i].up[0].SYSTEM_INFO?
    ensures Enrolled(Apply(w, Shake), plans, all)
  {
    SideEnrolled(w, plans, all, w.pc.i, Shaken(w, w.pc.i));
  }

  /** Messages of the lists and of the traffic. */
  lemma LateEnrolled(w: World, plans: seq<seq<IpConfig>>, all: seq<IpInfo>, a: Act)
    requires Enrolled(w, plans, all) && Enabled(w, a) && (a.Publish? || a.Deliver? || a.Collect?)
    ensures Enrolled(Apply(w, a), plans, all)
  {
    SideEnrolled(w, plans, all, if a.Publish? then w.pc.i else a.c, Apply(w, a));
  }

  lemma ReachedAfterTurn(w: World, plans: seq<seq<IpConfig>>, w': World)
    requires SamePlans(w, plans) && SamePlans(w', plans) && w.pc.Listing? && w.pc.i < |plans|
    requires w'.pc == NextClient(w, w.pc.i)
    requires |w.sides[w.pc.i].ids| == |plans[w.pc.i]| && w.sides[w.pc.i].down == []
    ensures Reached(w', plans) == Reached(w, plans)
  {
    assert Offset(plans, w.pc.i + 1) == Offset(plans, w.pc.i) + |plans[w.pc.i]|;
  }

  lemma TurnEnds(w: World, plans: seq<seq<IpConfig>>, all: seq<IpInfo>)
    requires Enrolled(w, plans, all) && Enabled(w, Enlist) && w.sides[w.pc.i].up[0].COMMIT?
    requires |w.sides[w.pc.i].ids| == |plans[w.pc.i]| && w.sides[w.pc.i].down == []
    ensures Enrolled(Apply(w, Enlist), plans, all)
  {
    var i, w' := w.pc.i, Enlisted(w, w.pc.i);
    ReachedAfterTurn(w, plans, w');
    SideEnrolled(w, plans, all, i, w');
  }

  /** One more registration. */
  lemma RegistryGrows(overlap: Variant, reg: Registry, attempts: seq<IpInfo>, n: nat)
    requires n < |attempts| && RegistryIs(overlap, reg, attempts[..n]) && reg.ipCount == |reg.ips|
    requires Accepts(overlap, reg.ips, attempts[n])
    ensures RegistryIs(overlap, Register(overlap, reg, attempts[n]), attempts[..n + 1])
  {
    assert attempts[..n + 1][..n] == attempts[..n];
    assert RegisterAll(overlap, attempts[..n + 1]) == Register(overlap, reg, attempts[n]);
    RegisterCounts(overlap, reg, attempts[n]);
  }

  /** What the router does with a registration that it accepts. */
  lemma AcceptedBlock(w: World, config: IpConfig)
    requires Enabled(w, Enlist) && w.sides[w.pc.i].up[0] == IP_INFO(config) && !Apply(w, Enlist).pc.Refusing?
    ensures var i, w', ip := w.pc.i, Apply(w, Enlist), IpInfoOf(config, StoredId(w.naming, w.pc.i));
            && Accepts(w.overlap, w.reg.ips, ip) && w'.reg == Register(w.overlap, w.reg, ip) && w'.overlap == w.overlap
            && w'.pc == w.pc && |w'.sides| == |w.sides| && w'.sides == w.sides[i := w'.sides[i]]
            && w'.sides[i] == w.sides[i].(up := w'.sides[i].up, down := w.sides[i].down + [IP_ACK(w.reg.ipCount)])
  {
  }

  /** The client's next registration is the next of all registrations. */
  lemma NextAttempt(w: World, plans: seq<seq<IpConfig>>, i: nat)
    requires SamePlans(w, plans) && w.pc == Listing(i) && i < |plans|
    requires Underway(w.sides[i]) == 0 && |w.sides[i].ids| < |plans[i]|
    ensures var all := Attempts(w.naming, plans, |plans|);
            && Reached(w, plans) < |all|
            && all[Reached(w, plans)] == IpInfoOf(Registration(plans[i][|w.sides[i].ids|]), StoredId(w.naming, i))
  {
    AttemptAt(w.naming, plans, |plans|, i, |w.sides[i].ids|);
  }

  lemma BlockEnrolled(w: World, plans: seq<seq<IpConfig>>, all: seq<IpInfo>, config: IpConfig)
    requires Enrolled(w, plans, all) && Enabled(w, Enlist) && w.reg.ipCount == |w.reg.ips|
    requires w.sides[w.pc.i].up[0] == IP_INFO(config) && w.sides[w.pc.i].down == []
    requires Reached(w, plans) < |all| && all[Reached(w, plans)] == IpInfoOf(config, StoredId(w.naming, w.pc.i))
    requires !Apply(w, Enlist).pc.Refusing?
    ensures Enrolled(Apply(w, Enlist), plans, all)
  {
    AcceptedBlock(w, config);
    BlockFits(w, plans, all, Apply(w, Enlist));
  }

  lemma BlockFits(w: World, plans: seq<seq<IpConfig>>, all: seq<IpInfo>, w': World)
    requires Enrolled(w, plans, all) && w.reg.ipCount == |w.reg.ips| && w.pc.Listing? && w.pc.i < |plans|
    requires w.sides[w.pc.i].down == [] && Reached(w, plans) < |all|
    requires var i, ip := w.pc.i, all[Reached(w, plans)];
             && Accepts(w.overlap, w.reg.ips, ip) && w'.reg == Register(w.overlap, w.reg, ip) && w'.overlap == w.overlap
             && w'.pc == w.pc && |w'.sides| == |w.sides| && w'.sides == w.sides[i := w'.sides[i]]
             && w'.sides[i] == w.sides[i].(up := w'.sides[i].up, down := w.sides[i].down + [IP_ACK(w.reg.ipCount)])
    ensures Enrolled(w', plans, all)
  {
    var i := w.pc.i;
    assert w'.sides[i].down == [IP_ACK(w.reg.ipCount)];
    AckGrows(w.sides[i], w'.sides[i], Offset(plans, i), w.reg.ipCount);
    assert Reached(w', plans) == Reached(w, plans) + 1;
    RegistryStep(w, plans, all, w');
    IdsStep(w, plans, i, w');
  }

  lemma AckGrows(s: Side, s': Side, offset: nat, id: nat)
    requires s.down == [] && s' == s.(up := s'.up, down := [IP_ACK(id)]) && id == offset + |s.ids|
    ensures Underway(s) == 0 && Underway(s') == 1 && AckCounts(s', offset)
  {
  }

  /** The next block is in the registry. */
  lemma RegistryStep(w: World, plans: seq<seq<IpConfig>>, all: seq<IpInfo>, w': World)
    requires SamePlans(w, plans) && SamePlans(w', plans) && RegistryFits(w, plans, all) && w.reg.ipCount == |w.reg.ips|
    requires w'.overlap == w.overlap && Reached(w', plans) == Reached(w, plans) + 1
    requires && Reached(w, plans) < |all| && Accepts(w.overlap, w.reg.ips, all[Reached(w, plans)])
             && w'.reg == Register(w.overlap, w.reg, all[Reached(w, plans)])
    ensures RegistryFits(w', plans, all)
  {
    RegistryGrows(w.overlap, w.reg, all, Reached(w, plans));
  }

  lemma IdsStep(w: World, plans: seq<seq<IpConfig>>, i: nat, w': World)
    requires SamePlans(w, plans) && SamePlans(w', plans) && IdsFit(w, plans) && w.pc == w'.pc == Listing(i) && i < |plans|
    requires forall c :: 0 <= c < |plans| ==> w'.sides[c].ids == w.sides[c].ids
    requires AckCounts(w'.sides[i], Offset(plans, i))
    ensures IdsFit(w', plans)
  {
  }

  lemma EnlistEnrolled(w: World, plans: seq<seq<IpConfig>>, all: seq<IpInfo>)
    requires |plans| == |w.sides| && all == Attempts(w.naming, plans, |plans|)
    requires WorldOk(w) && Enrolled(w, plans, all) && Enabled(w, Enlist) && !Apply(w, Enlist).pc.Refusing?
    ensures Enrolled(Apply(w, Enlist), plans, all)
  {
    assert SideOk(w, w.pc.i);
    if w.sides[w.pc.i].up[0].COMMIT? {
      TurnEnds(w, plans, all);
    } else {
      NextAttempt(w, plans, w.pc.i);
      BlockEnrolled(w, plans, all, w.sides[w.pc.i].up[0].ip);
    }
  }

  lemma ApplyEnrolled(w: World, plans: seq<seq<IpConfig>>, all: seq<IpInfo>, a: Act)
    requires |plans| == |w.sides| && all == Attempts(w.naming, plans, |plans|)
    requires WorldOk(w) && Enrolled(w, plans, all) && Enabled(w, a) && !w.pc.Refusing? && !Apply(w, a).pc.Refusing?
    ensures Enrolled(Apply(w, a), plans, all)
  {
    match a
    case Ask(_) => ClientEnrolled(w, plans, all, a);
    case Hear(c) =>
      assert SideOk(w, c);
      HearEnrolled(w, plans, all, c);
    case Talk(_, _) => ClientEnrolled(w, plans, all, a);
    case Shake =>
      assert SideOk(w, w.pc.i);
      ShakeEnrolled(w, plans, all);
    case Enlist => EnlistEnrolled(w, plans, all);
    case _ => LateEnrolled(w, plans, all, a);
  }

  lemma RefusingStays(w: World, a: Act)
    requires Enabled(w, a) && w.pc.Refusing?
    ensures Apply(w, a).pc.Refusing?
  {
  }

  lemma {:induction false} RunRefuses(w: World, acts: seq<Act>, w': World)
    requires w.pc.Refusing? && Run(w, acts, w')
    ensures w'.pc.Refusing?
    decreases |acts|
  {
    if acts != [] {
      RefusingStays(w, acts[0]);
      RunRefuses(Apply(w, acts[0]), acts[1..], w');
    }
  }

  lemma {:induction false} RunEnrolled(w: World, plans: seq<seq<IpConfig>>, all: seq<IpInfo>, acts: seq<Act>, w': World)
    requires |plans| == |w.sides| && all == Attempts(w.naming, plans, |plans|)
    requires WorldOk(w) && Enrolled(w, plans, all) && !w.pc.Refusing? && Run(w, acts, w') && !w'.pc.Refusing?
    ensures Enrolled(w', plans, all)
    decreases |acts|
  {
    if acts != [] {
      var w1 := Apply(w, acts[0]);
      if w1.pc.Refusing? {
        RunRefuses(w1, acts[1..], w');
      } else {
        ApplyOk(w, acts[0]);
        ApplyEnrolled(w, plans, all, acts[0]);
        ApplyKeepsClients(w, acts[0]);
        RunEnrolled(w1, plans, all, acts[1..], w');
      }
    }
  }

  // ---------------------------------------------------------------- theorems

  lemma EnrolledFromTheStart(w: World, acts: seq<Act>, w': World)
    requires Init(w) && Run(w, acts, w') && !w'.pc.Refusing?
    ensures Enrolled(w', Plans(w), Attempts(w.naming, Plans(w), |w.sides|)) && WorldOk(w') && SameClients(w, w')
  {
    InitOk(w);
    InitEnrolled(w);
    RunOk(w, acts, w');
    RunEnrolled(w, Plans(w), Attempts(w.naming, Plans(w), |w.sides|), acts, w');
  }

  lemma {:induction false} OffsetsApart(plans: seq<seq<IpConfig>>, b: nat, j: nat, c: nat, k: nat)
    requires b < |plans| && j < |plans[b]| && c < |plans| && k < |plans[c]|
    ensures Offset(plans, b) + j == Offset(plans, c) + k <==> b == c && j == k
  {
    if b < c {
      OffsetGrows(plans, b, c);
    } else if c < b {
      OffsetGrows(plans, c, b);
    }
  }

  /** In a run without a rejection, no two registrations, of one client or of two,
      have got the same id. */
  lemma IdsAreDistinct(w: World, acts: seq<Act>, w': World, b: nat, j: nat, c: nat, k: nat)
    requires Init(w) && Run(w, acts, w') && !w'.pc.Refusing?
    requires b < |w'.sides| && j < |w'.sides[b].ids| && c < |w'.sides| && k < |w'.sides[c].ids|
    ensures w'.sides[b].ids[j] == w'.sides[c].ids[k] <==> b == c && j == k
  {
    EnrolledFromTheStart(w, acts, w');
    assert SideOk(w', b) && SideOk(w', c);
    OffsetsApart(Plans(w), b, j, c, k);
  }

  /** When the router serves, its registry is what the clients' plans make of it, one
      client after the other; every registration has been accepted; and the ids of
      each client are the positions of its blocks. */
  lemma EverythingIsRegistered(w: World, acts: seq<Act>, w': World)
    requires Init(w) && Run(w, acts, w') && w'.pc.Serving?
    ensures SameClients(w, w')
    ensures RegistryIs(w.overlap, w'.reg, Attempts(w.naming, Plans(w), |w.sides|))
    ensures forall c :: 0 <= c < |w.sides| ==>
              |w'.sides[c].ids| == |w.sides[c].plan| && Counts(w'.sides[c], Offset(Plans(w), c))
  {
    EnrolledFromTheStart(w, acts, w');
    var all := Attempts(w.naming, Plans(w), |w.sides|);
    assert all[..|all|] == all;
    forall c | 0 <= c < |w'.sides| ensures |w'.sides[c].ids| == |w'.sides[c].plan| {
      assert SideOk(w', c);
    }
  }

  /** The entry is this block without its interrupts, under this id, marked with
      this client. */
  predicate EntersAs(config: IpConfig, e: IpInfo, id: nat, clientId: nat) {
    && e.name == config.name && e.address == config.address && e.size == config.size
    && e.typ == config.typ && e.impl == config.impl && e.firstInterrupt == 0 && e.numInterrupts == 0
    && e.id == id && e.clientId == clientId
  }

  lemma EntryIs(overlap: Variant, naming: Variant, reg: Registry, plans: seq<seq<IpConfig>>, c: nat, j: nat)
    requires RegistryIs(overlap, reg, Attempts(naming, plans, |plans|)) && c < |plans| && j < |plans[c]|
    ensures var i := Offset(plans, c) + j;
            && |reg.ips| == Offset(plans, |plans|) && i < |reg.ips|
            && EntersAs(plans[c][j], reg.ips[i], i, if naming == Repaired then c else 0)
  {
    var i := Offset(plans, c) + j;
    AttemptAt(naming, plans, |plans|, c, j);
    assert reg.ips[i] == Attempts(naming, plans, |plans|)[i].(id := i);
  }

  /** Field by field: the registry of a router that serves holds as many blocks as
      the clients have planned, and under the j-th id of client c the j-th block of
      its plan without interrupts, marked with the id that newClient left for c. */
  lemma RegisteredAsPlanned(w: World, acts: seq<Act>, w': World, c: nat, j: nat)
    requires Init(w) && Run(w, acts, w') && w'.pc.Serving? && c < |w.sides| && j < |w.sides[c].plan|
    ensures |w'.sides| == |w.sides| && j < |w'.sides[c].ids|
    ensures |w'.reg.ips| == Offset(Plans(w), |w.sides|) && w'.sides[c].ids[j] == Offset(Plans(w), c) + j < |w'.reg.ips|
    ensures EntersAs(w.sides[c].plan[j], w'.reg.ips[w'.sides[c].ids[j]], w'.sides[c].ids[j],
                     if w.naming == Repaired then c else 0)
  {
    EverythingIsRegistered(w, acts, w');
    EntryIs(w.overlap, w.naming, w'.reg, Plans(w), c, j);
    assert w'.sides[c].ids[j] == Offset(Plans(w), c) + j;
  }

  /** A client that has STARTED has been told each of these blocks, at the place
      that its id names. */
  lemma EveryBlockIsTold(w: World, acts: seq<Act>, w': World, b: nat, c: nat, j: nat)
    requires Init(w) && Run(w, acts, w') && w'.pc.Serving?
    requires b < |w'.sides| && w'.sides[b].cl.state == STARTED && c < |w.sides| && j < |w.sides[c].plan|
    ensures |w'.sides| == |w.sides| && j < |w'.sides[c].ids|
    ensures var i, blocks := w'.sides[c].ids[j], w'.sides[b].blocks;
            |blocks| == |w'.reg.ips| && i < |blocks| && SameButInterrupts(blocks[i], w.sides[c].plan[j])
  {
    RegisteredAsPlanned(w, acts, w', c, j);
    StartedKnowsAll(w, acts, w', b);
    ConfigsAt(w'.reg.ips, w'.sides[c].ids[j]);
  }
}
