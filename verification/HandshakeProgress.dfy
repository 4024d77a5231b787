/** The composed handshake gets through: it never stops before everybody has
    started, and it cannot go on for ever. */
module HandshakeProgress {
  import opened Wire
  import opened AddressMap
  import opened RouterClient
  import opened Handshake
  import opened Phases
  import opened Enrolment

  /** A step of the handshake; the others are traffic. */
  predicate Pressing(w: World, a: Act) {
    a.Ask? || a.Shake? || a.Enlist? || a.Publish?
    || (a.Hear? && a.c < |w.sides| && w.sides[a.c].cl.state != STARTED)
  }

  predicate Started(s: Side) { s.cl.state in {STARTED, LOGGED_OUT} }

  // ---------------------------------------------------------------- no stop

  lemma ShakingStep(w: World)
    requires WorldOk(w) && w.pc.Shaking?
    ensures exists a :: Pressing(w, a) && Enabled(w, a)
  {
    assert SideOk(w, w.pc.i);
    var a := if w.sides[w.pc.i].waiting then Shake else Ask(w.pc.i);
    assert Pressing(w, a) && Enabled(w, a);
  }

  lemma ListingStep(w: World)
    requires WorldOk(w) && w.pc.Listing?
    ensures exists a :: Pressing(w, a) && Enabled(w, a)
  {
    assert SideOk(w, w.pc.i);
    var s := w.sides[w.pc.i];
    var a := if !s.waiting then Ask(w.pc.i) else if s.up != [] then Enlist else Hear(w.pc.i);
    assert Pressing(w, a) && Enabled(w, a);
  }

  lemma ServingStep(w: World, c: nat)
    requires WorldOk(w) && w.pc.Serving? && c < |w.sides| && !Started(w.sides[c])
    ensures Pressing(w, Hear(c)) && Enabled(w, Hear(c))
  {
    assert SideOk(w, c);
    ListAt(w.infos, w.reg.ips, 0);
  }

  /** Nothing is left to do for the handshake exactly when the router serves and
      every client has started. */
  lemma RestIsServing(w: World)
    requires WorldOk(w) && !w.pc.Refusing?
    ensures (forall a :: Pressing(w, a) ==> !Enabled(w, a))
            <==> w.pc.Serving? && forall c :: 0 <= c < |w.sides| ==> Started(w.sides[c])
  {
    match w.pc
    case Shaking(_) => ShakingStep(w);
    case Listing(_) => ListingStep(w);
    case Committing(_, _) => assert Pressing(w, Publish) && Enabled(w, Publish);
    case Serving =>
      forall c | 0 <= c < |w.sides| && !Started(w.sides[c]) ensures Pressing(w, Hear(c)) && Enabled(w, Hear(c)) {
        ServingStep(w, c);
      }
      forall c | 0 <= c < |w.sides| ensures !w.sides[c].lost && InPhase(w, c) {
        assert SideOk(w, c);
      }
  }

  // ------------------------------------------------------------- no going on

  /** What a client still has to do before the lists: three steps for SYSTEM_INFO,
      for each block and for COMMIT. */
  function Due(s: Side): int {
    var done := if !s.waiting then 0 else if s.up != [] then 1 else 2;
    if s.cl.state == DISCONNECTED then 3 * (|s.plan| - |s.ids| + 2) - done
    else if s.cl.state == CONNECTED && s.heard == 0 then 3 * (|s.plan| - |s.ids| + 1) - done
    else 0
  }

  /** That, and two steps for each message of the lists, of which there are at most
      len. */
  function Cost(w: World, c: nat, len: nat): int
    requires c < |w.sides|
  {
    Due(w.sides[c]) + 2 * len - Written(w, c) - w.sides[c].heard
  }

  function Costs(w: World, n: nat, len: nat): int
    requires n <= |w.sides|
  {
    if n == 0 then 0 else Costs(w, n - 1, len) + Cost(w, n - 1, len)
  }

  lemma {:induction false} CostsDrop(w: World, w': World, n: nat, len: nat, c: nat, drop: int)
    requires n <= |w.sides| == |w'.sides| && c < |w.sides|
    requires forall b :: 0 <= b < n && b != c ==> Cost(w', b, len) == Cost(w, b, len)
    requires Cost(w', c, len) + drop == Cost(w, c, len)
    ensures Costs(w', n, len) + (if c < n then drop else 0) == Costs(w, n, len)
  {
    if n > 0 {
      CostsDrop(w, w', n - 1, len, c, drop);
    }
  }

  lemma {:induction false} CostsStayUp(w: World, n: nat, len: nat)
    requires n <= |w.sides| && forall c :: 0 <= c < n ==> Cost(w, c, len) >= 0
    ensures Costs(w, n, len) >= 0
  {
    if n > 0 {
      CostsStayUp(w, n - 1, len);
    }
  }

  lemma CostIsNoLess(w: World, c: nat, len: nat)
    requires WorldOk(w) && !w.pc.Refusing? && c < |w.sides| && |List(w)| <= len
    ensures Cost(w, c, len) >= 0
  {
    assert SideOk(w, c);
  }

  lemma AskCosts(s: Side)
    requires s.cl.state in {DISCONNECTED, CONNECTED} && !s.waiting && s.heard == 0
    ensures Due(s.(up := s.up + Question(s), waiting := true)) + 1 == Due(s)
  {
  }

  lemma HearTurnCosts(s: Side, owner: nat, ips: seq<IpInfo>)
    requires InTurn(s, owner, ips) && !s.lost && s.down != [] && s.waiting
    ensures Due(Heard(s)) + 1 == Due(s) && Heard(s).heard == s.heard
  {
  }

  /** The first ACK of the lists also ends what was due before them. */
  lemma HearToldCosts(s: Side, infos: seq<SystemInfo>, ips: seq<IpInfo>, k: nat, serving: bool)
    requires Told(s, infos, ips, k, serving) && !s.lost && s.down != [] && s.cl.state != LOGGED_OUT
    requires s.heard == k ==> k == Length(infos, ips)
    ensures s.heard < k ==> Heard(s).heard == s.heard + 1 && Due(Heard(s)) + (if s.heard == 0 then 1 else 0) == Due(s)
    ensures s.heard == k ==> Heard(s).heard == s.heard && Due(Heard(s)) == Due(s) == 0
  {
    HearTold(s, infos, ips, k, serving);
    Popped(s.down, CommitMessages(infos, ips), s.heard, k);
    if s.heard < k {
      HearList(s, infos, ips);
    }
  }

  /** One side has changed, and at most its own place in the lists. */
  lemma SideCosts(w: World, w': World, len: nat, c: nat, drop: int)
    requires c < |w.sides| == |w'.sides| && forall b :: 0 <= b < |w.sides| && b != c ==> w'.sides[b] == w.sides[b]
    requires forall b :: 0 <= b < |w.sides| && b != c ==> Written(w', b) == Written(w, b)
    requires Cost(w', c, len) + drop == Cost(w, c, len)
    ensures Costs(w', |w'.sides|, len) + drop == Costs(w, |w.sides|, len)
  {
    CostsDrop(w, w', |w.sides|, len, c, drop);
  }

  function Total(w: World, len: nat): int { Costs(w, |w.sides|, len) }

  lemma AskLowers(w: World, c: nat, len: nat)
    requires WorldOk(w) && !w.pc.Refusing? && Enabled(w, Ask(c))
    ensures Total(Apply(w, Ask(c)), len) + 1 == Total(w, len)
  {
    assert SideOk(w, c);
    AskCosts(w.sides[c]);
    SideCosts(w, Apply(w, Ask(c)), len, c, 1);
  }

  lemma TalkLowersNothing(w: World, c: nat, m: Msg, len: nat)
    requires Enabled(w, Talk(c, m))
    ensures Total(Apply(w, Talk(c, m)), len) == Total(w, len)
  {
    SideCosts(w, Apply(w, Talk(c, m)), len, c, 0);
  }

  lemma HearLowers(w: World, c: nat, len: nat)
    requires WorldOk(w) && !w.pc.Refusing? && Enabled(w, Hear(c))
    ensures Total(Apply(w, Hear(c)), len) + (if Pressing(w, Hear(c)) then 1 else 0) <= Total(w, len)
  {
    assert SideOk(w, c);
    var s := w.sides[c];
    if w.pc == Listing(c) {
      HearTurnCosts(s, StoredId(w.naming, c), w.reg.ips);
    } else {
      HearToldCosts(s, w.infos, w.reg.ips, Written(w, c), w.pc.Serving?);
    }
    HearSideCosts(w, c, len);
  }

  lemma HearSideCosts(w: World, c: nat, len: nat)
    requires Enabled(w, Hear(c))
    ensures Total(Apply(w, Hear(c)), len) - Total(w, len)
         == Due(Heard(w.sides[c])) - Heard(w.sides[c]).heard - Due(w.sides[c]) + w.sides[c].heard
  {
    var s, s' := w.sides[c], Heard(w.sides[c]);
    SideCosts(w, SetSide(w, c, s'), len, c, Due(s) - s.heard - Due(s') + s'.heard);
  }

  lemma ShakeLowers(w: World, len: nat)
    requires WorldOk(w) && Enabled(w, Shake)
    ensures Total(Apply(w, Shake), len) + 1 == Total(w, len)
  {
    assert SideOk(w, w.pc.i);
    SideCosts(w, Apply(w, Shake), len, w.pc.i, 1);
  }

  lemma EnlistLowers(w: World, len: nat)
    requires WorldOk(w) && Enabled(w, Enlist) && !Apply(w, Enlist).pc.Refusing?
    ensures Total(Apply(w, Enlist), len) + 1 == Total(w, len)
  {
    assert SideOk(w, w.pc.i);
    SideCosts(w, Apply(w, Enlist), len, w.pc.i, 1);
  }

  lemma PublishLowers(w: World, len: nat)
    requires WorldOk(w) && Enabled(w, Publish)
    ensures Total(Apply(w, Publish), len) + 1 == Total(w, len)
  {
    var i, w' := w.pc.i, Apply(w, Publish);
    assert SideOk(w, i) && List(w') == List(w);
    assert Written(w', i) == Written(w, i) + 1;
    SideCosts(w, w', len, i, 1);
  }

  lemma TrafficLowersNothing(w: World, a: Act, len: nat)
    requires WorldOk(w) && Enabled(w, a) && (a.Deliver? || a.Collect?)
    ensures Total(Apply(w, a), len) == Total(w, len)
  {
    assert SideOk(w, a.c);
    var w' := Apply(w, a);
    if a.Collect? {
      assert w.sides[a.c].up[0] in w.sides[a.c].up;
    }
    SideCosts(w, w', len, a.c, 0);
  }

  /** Every step of the handshake lowers the total, and no other step raises it. */
  lemma ApplyCosts(w: World, a: Act, len: nat)
    requires WorldOk(w) && !w.pc.Refusing? && Enabled(w, a) && !Apply(w, a).pc.Refusing?
    ensures Total(Apply(w, a), len) + (if Pressing(w, a) then 1 else 0) <= Total(w, len)
  {
    match a
    case Ask(c) => AskLowers(w, c, len);
    case Hear(c) => HearLowers(w, c, len);
    case Talk(c, m) => TalkLowersNothing(w, c, m, len);
    case Shake => ShakeLowers(w, len);
    case Enlist => EnlistLowers(w, len);
    case Publish => PublishLowers(w, len);
    case _ => TrafficLowersNothing(w, a, len);
  }

  lemma TotalIsNoLess(w: World, len: nat)
    requires WorldOk(w) && !w.pc.Refusing? && |List(w)| <= len
    ensures Total(w, len) >= 0
  {
    forall c | 0 <= c < |w.sides| ensures Cost(w, c, len) >= 0 {
      CostIsNoLess(w, c, len);
    }
    CostsStayUp(w, |w.sides|, len);
  }

  // ------------------------------------------------------------------- bound

  /** How many of the steps are the handshake's. */
  ghost function Presses(w: World, acts: seq<Act>): nat
    decreases |acts|
  {
    if acts == [] || !Enabled(w, acts[0]) then 0
    else (if Pressing(w, acts[0]) then 1 else 0) + Presses(Apply(w, acts[0]), acts[1..])
  }

  lemma {:induction false} RunCosts(w: World, acts: seq<Act>, w': World, len: nat)
    requires WorldOk(w) && !w.pc.Refusing? && Run(w, acts, w') && !w'.pc.Refusing?
    ensures Presses(w, acts) + Total(w', len) <= Total(w, len)
    decreases |acts|
  {
    if acts != [] {
      var w1 := Apply(w, acts[0]);
      if w1.pc.Refusing? {
        RunRefuses(w1, acts[1..], w');
      } else {
        ApplyCosts(w, acts[0], len);
        ApplyOk(w, acts[0]);
        RunCosts(w1, acts[1..], w', len);
      }
    }
  }

  /** The lists never get longer than this. */
  function Longest(plans: seq<seq<IpConfig>>): nat { |plans| + Offset(plans, |plans|) + 3 }

  /** Three steps for each client's SYSTEM_INFO, blocks and COMMIT, and two for each
      message of the lists to it. */
  function Bound(plans: seq<seq<IpConfig>>, n: nat, len: nat): nat
    requires n <= |plans|
  {
    if n == 0 then 0 else Bound(plans, n - 1, len) + 3 * (|plans[n - 1]| + 2) + 2 * len
  }

  lemma {:induction false} InitTotal(w: World, n: nat, len: nat)
    requires Init(w) && n <= |w.sides|
    ensures Costs(w, n, len) == Bound(Plans(w), n, len)
  {
    if n > 0 {
      InitTotal(w, n - 1, len);
    }
  }

  lemma ListIsNoLonger(w: World, plans: seq<seq<IpConfig>>, all: seq<IpInfo>)
    requires RouterOk(w) && Enrolled(w, plans, all) && |all| == Offset(plans, |plans|)
    ensures |List(w)| <= Longest(plans)
  {
  }

  /** In every run without a rejection there is a bound on the steps of the handshake
      that the plans alone determine, however much traffic goes on beside it. */
  lemma HandshakeIsBounded(w: World, acts: seq<Act>, w': World)
    requires Init(w) && Run(w, acts, w') && !w'.pc.Refusing?
    ensures Presses(w, acts) <= Bound(Plans(w), |w.sides|, Longest(Plans(w)))
  {
    var plans := Plans(w);
    EnrolledFromTheStart(w, acts, w');
    InitOk(w);
    RunCosts(w, acts, w', Longest(plans));
    InitTotal(w, |w.sides|, Longest(plans));
    ListIsNoLonger(w', plans, Attempts(w.naming, plans, |plans|));
    TotalIsNoLess(w', Longest(plans));
  }

  // ------------------------------------------------------------ getting there

  predicate AcceptsAt(overlap: Variant, all: seq<IpInfo>, n: nat)
    requires n < |all|
  {
    Accepts(overlap, RegisterAll(overlap, all[..n]).ips, all[n])
  }

  /** The router accepts every one of these registrations, one after the other. */
  ghost predicate NoneRejected(overlap: Variant, all: seq<IpInfo>) {
    forall n :: 0 <= n < |all| ==> AcceptsAt(overlap, all, n)
  }

  lemma LastAccepted(overlap: Variant, all: seq<IpInfo>)
    requires all != []
    ensures NoneRejected(overlap, all)
      <==> NoneRejected(overlap, all[..|all| - 1]) && AcceptsAt(overlap, all, |all| - 1)
  {
    var before := all[..|all| - 1];
    forall n | 0 <= n < |before| ensures AcceptsAt(overlap, before, n) <==> AcceptsAt(overlap, all, n) {
      assert before[..n] == all[..n];
    }
  }

  lemma {:induction false} AcceptedCount(overlap: Variant, all: seq<IpInfo>)
    ensures |RegisterAll(overlap, all).ips| <= |all|
    ensures |RegisterAll(overlap, all).ips| == |all| <==> NoneRejected(overlap, all)
  {
    if all != [] {
      var m := |all| - 1;
      AcceptedCount(overlap, all[..m]);
      LastAccepted(overlap, all);
      assert RegisterAll(overlap, all) == Register(overlap, RegisterAll(overlap, all[..m]), all[m]);
    }
  }

  lemma NextIsAccepted(w: World, plans: seq<seq<IpConfig>>, all: seq<IpInfo>)
    requires Enrolled(w, plans, all) && NoneRejected(w.overlap, all) && Reached(w, plans) < |all|
    ensures Accepts(w.overlap, w.reg.ips, all[Reached(w, plans)])
  {
    assert AcceptsAt(w.overlap, all, Reached(w, plans));
  }

  lemma BlockIsAccepted(w: World, config: IpConfig)
    requires Enabled(w, Enlist) && w.sides[w.pc.i].up[0] == IP_INFO(config)
    requires Accepts(w.overlap, w.reg.ips, IpInfoOf(config, StoredId(w.naming, w.pc.i)))
    ensures !Apply(w, Enlist).pc.Refusing?
  {
  }

  /** Only a registration can be refused. */
  lemma OthersAreNotRefused(w: World, a: Act)
    requires !w.pc.Refusing? && Enabled(w, a)
    requires a.Enlist? ==> !w.sides[w.pc.i].up[0].IP_INFO?
    ensures !Apply(w, a).pc.Refusing?
  {
  }

  /** What the client in its turn has asked for next. */
  lemma QuestionOfTurn(s: Side, owner: nat, ips: seq<IpInfo>)
    requires InTurn(s, owner, ips) && s.up != [] && s.up[0].IP_INFO?
    ensures |s.ids| < |s.plan| && s.up[0].ip == Registration(s.plan[|s.ids|]) && Underway(s) == 0
  {
  }

  /** A registration that none of the others gets in the way of is accepted. */
  lemma NoRefusal(w: World, plans: seq<seq<IpConfig>>, all: seq<IpInfo>, a: Act)
    requires WorldOk(w) && !w.pc.Refusing? && Enabled(w, a) && Enrolled(w, plans, all)
    requires |plans| == |w.sides| && all == Attempts(w.naming, plans, |plans|) && NoneRejected(w.overlap, all)
    ensures !Apply(w, a).pc.Refusing?
  {
    if a.Enlist? && w.sides[w.pc.i].up[0].IP_INFO? {
      var i := w.pc.i;
      assert SideOk(w, i);
      QuestionOfTurn(w.sides[i], StoredId(w.naming, i), w.reg.ips);
      NextAttempt(w, plans, i);
      NextIsAccepted(w, plans, all);
      BlockIsAccepted(w, w.sides[i].up[0].ip);
    } else {
      OthersAreNotRefused(w, a);
    }
  }

  lemma PressingStep(w: World, plans: seq<seq<IpConfig>>, all: seq<IpInfo>) returns (a: Act)
    requires WorldOk(w) && !w.pc.Refusing? && Enrolled(w, plans, all)
    requires |plans| == |w.sides| && all == Attempts(w.naming, plans, |plans|) && NoneRejected(w.overlap, all)
    requires exists a :: Pressing(w, a) && Enabled(w, a)
    ensures Pressing(w, a) && Enabled(w, a)
    ensures var w' := Apply(w, a);
            && WorldOk(w') && !w'.pc.Refusing? && Enrolled(w', plans, all) && SameClients(w, w')
            && Total(w', Longest(plans)) < Total(w, Longest(plans))
  {
    a :| Pressing(w, a) && Enabled(w, a);
    NoRefusal(w, plans, all, a);
    ApplyOk(w, a);
    ApplyEnrolled(w, plans, all, a);
    ApplyKeepsClients(w, a);
    ApplyCosts(w, a, Longest(plans));
  }

  /** By its own steps the handshake comes to where everybody has started. */
  lemma {:induction false} PressesOn(w: World, plans: seq<seq<IpConfig>>, all: seq<IpInfo>)
      returns (acts: seq<Act>, w': World)
    requires WorldOk(w) && !w.pc.Refusing? && Enrolled(w, plans, all)
    requires |plans| == |w.sides| && all == Attempts(w.naming, plans, |plans|) && NoneRejected(w.overlap, all)
    ensures Run(w, acts, w') && w'.pc.Serving? && forall c :: 0 <= c < |w'.sides| ==> Started(w'.sides[c])
    decreases Total(w, Longest(plans))
  {
    ListIsNoLonger(w, plans, all);
    TotalIsNoLess(w, Longest(plans));
    if forall a :: Pressing(w, a) ==> !Enabled(w, a) {
      RestIsServing(w);
      acts, w' := [], w;
    } else {
      var a := PressingStep(w, plans, all);
      var rest, end := PressesOn(Apply(w, a), plans, all);
      acts, w' := [a] + rest, end;
      assert acts[1..] == rest;
    }
  }

  ghost predicate CanServe(w: World) {
    exists acts: seq<Act>, w': World :: Run(w, acts, w') && w'.pc.Serving?
  }

  /** The handshake can get through exactly when no registration is rejected; and
      then it gets to where every client has started. */
  lemma ServesExactlyWhen(w: World)
    requires Init(w)
    ensures CanServe(w) <==> NoneRejected(w.overlap, Attempts(w.naming, Plans(w), |w.sides|))
  {
    var all := Attempts(w.naming, Plans(w), |w.sides|);
    if CanServe(w) {
      var acts: seq<Act>, w': World :| Run(w, acts, w') && w'.pc.Serving?;
      EverythingIsRegistered(w, acts, w');
      AcceptedCount(w.overlap, all);
    }
    if NoneRejected(w.overlap, all) {
      InitOk(w);
      InitEnrolled(w);
      var acts, w' := PressesOn(w, Plans(w), all);
    }
  }
}
