/** Clean shutdown: when every master terminates once, after all its promises are
    set, DONE goes out when nothing else is left, and everything returns. */
module Shutdown {
  import opened Wire
  import opened AddressMap
  import opened FlatMemory
  import opened System
  import opened Refinement
  import opened Progress
  import FlowSafety

  // -------------------------------------------------- terminations on the way

  function Terms(m: nat, ms: seq<Msg>): nat {
    if ms == [] then 0 else Terms(m, ms[..|ms| - 1]) + if ms[|ms| - 1] == TERMINATE(m) then 1 else 0
  }

  lemma {:induction false} TermsConcat(m: nat, a: seq<Msg>, b: seq<Msg>)
    ensures Terms(m, a + b) == Terms(m, a) + Terms(m, b)
  {
    if b == [] {
      assert a + b == a;
    } else {
      var n := |b| - 1;
      assert (a + b)[..|a + b| - 1] == a + b[..n];
      TermsConcat(m, a, b[..n]);
    }
  }

  lemma TermsOne(m: nat, x: Msg)
    ensures Terms(m, [x]) == if x == TERMINATE(m) then 1 else 0
  {
    assert [x][..0] == [];
  }

  lemma TermsHead(m: nat, ms: seq<Msg>)
    requires ms != []
    ensures Terms(m, ms) == (if ms[0] == TERMINATE(m) then 1 else 0) + Terms(m, ms[1..])
  {
    assert ms == [ms[0]] + ms[1..];
    TermsConcat(m, [ms[0]], ms[1..]);
    TermsOne(m, ms[0]);
  }

  lemma {:induction false} TermsFinds(m: nat, ms: seq<Msg>, j: nat)
    requires j < |ms| && ms[j] == TERMINATE(m)
    ensures Terms(m, ms) > 0
  {
    if j < |ms| - 1 {
      TermsFinds(m, ms[..|ms| - 1], j);
    }
  }

  function ConnTerms(m: nat, k: Conn): nat {
    Terms(m, k.bridge.q.items) + Terms(m, k.bridge.writer) + Terms(m, k.up) + Terms(m, k.rx)
  }

  function AllTerms(m: nat, ks: seq<Conn>): nat {
    if ks == [] then 0 else AllTerms(m, ks[..|ks| - 1]) + ConnTerms(m, ks[|ks| - 1])
  }

  lemma {:induction false} AllTermsUpdate(m: nat, ks: seq<Conn>, c: nat, k: Conn)
    requires c < |ks|
    ensures AllTerms(m, ks[c := k]) + ConnTerms(m, ks[c]) == AllTerms(m, ks) + ConnTerms(m, k)
  {
    var n := |ks| - 1;
    if c == n {
      assert ks[c := k][..n] == ks[..n];
    } else {
      assert ks[c := k][..n] == ks[..n][c := k];
      AllTermsUpdate(m, ks[..n], c, k);
    }
  }

  lemma {:induction false} AllTermsContains(m: nat, ks: seq<Conn>, c: nat)
    requires c < |ks|
    ensures ConnTerms(m, ks[c]) <= AllTerms(m, ks)
  {
    var n := |ks| - 1;
    if c < n {
      AllTermsContains(m, ks[..n], c);
    }
  }

  lemma {:induction false} NoTerms(m: nat, ks: seq<Conn>)
    requires forall c :: 0 <= c < |ks| ==> ConnTerms(m, ks[c]) == 0
    ensures AllTerms(m, ks) == 0
  {
    if ks != [] {
      NoTerms(m, ks[..|ks| - 1]);
    }
  }

  lemma HopTerms(m: nat, k: Conn, capacity: nat, v: Variant, h: Hop)
    requires ConnShaped(k) && k.CanHop(capacity, h)
    ensures ConnTerms(m, k.AfterHop(capacity, v, h)) == ConnTerms(m, k)
  {
    TermsOne(m, DONE);
    match h
    case Notify =>
    case Spurious =>
    case Wake =>
    case Send => TermsConcat(m, k.up, k.bridge.writer);
    case Read => TermsHead(m, k.up); TermsOne(m, k.up[0]);
    case Write =>
    case Receive =>
  }

  lemma PopTerms(m: nat, k: Conn, v: Variant)
    requires ConnShaped(k) && k.bridge.q.consumer.Testing?
    ensures ConnTerms(m, k.(bridge := k.bridge.Popped(v))) == ConnTerms(m, k)
  {
    TermsOne(m, DONE);
    if k.bridge.q.items != [] {
      TermsHead(m, k.bridge.q.items);
      TermsOne(m, k.bridge.Popped(v).writer[0]);
    }
  }

  lemma HandleTerms(m: nat, k: Conn)
    requires k.bridge.reader.Handling?
    ensures ConnTerms(m, k.(bridge := k.bridge.Handled())) == ConnTerms(m, k)
  {
    var b' := k.bridge.Handled();
    if b'.q.items != k.bridge.q.items {
      TermsConcat(m, k.bridge.q.items, [b'.q.items[|k.bridge.q.items|]]);
      TermsOne(m, b'.q.items[|k.bridge.q.items|]);
    }
  }

  lemma PushTerms(m: nat, k: Conn, x: Msg)
    ensures ConnTerms(m, k.WithPush(x)) == ConnTerms(m, k) + if x == TERMINATE(m) then 1 else 0
  {
    TermsConcat(m, k.bridge.q.items, [x]);
    TermsOne(m, x);
  }

  lemma SetTerms(s: Session, c: nat, k: Conn, m: nat)
    requires c < |s.conns|
    ensures AllTerms(m, SetConn(s, c, k).conns) + ConnTerms(m, s.conns[c]) == AllTerms(m, s.conns) + ConnTerms(m, k)
  {
    AllTermsUpdate(m, s.conns, c, k);
  }

  lemma PushStepTerms(s: Session, c: nat, x: Msg, m: nat)
    requires c < |s.conns|
    ensures AllTerms(m, SetConn(s, c, s.conns[c].WithPush(x)).conns)
         == AllTerms(m, s.conns) + if x == TERMINATE(m) then 1 else 0
  {
    PushTerms(m, s.conns[c], x);
    SetTerms(s, c, s.conns[c].WithPush(x), m);
  }

  lemma TakeStepTerms(cfg: Config, s: Session, c: nat, m: nat)
    requires cfg.Valid() && Enabled(cfg, s, DoTake(c)) && |s.conns[c].rx| == 1
    ensures AllTerms(m, Apply(cfg, s, DoTake(c)).conns) + (if s.conns[c].rx[0] == TERMINATE(m) then 1 else 0)
         == AllTerms(m, s.conns)
  {
    var k := s.conns[c];
    assert k.rx == [k.rx[0]];
    TermsOne(m, k.rx[0]);
    SetTerms(s, c, k.(rx := []), m);
    assert Apply(cfg, s, DoTake(c)).conns == SetConn(s, c, k.(rx := [])).conns;
  }

  /** What a step does to the terminations on the way. */
  lemma StepTerms(cfg: Config, s: Session, a: Act, m: nat)
    requires cfg.Valid() && Shaped(s) && Enabled(cfg, s, a)
    ensures AllTerms(m, Apply(cfg, s, a).conns)
          + (if a.DoTake? && s.conns[a.c].rx[0] == TERMINATE(m) then 1 else 0)
         == AllTerms(m, s.conns) + if a == DoTerminate(m) then 1 else 0
  {
    match a
    case DoIssue(t) => PushStepTerms(s, cfg.holder[t.initiator], TRANSACTION(t), m);
    case DoTerminate(x) => PushStepTerms(s, cfg.holder[x], TERMINATE(x), m);
    case DoHop(c, h) =>
      assert ConnShaped(s.conns[c]);
      HopTerms(m, s.conns[c], cfg.capacity, cfg.pop, h);
      SetTerms(s, c, s.conns[c].AfterHop(cfg.capacity, cfg.pop, h), m);
    case DoPop(c) =>
      assert ConnShaped(s.conns[c]);
      PopTerms(m, s.conns[c], cfg.pop);
      SetTerms(s, c, s.conns[c].(bridge := s.conns[c].bridge.Popped(cfg.pop)), m);
    case DoTake(c) =>
      assert ConnShaped(s.conns[c]);
      TakeStepTerms(cfg, s, c, m);
    case DoGive => SetTerms(s, s.route.dest, s.conns[s.route.dest].(tx := [s.route.msg]), m);
    case DoSendDone => SetTerms(s, s.route.next, s.conns[s.route.next].(tx := [DONE]), m);
    case DoLeave =>
    case DoHandle(c) =>
      HandleTerms(m, s.conns[c]);
      SetTerms(s, c, s.conns[c].(bridge := s.conns[c].bridge.Handled()), m);
  }

  // -------------------------------------------------------- polite sessions

  function Masters(cfg: Config): set<nat> {
    set m | 0 <= m < |cfg.ips| && cfg.IsMaster(m)
  }

  lemma {:induction false} MastersCounted(ips: seq<IpInfo>)
    ensures |set m | 0 <= m < |ips| && ips[m].typ.IsMaster()| == MasterCount(ips)
  {
    if ips != [] {
      var n := |ips| - 1;
      MastersCounted(ips[..n]);
      var before := set m | 0 <= m < |ips[..n]| && ips[..n][m].typ.IsMaster();
      var all := set m | 0 <= m < |ips| && ips[m].typ.IsMaster();
      assert all == before + if ips[n].typ.IsMaster() then {n} else {};
    }
  }

  /** The router counts the masters that have not retired; DONE starts when the
      last one does; only an unrepaired router with several masters gives up. */
  ghost predicate Tallied(cfg: Config, s: Session)
    requires cfg.Valid()
  {
    && s.retired <= s.asked <= Masters(cfg)
    && (!s.route.Crashed? ==> s.masterCount == |Masters(cfg)| - |s.retired|)
    && (Routing(s) ==> s.retired != Masters(cfg) || Masters(cfg) == {})
    && (s.route.Finishing? || s.route.Exited? ==> s.retired == Masters(cfg))
    && (s.route.Crashed? ==> cfg.terminate.AsWritten? && |Masters(cfg)| >= 2)
  }

  /** Moreover, each termination that was asked for is on the way or has been
      counted, and a master that has asked has no open promise. */
  ghost predicate Counted(cfg: Config, s: Session)
    requires cfg.Valid()
  {
    && Tallied(cfg, s)
    && (forall m: nat :: AllTerms(m, s.conns) == if m in s.asked && m !in s.retired then 1 else 0)
    && (forall m: nat :: m in s.asked ==> AllSet(cfg, s, m))
  }

  lemma InitCounted(cfg: Config, s: Session)
    requires cfg.Valid() && InitSession(cfg, s)
    ensures Counted(cfg, s)
  {
    MastersCounted(cfg.ips);
    assert Masters(cfg) == set m | 0 <= m < |cfg.ips| && cfg.ips[m].typ.IsMaster();
    forall m: nat ensures AllTerms(m, s.conns) == 0 {
      forall c | 0 <= c < |s.conns| ensures ConnTerms(m, s.conns[c]) == 0 {
        assert InitConn(cfg, c, s.conns[c]);
      }
      NoTerms(m, s.conns);
    }
  }

  /** Promises, once set, stay set; a polite master that has asked issues nothing. */
  lemma StaysSet(cfg: Config, s: Session, a: Act, m: nat)
    requires cfg.Valid() && Safe(cfg, s) && Enabled(cfg, s, a) && Polite(cfg, s, a)
    requires AllSet(cfg, s, m) && m in s.asked
    ensures AllSet(cfg, Apply(cfg, s, a), m)
  {
    var s' := Apply(cfg, s, a);
    if m in s'.log.issued && m < |cfg.holder| && cfg.holder[m] < |s'.conns| {
      SameIssued(cfg, s, a, m);
      StepRefines(cfg, s, a);
      forall id: nat | id < |s'.log.issued[m]| ensures Key(m, id) in s'.conns[cfg.holder[m]].bridge.books.promises {
        FlowSafety.PromisesStay(cfg, FlowOf(s), FlowOf(s'), cfg.holder[m], Key(m, id));
      }
    }
  }

  lemma SameIssued(cfg: Config, s: Session, a: Act, m: nat)
    requires cfg.Valid() && Enabled(cfg, s, a) && !(a.DoIssue? && a.t.initiator == m)
    ensures var s' := Apply(cfg, s, a);
            |s'.conns| == |s.conns| && (m in s'.log.issued <==> m in s.log.issued)
            && (m in s.log.issued ==> s'.log.issued[m] == s.log.issued[m])
  {
  }

  /** A termination that route() takes has been asked for and not been counted. */
  lemma TakenTermIsOpen(cfg: Config, s: Session, c: nat, m: nat)
    requires cfg.Valid() && Counted(cfg, s) && Enabled(cfg, s, DoTake(c)) && s.conns[c].rx[0] == TERMINATE(m)
    ensures m in s.asked && m !in s.retired
  {
    TermsFinds(m, s.conns[c].rx, 0);
    AllTermsContains(m, s.conns, c);
  }

  lemma RetireOne(cfg: Config, retired: set<nat>, m: nat)
    requires retired <= Masters(cfg) && m in Masters(cfg) && m !in retired
    ensures |retired + {m}| == |retired| + 1 <= |Masters(cfg)|
    ensures |retired + {m}| == |Masters(cfg)| <==> retired + {m} == Masters(cfg)
  {
    var rest := Masters(cfg) - (retired + {m});
    assert Masters(cfg) == (retired + {m}) + rest;
  }

  lemma RetireStep(cfg: Config, s: Session, c: nat, m: nat)
    requires cfg.Valid() && Tallied(cfg, s) && Enabled(cfg, s, DoTake(c)) && s.conns[c].rx[0] == TERMINATE(m)
    requires m in s.asked && m !in s.retired
    ensures var s' := Apply(cfg, s, DoTake(c));
            && s'.retired == s.retired + {m} && s'.asked == s.asked && Tallied(cfg, s')
            && (s'.route == Finishing(0) <==> s'.retired == Masters(cfg))
            && (s'.route.Crashed? <==> cfg.terminate.AsWritten? && s'.retired != Masters(cfg))
  {
    RetireOne(cfg, s.retired, m);
  }

  /** A step that is not the end of a master leaves the counts alone. */
  lemma OtherStep(cfg: Config, s: Session, a: Act)
    requires cfg.Valid() && Enabled(cfg, s, a) && !a.DoTake?
    ensures var s' := Apply(cfg, s, a);
            && s'.retired == s.retired && s'.masterCount == s.masterCount
            && s'.asked == s.asked + (if a.DoTerminate? then {a.m} else {})
            && (a.DoTerminate? ==> a.m in Masters(cfg))
            && (Routing(s') <==> Routing(s)) && (s'.route.Crashed? <==> s.route.Crashed?)
  {
  }

  lemma TakeTransaction(cfg: Config, s: Session, c: nat)
    requires cfg.Valid() && Enabled(cfg, s, DoTake(c))
    requires s.conns[c].rx[0].TRANSACTION? && s.conns[c].rx[0].txn.initiator < |cfg.ips|
    ensures var s' := Apply(cfg, s, DoTake(c));
            s'.retired == s.retired && s'.masterCount == s.masterCount && s'.asked == s.asked && s'.route.Giving?
  {
  }

  /** What route() takes is a transaction of a known master or an open termination. */
  ghost predicate TakesWell(cfg: Config, s: Session, c: nat) {
    c < |s.conns| && s.conns[c].rx != [] &&
    match s.conns[c].rx[0]
    case TRANSACTION(t) => t.initiator < |cfg.ips|
    case TERMINATE(m) => m in s.asked && m !in s.retired
    case DONE => false
  }

  /** Nothing is counted: the tally stays. */
  lemma TallyStays(cfg: Config, s: Session, s': Session)
    requires cfg.Valid() && Tallied(cfg, s) && s'.retired == s.retired && s'.masterCount == s.masterCount
    requires s.asked <= s'.asked <= Masters(cfg)
    requires (Routing(s') <==> Routing(s)) && (s'.route.Crashed? <==> s.route.Crashed?)
    ensures Tallied(cfg, s')
  {
  }

  lemma OtherTallied(cfg: Config, s: Session, a: Act)
    requires cfg.Valid() && Tallied(cfg, s) && Enabled(cfg, s, a) && !a.DoTake?
    ensures var s' := Apply(cfg, s, a);
            Tallied(cfg, s') && s'.retired == s.retired && s'.asked == s.asked + if a.DoTerminate? then {a.m} else {}
  {
    OtherStep(cfg, s, a);
    TallyStays(cfg, s, Apply(cfg, s, a));
  }

  lemma TransactionTallied(cfg: Config, s: Session, c: nat)
    requires cfg.Valid() && Tallied(cfg, s) && Enabled(cfg, s, DoTake(c))
    requires s.conns[c].rx[0].TRANSACTION? && s.conns[c].rx[0].txn.initiator < |cfg.ips|
    ensures var s' := Apply(cfg, s, DoTake(c));
            Tallied(cfg, s') && s'.retired == s.retired && s'.asked == s.asked
  {
    TakeTransaction(cfg, s, c);
    TallyStays(cfg, s, Apply(cfg, s, DoTake(c)));
  }

  lemma StepTallied(cfg: Config, s: Session, a: Act)
    requires cfg.Valid() && Tallied(cfg, s) && Enabled(cfg, s, a) && (a.DoTake? ==> TakesWell(cfg, s, a.c))
    ensures Tallied(cfg, Apply(cfg, s, a))
    ensures Apply(cfg, s, a).asked == s.asked + if a.DoTerminate? then {a.m} else {}
    ensures Apply(cfg, s, a).retired == s.retired
              + if a.DoTake? && s.conns[a.c].rx[0].TERMINATE? then {s.conns[a.c].rx[0].ip} else {}
  {
    if !a.DoTake? {
      OtherTallied(cfg, s, a);
    } else if s.conns[a.c].rx[0].TERMINATE? {
      RetireStep(cfg, s, a.c, s.conns[a.c].rx[0].ip);
    } else {
      TransactionTallied(cfg, s, a.c);
    }
  }

  lemma HeadIsWell(cfg: Config, s: Session, c: nat)
    requires cfg.Valid() && Safe(cfg, s) && Counted(cfg, s) && Enabled(cfg, s, DoTake(c))
    ensures TakesWell(cfg, s, c)
  {
    assert ConnShaped(s.conns[c]);
    match s.conns[c].rx[0]
    case TRANSACTION(t) =>
      TakeLane(s.conns[c]);
      UpHeadIsKnown(cfg, FlowOf(s), c);
    case TERMINATE(m) =>
      TakenTermIsOpen(cfg, s, c, m);
    case DONE =>
  }

  lemma StepAllTerms(cfg: Config, s: Session, a: Act, m: nat)
    requires cfg.Valid() && Shaped(s) && Counted(cfg, s) && Enabled(cfg, s, a) && (a.DoTake? ==> TakesWell(cfg, s, a.c))
    requires a.DoTerminate? ==> a.m !in s.asked
    ensures AllTerms(m, Apply(cfg, s, a).conns)
         == if m in Apply(cfg, s, a).asked && m !in Apply(cfg, s, a).retired then 1 else 0
  {
    StepTerms(cfg, s, a, m);
    StepTallied(cfg, s, a);
    assert AllTerms(m, s.conns) == if m in s.asked && m !in s.retired then 1 else 0;
  }

  lemma StepAllSet(cfg: Config, s: Session, a: Act, m: nat)
    requires cfg.Valid() && Safe(cfg, s) && Enabled(cfg, s, a) && Polite(cfg, s, a)
    requires (m in s.asked && AllSet(cfg, s, m)) || a == DoTerminate(m)
    ensures AllSet(cfg, Apply(cfg, s, a), m)
  {
    if m in s.asked && AllSet(cfg, s, m) {
      StaysSet(cfg, s, a, m);
    } else {
      JustAsked(cfg, s, m);
    }
  }

  lemma ApplyCounted(cfg: Config, s: Session, a: Act)
    requires cfg.Valid() && Safe(cfg, s) && Counted(cfg, s) && Enabled(cfg, s, a) && Polite(cfg, s, a)
    ensures Counted(cfg, Apply(cfg, s, a))
  {
    var s' := Apply(cfg, s, a);
    if a.DoTake? {
      HeadIsWell(cfg, s, a.c);
    }
    StepTallied(cfg, s, a);
    forall m: nat ensures AllTerms(m, s'.conns) == if m in s'.asked && m !in s'.retired then 1 else 0 {
      StepAllTerms(cfg, s, a, m);
    }
    forall m: nat | m in s'.asked ensures AllSet(cfg, s', m) {
      StepAllSet(cfg, s, a, m);
    }
  }

  lemma JustAsked(cfg: Config, s: Session, m: nat)
    requires cfg.Valid() && Enabled(cfg, s, DoTerminate(m)) && AllSet(cfg, s, m)
    ensures AllSet(cfg, Apply(cfg, s, DoTerminate(m)), m)
  {
  }

  lemma {:induction false} PoliteRunKeeps(cfg: Config, s: Session, acts: seq<Act>, s': Session)
    requires cfg.Valid() && cfg.Routable() && Good(cfg, s) && Counted(cfg, s) && PoliteRun(cfg, s, acts, s')
    ensures Good(cfg, s') && Counted(cfg, s')
    decreases acts
  {
    if acts != [] {
      ApplyGood(cfg, s, acts[0]);
      ApplyCounted(cfg, s, acts[0]);
      PoliteRunKeeps(cfg, Apply(cfg, s, acts[0]), acts[1..], s');
    }
  }
}
