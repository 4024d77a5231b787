/** The composed handshake: the router serves its clients one after the other,
    then writes the lists to each, while the clients run at their own pace and the
    first ones already send traffic. */
module Phases {
  import opened Wire
  import opened AddressMap
  import opened RouterClient
  import opened Handshake

  /** One client and its connection.
      me, plan, ids  its description; the blocks that it registers, and the ids
                     that it has got for the first of them
      cl, waiting    the client state; a call has sent its message and waits
      peers, blocks  the lists as read so far; heard counts those messages
      lost           a call has ended in an error
      up, down       the two directions of the socket */
  datatype Side = Side(
    me: SystemInfo,
    plan: seq<IpConfig>,
    ids: seq<nat>,
    cl: Client,
    waiting: bool,
    peers: seq<SystemInfo>,
    blocks: seq<IpConfig>,
    heard: nat,
    lost: bool,
    up: seq<Packet>,
    down: seq<Packet>)

  /** Run: in shakeHands with client i; in the registration loop with it; writing
      the k-th message of commit to it; with the goroutines started; ended by the
      rejected registration of client i; ended by an unexpected message. */
  datatype RouterPc = Shaking(i: nat) | Listing(i: nat) | Committing(i: nat, k: nat) | Serving | Refusing(i: nat) | Broken

  /** overlap, naming  which overlap test the router makes; whether newClient stores
                       the id
      host             the router's description of itself
      guest, infos     the description of the client at hand, and those of the
                       finished ones
      reg              the registry */
  datatype World = World(
    overlap: Variant,
    naming: Variant,
    host: SystemInfo,
    sides: seq<Side>,
    pc: RouterPc,
    guest: SystemInfo,
    infos: seq<SystemInfo>,
    reg: Registry)

  function List(w: World): seq<Packet> { CommitMessages(w.infos, w.reg.ips) }

  /** The client's next call, or the one that waits, with what it reads. */
  function CallOf(s: Side, reply: Reading): Call {
    match s.cl.state
    case DISCONNECTED => Call.Connect("unix:///tmp/sw-axi", s.me, true, true, true, reply)
    case CONNECTED =>
      if |s.ids| < |s.plan| then Call.RegisterIp(s.plan[|s.ids|], true, reply) else Call.CommitIp(true, reply)
    case COMMITTED => Call.RetrievePeerInfo(reply)
    case PEER_INFO_RECEIVED => Call.RetrieveIpConfig(reply)
    case _ => Call.ReceiveTransaction(reply)
  }

  /** The last message that a client has sent. */
  function LastSent(c: Client): seq<Packet> {
    if c.sent == [] then [] else [c.sent[|c.sent| - 1]]
  }

  /** What the client's next call puts on the socket before it waits. */
  function Question(s: Side): seq<Packet> { LastSent(After(s.cl, CallOf(s, Breaks)).0) }

  /** The client reads a message. */
  function Heard(s: Side): Side {
    var (c, r) := After(s.cl, CallOf(s, Next(s.down)));
    var s1 := s.(cl := c, down := Tail(s.down), waiting := false);
    match r {
      case Info(si) => if s.cl.state == COMMITTED then s1.(peers := s.peers + [si], heard := s.heard + 1) else s1
      case Id(id) => s1.(ids := s.ids + [id])
      case Config(ip) => s1.(blocks := s.blocks + [ip], heard := s.heard + 1)
      case Ok => s1.(heard := s.heard + 1)
      case NoMore => s1.(heard := s.heard + 1)
      case Transaction(_) => s1
      case Finished => s1
      case _ => s1.(lost := true)
    }
  }

  /** The client sends a message of the traffic. */
  function Talked(s: Side, m: Msg): Side {
    var c := After(s.cl, Sending(m, true)).0;
    s.(cl := c, up := s.up + LastSent(c))
  }

  /** The first three steps are a client's, the others the router's.  Deliver and
      Collect stand for the goroutines, which are started last. */
  datatype Act =
    | Ask(c: nat) | Hear(c: nat) | Talk(c: nat, m: Msg)
    | Shake | Enlist | Publish | Deliver(c: nat, m: Msg) | Collect(c: nat)

  predicate Enabled(w: World, a: Act) {
    match a
    case Ask(c) =>
      c < |w.sides| && !w.sides[c].lost && !w.sides[c].waiting && w.sides[c].cl.state in {DISCONNECTED, CONNECTED}
    case Hear(c) =>
      c < |w.sides| && !w.sides[c].lost && w.sides[c].down != []
      && (w.sides[c].waiting || w.sides[c].cl.state in {COMMITTED, PEER_INFO_RECEIVED, STARTED})
    case Talk(c, m) => c < |w.sides| && !w.sides[c].lost && w.sides[c].cl.state == STARTED
    case Shake => w.pc.Shaking? && w.pc.i < |w.sides| && w.sides[w.pc.i].up != []
    case Enlist => w.pc.Listing? && w.pc.i < |w.sides| && w.sides[w.pc.i].up != []
    case Publish => w.pc.Committing? && w.pc.i < |w.sides| && w.pc.k < |List(w)|
    case Deliver(c, m) => w.pc.Serving? && c < |w.sides| && !m.TERMINATE?
    case Collect(c) => w.pc.Serving? && c < |w.sides| && w.sides[c].up != []
  }

  function SetSide(w: World, c: nat, s: Side): World
    requires c < |w.sides|
  {
    w.(sides := w.sides[c := s])
  }

  /** After COMMIT the router turns to the next client, or to the lists. */
  function NextClient(w: World, i: nat): RouterPc {
    if i + 1 < |w.sides| then Shaking(i + 1) else Committing(0, 0)
  }

  /** After a message of the lists. */
  function NextMessage(w: World, i: nat, k: nat): RouterPc {
    if k + 1 < |List(w)| then Committing(i, k + 1)
    else if i + 1 < |w.sides| then Committing(i + 1, 0)
    else Serving
  }

  /** shakeHands. */
  function Shaken(w: World, i: nat): World
    requires i < |w.sides| && w.sides[i].up != []
  {
    var s := w.sides[i];
    if s.up[0].SYSTEM_INFO? then
      SetSide(w, i, s.(up := s.up[1..], down := s.down + [SYSTEM_INFO(w.host)])).(pc := Listing(i), guest := s.up[0].si)
    else w.(pc := Broken)
  }

  /** One round of the registration loop. */
  function Enlisted(w: World, i: nat): World
    requires i < |w.sides| && w.sides[i].up != []
  {
    var s := w.sides[i];
    match s.up[0]
    case COMMIT => SetSide(w, i, s.(up := s.up[1..])).(infos := w.infos + [w.guest], pc := NextClient(w, i))
    case IP_INFO(config) =>
      var ip := IpInfoOf(config, StoredId(w.naming, i));
      if Accepts(w.overlap, w.reg.ips, ip) then
        SetSide(w, i, s.(up := s.up[1..], down := s.down + [IP_ACK(w.reg.ipCount)])).(reg := Register(w.overlap, w.reg, ip))
      else
        SetSide(w, i, s.(up := s.up[1..], down := s.down + [ERROR("overlap")]))
          .(reg := Register(w.overlap, w.reg, ip), pc := Refusing(i))
    case _ => w.(pc := Broken)
  }

  function Apply(w: World, a: Act): World
    requires Enabled(w, a)
  {
    match a
    case Ask(c) => SetSide(w, c, w.sides[c].(up := w.sides[c].up + Question(w.sides[c]), waiting := true))
    case Hear(c) => SetSide(w, c, Heard(w.sides[c]))
    case Talk(c, m) => SetSide(w, c, Talked(w.sides[c], m))
    case Shake => Shaken(w, w.pc.i)
    case Enlist => Enlisted(w, w.pc.i)
    case Publish =>
      var i, k, s := w.pc.i, w.pc.k, w.sides[w.pc.i];
      SetSide(w, i, s.(down := s.down + [List(w)[k]])).(pc := NextMessage(w, i, k))
    case Deliver(c, m) => SetSide(w, c, w.sides[c].(down := w.sides[c].down + [TRAFFIC(m)]))
    case Collect(c) =>
      var s := w.sides[c];
      if s.up[0].TRAFFIC? then SetSide(w, c, s.(up := s.up[1..])) else w.(pc := Broken)
  }

  ghost predicate Init(w: World) {
    && w.sides != [] && w.pc == Shaking(0) && w.infos == [] && w.reg == EMPTY
    && forall c :: 0 <= c < |w.sides| ==>
         w.sides[c] == Side(w.sides[c].me, w.sides[c].plan, [], FRESH, false, [], [], 0, false, [], [])
  }

  ghost predicate Run(w: World, acts: seq<Act>, w': World)
    decreases acts
  {
    if acts == [] then w' == w
    else Enabled(w, acts[0]) && Run(Apply(w, acts[0]), acts[1..], w')
  }

  // ---------------------------------------------------------------- invariant

  /** The router forwards transactions and ends with DONE. */
  predicate FromRouter(p: Packet) { p.TRAFFIC? && !p.msg.TERMINATE? }

  ghost predicate AllTraffic(ps: seq<Packet>) { forall p :: p in ps ==> p.TRAFFIC? }

  predicate Unheard(s: Side) { s.peers == [] && s.blocks == [] && s.heard == 0 }

  /** Before its turn. */
  predicate Fresh(s: Side) {
    s.cl == FRESH && Unheard(s) && s.ids == [] && s.down == [] && s.up == if s.waiting then [SYSTEM_INFO(s.me)] else []
  }

  /** The router's entry `id` is the block `config`, under the client id `owner`. */
  predicate Named(ips: seq<IpInfo>, owner: nat, config: IpConfig, id: nat) {
    id < |ips| && ips[id] == IpInfoOf(Registration(config), owner).(id := id)
  }

  /** A question of its turn is under way, or the answer to it. */
  predicate Answering(s: Side, owner: nat, ips: seq<IpInfo>)
    requires |s.ids| < |s.plan|
  {
    || (s.up == [IP_INFO(Registration(s.plan[|s.ids|]))] && s.down == [])
    || (s.up == [] && |s.down| == 1 && s.down[0].IP_ACK? && Named(ips, owner, s.plan[|s.ids|], s.down[0].id))
  }

  /** In its turn. */
  predicate InTurn(s: Side, owner: nat, ips: seq<IpInfo>) {
    && Unheard(s) && |s.ids| <= |s.plan|
    && match s.cl.state
       case DISCONNECTED =>
         s.cl == FRESH && s.waiting && s.up == [] && |s.down| == 1 && s.down[0].SYSTEM_INFO? && s.ids == []
       case CONNECTED =>
         && s.cl.open
         && if !s.waiting then s.up == [] && s.down == []
         else if |s.ids| == |s.plan| then s.up == [COMMIT] && s.down == []
         else Answering(s, owner, ips)
       case _ => false
  }

  /** Its turn has ended with a rejection. */
  predicate Refused(s: Side) {
    && Unheard(s) && s.up == []
    && if s.lost then s.cl.state == DISCONNECTED && s.down == []
       else s.cl.state == CONNECTED && s.cl.open && s.waiting && |s.ids| < |s.plan| && |s.down| == 1 && s.down[0].ERROR?
  }

  /** After its turn, with the lists to come. */
  predicate Over(s: Side) {
    Unheard(s) && s.cl.state == CONNECTED && s.waiting && |s.ids| == |s.plan| && s.up == [] && s.down == []
  }

  /** A socket through which k messages of the list have been sent and the first
      `heard` of them read: the others are in it, then comes traffic only. */
  ghost predicate Pending(down: seq<Packet>, list: seq<Packet>, heard: nat, k: nat) {
    && heard <= k <= |list| && k - heard <= |down|
    && forall j :: 0 <= j < |down| ==> if heard + j < k then down[j] == list[heard + j] else FromRouter(down[j])
  }

  function Clip(n: int, most: nat): (r: nat)
    ensures r <= most
  {
    if n < 0 then 0 else if n > most then most else n
  }

  /** What the client has made of the messages that it has heard. */
  predicate Learnt(s: Side, infos: seq<SystemInfo>, ips: seq<IpInfo>) {
    && s.heard <= Length(infos, ips) && |s.ids| == |s.plan|
    && s.waiting == (s.heard == 0)
    && s.peers == infos[..Clip(s.heard - 1, |infos|)]
    && s.blocks == Configs(ips)[..Clip(s.heard - |infos| - 2, |ips|)]
    && (if s.heard == 0 then s.cl.state == CONNECTED
        else if s.heard < |infos| + 2 then s.cl.state == COMMITTED
        else if s.heard < Length(infos, ips) then s.cl.state == PEER_INFO_RECEIVED
        else s.cl.state in {STARTED, LOGGED_OUT})
  }

  /** While the lists are sent: k messages have been written to this client. */
  ghost predicate Told(s: Side, infos: seq<SystemInfo>, ips: seq<IpInfo>, k: nat, serving: bool) {
    && Learnt(s, infos, ips) && Pending(s.down, CommitMessages(infos, ips), s.heard, k)
    && (!serving ==> |s.down| == k - s.heard)
    && AllTraffic(s.up) && (s.heard < Length(infos, ips) ==> s.up == [])
  }

  /** The messages of the lists that have been written to client c. */
  function Written(w: World, c: nat): nat {
    match w.pc
    case Committing(i, k) => if c < i then |List(w)| else if c == i then k else 0
    case Serving => |List(w)|
    case _ => 0
  }

  ghost predicate InPhase(w: World, c: nat)
    requires c < |w.sides|
  {
    var s := w.sides[c];
    match w.pc
    case Shaking(i) => if c >= i then Fresh(s) else Over(s)
    case Listing(i) => if c > i then Fresh(s) else if c == i then InTurn(s, StoredId(w.naming, c), w.reg.ips) else Over(s)
    case Committing(_, _) => Told(s, w.infos, w.reg.ips, Written(w, c), false)
    case Serving => Told(s, w.infos, w.reg.ips, Written(w, c), true)
    case Refusing(i) => if c > i then Fresh(s) else if c == i then Refused(s) else Over(s)
    case Broken => false
  }

  /** What a client reads first is the router's description of itself. */
  predicate Greeted(s: Side, host: SystemInfo) {
    s.cl.state == DISCONNECTED && s.down != [] ==> s.down[0] == SYSTEM_INFO(host)
  }

  /** Every id that the client holds names its own block. */
  ghost predicate HoldsIds(s: Side, owner: nat, ips: seq<IpInfo>) {
    |s.ids| <= |s.plan| && forall j :: 0 <= j < |s.ids| ==> Named(ips, owner, s.plan[j], s.ids[j])
  }

  ghost predicate SideOk(w: World, c: nat)
    requires c < |w.sides|
  {
    && (w.sides[c].lost ==> w.pc == Refusing(c)) && InPhase(w, c) && Greeted(w.sides[c], w.host)
    && HoldsIds(w.sides[c], StoredId(w.naming, c), w.reg.ips)
  }

  ghost predicate Describes(infos: seq<SystemInfo>, sides: seq<Side>) {
    |infos| <= |sides| && forall c :: 0 <= c < |infos| ==> infos[c] == sides[c].me
  }

  /** What the router has gathered. */
  ghost predicate RouterOk(w: World) {
    && Describes(w.infos, w.sides) && Consistent(w.reg)
    && match w.pc
       case Shaking(i) => i < |w.sides| && |w.infos| == i
       case Listing(i) => i < |w.sides| && |w.infos| == i && w.guest == w.sides[i].me
       case Committing(i, k) => i < |w.sides| && k < |List(w)| && |w.infos| == |w.sides|
       case Serving => |w.infos| == |w.sides|
       case Refusing(i) => i < |w.sides|
       case Broken => false
  }

  ghost predicate WorldOk(w: World) {
    RouterOk(w) && forall c :: 0 <= c < |w.sides| ==> SideOk(w, c)
  }

  lemma InitOk(w: World)
    requires Init(w)
    ensures WorldOk(w)
  {
  }

  // ------------------------------------------------------------- client steps

  lemma Popped(down: seq<Packet>, list: seq<Packet>, heard: nat, k: nat)
    requires Pending(down, list, heard, k) && down != []
    ensures heard < k ==> down[0] == list[heard] && Pending(down[1..], list, heard + 1, k)
    ensures heard == k ==> FromRouter(down[0]) && Pending(down[1..], list, heard, k)
  {
  }

  /** The client has heard one message more, and nothing else has changed. */
  predicate HeardOne(s: Side, s': Side) {
    s.down != [] && !s'.lost
    && s' == s.(cl := s'.cl, waiting := false, peers := s'.peers, blocks := s'.blocks,
                heard := s.heard + 1, down := s.down[1..])
  }

  lemma HearPeer(s: Side, infos: seq<SystemInfo>, ips: seq<IpInfo>)
    requires Learnt(s, infos, ips) && 0 < s.heard <= |infos| && !s.lost
    requires s.down != [] && s.down[0] == SYSTEM_INFO(infos[s.heard - 1])
    ensures Learnt(Heard(s), infos, ips) && HeardOne(s, Heard(s))
  {
    assert infos[..s.heard - 1] + [infos[s.heard - 1]] == infos[..s.heard];
  }

  lemma HearBlock(s: Side, infos: seq<SystemInfo>, ips: seq<IpInfo>)
    requires Learnt(s, infos, ips) && |infos| + 1 < s.heard < |infos| + |ips| + 2 && !s.lost
    requires s.down != [] && s.down[0] == IP_INFO(ConfigOf(ips[s.heard - |infos| - 2]))
    ensures Learnt(Heard(s), infos, ips) && HeardOne(s, Heard(s))
  {
    var b := s.heard - |infos| - 2;
    ConfigsAt(ips, b);
    assert Configs(ips)[..b] + [Configs(ips)[b]] == Configs(ips)[..b + 1];
  }

  lemma HearAck(s: Side, infos: seq<SystemInfo>, ips: seq<IpInfo>)
    requires Learnt(s, infos, ips) && s.heard in {0, |infos| + 1, |infos| + |ips| + 2} && !s.lost
    requires s.down != [] && s.down[0] == ACK
    ensures Learnt(Heard(s), infos, ips) && HeardOne(s, Heard(s))
  {
  }

  /** The client hears a message of the lists. */
  lemma HearList(s: Side, infos: seq<SystemInfo>, ips: seq<IpInfo>)
    requires Learnt(s, infos, ips) && s.heard < Length(infos, ips) && !s.lost
    requires s.down != [] && s.down[0] == CommitMessages(infos, ips)[s.heard]
    ensures Learnt(Heard(s), infos, ips) && HeardOne(s, Heard(s))
  {
    ListAt(infos, ips, s.heard);
    if s.heard in {0, |infos| + 1, |infos| + |ips| + 2} {
      HearAck(s, infos, ips);
    } else if s.heard <= |infos| {
      HearPeer(s, infos, ips);
    } else {
      HearBlock(s, infos, ips);
    }
  }

  lemma HearTold(s: Side, infos: seq<SystemInfo>, ips: seq<IpInfo>, k: nat, serving: bool)
    requires Told(s, infos, ips, k, serving) && !s.lost && s.down != [] && s.cl.state != LOGGED_OUT
    requires s.heard == k ==> k == Length(infos, ips)
    ensures Told(Heard(s), infos, ips, k, serving) && !Heard(s).lost && Heard(s).ids == s.ids
  {
    Popped(s.down, CommitMessages(infos, ips), s.heard, k);
    if s.heard < k {
      HearList(s, infos, ips);
    }
  }

  lemma HearInTurn(s: Side, owner: nat, ips: seq<IpInfo>)
    requires InTurn(s, owner, ips) && HoldsIds(s, owner, ips) && !s.lost && s.down != [] && s.waiting
    ensures InTurn(Heard(s), owner, ips) && HoldsIds(Heard(s), owner, ips) && !Heard(s).lost
  {
  }

  /** One side changes, and its phase does not. */
  lemma OneSide(w: World, c: nat, s: Side)
    requires WorldOk(w) && c < |w.sides| && s.me == w.sides[c].me
    requires SideOk(SetSide(w, c, s), c)
    ensures WorldOk(SetSide(w, c, s))
  {
    var w' := SetSide(w, c, s);
    forall b | 0 <= b < |w'.sides| ensures SideOk(w', b) {
      assert SideOk(w, b);
    }
  }

  lemma AskOk(w: World, c: nat)
    requires c < |w.sides| && SideOk(w, c) && Enabled(w, Ask(c))
    ensures SideOk(Apply(w, Ask(c)), c)
  {
  }

  lemma HearOk(w: World, c: nat)
    requires c < |w.sides| && SideOk(w, c) && Enabled(w, Hear(c))
    ensures SideOk(SetSide(w, c, Heard(w.sides[c])), c)
  {
    var s, owner := w.sides[c], StoredId(w.naming, c);
    if w.pc.Listing? && c == w.pc.i {
      HearInTurn(s, owner, w.reg.ips);
    } else if w.pc.Committing? || w.pc.Serving? {
      HearListsOk(w, c);
    }
  }

  lemma HearListsOk(w: World, c: nat)
    requires c < |w.sides| && SideOk(w, c) && Enabled(w, Hear(c)) && (w.pc.Committing? || w.pc.Serving?)
    ensures SideOk(SetSide(w, c, Heard(w.sides[c])), c)
  {
    var s, k := w.sides[c], Written(w, c);
    HearTold(s, w.infos, w.reg.ips, k, w.pc.Serving?);
    assert Written(SetSide(w, c, Heard(s)), c) == k;
    HeardKeepsNames(s);
  }

  lemma TalkOk(w: World, c: nat, m: Msg)
    requires c < |w.sides| && SideOk(w, c) && Enabled(w, Talk(c, m))
    ensures SideOk(SetSide(w, c, Talked(w.sides[c], m)), c)
  {
  }

  lemma HeardKeepsNames(s: Side)
    ensures Heard(s).me == s.me && Heard(s).plan == s.plan
  {
  }

  lemma ClientOk(w: World, a: Act)
    requires WorldOk(w) && Enabled(w, a) && (a.Ask? || a.Hear? || a.Talk?)
    ensures WorldOk(Apply(w, a))
  {
    assert SideOk(w, a.c);
    match a
    case Ask(c) =>
      AskOk(w, c);
      OneSide(w, c, w.sides[c].(up := w.sides[c].up + Question(w.sides[c]), waiting := true));
    case Hear(c) =>
      HearOk(w, c);
      HeardKeepsNames(w.sides[c]);
      OneSide(w, c, Heard(w.sides[c]));
    case Talk(c, m) =>
      TalkOk(w, c, m);
      OneSide(w, c, Talked(w.sides[c], m));
  }

  // ------------------------------------------------------------- router steps

  lemma ShakeOk(w: World)
    requires WorldOk(w) && Enabled(w, Shake)
    ensures WorldOk(Apply(w, Shake))
  {
    var i, w' := w.pc.i, Apply(w, Shake);
    assert SideOk(w, i);
    forall b | 0 <= b < |w'.sides| ensures SideOk(w', b) {
      assert SideOk(w, b);
    }
  }

  lemma NamesStay(s: Side, owner: nat, ips: seq<IpInfo>, more: seq<IpInfo>)
    requires HoldsIds(s, owner, ips)
    ensures HoldsIds(s, owner, ips + more)
  {
    forall j | 0 <= j < |s.ids| ensures Named(ips + more, owner, s.plan[j], s.ids[j]) {
      assert Named(ips, owner, s.plan[j], s.ids[j]);
    }
  }

  /** A registration that the router accepts. */
  lemma RegisterOk(w: World)
    requires WorldOk(w) && Enabled(w, Enlist) && w.sides[w.pc.i].up[0].IP_INFO?
    ensures WorldOk(Apply(w, Enlist))
  {
    var i, w' := w.pc.i, Apply(w, Enlist);
    var s, owner := w.sides[i], StoredId(w.naming, i);
    assert SideOk(w, i);
    var ip := IpInfoOf(s.up[0].ip, owner);
    RegisterKeepsConsistent(w.overlap, w.reg, ip);
    if Accepts(w.overlap, w.reg.ips, ip) {
      var entry := ip.(id := w.reg.ipCount);
      assert w'.reg.ips == w.reg.ips + [entry];
      assert Named(w'.reg.ips, owner, s.plan[|s.ids|], w.reg.ipCount);
      forall b | 0 <= b < |w'.sides| ensures SideOk(w', b) {
        assert SideOk(w, b);
        NamesStay(w.sides[b], StoredId(w.naming, b), w.reg.ips, [entry]);
      }
    } else {
      forall b | 0 <= b < |w'.sides| ensures SideOk(w', b) {
        assert SideOk(w, b);
      }
    }
  }

  /** The router's answer to a registration: an id, which is the place of the new
      entry, exactly when the block is accepted; a rejection leaves the list as it
      was.  A master is counted either way. */
  lemma RegistrationAnswered(w: World)
    requires WorldOk(w) && Enabled(w, Enlist) && w.sides[w.pc.i].up[0].IP_INFO?
    ensures var i, w', n := w.pc.i, Apply(w, Enlist), |w.reg.ips|;
            var config, down := w.sides[i].up[0].ip, w'.sides[i].down;
            && w'.reg.masterCount == w.reg.masterCount + (if config.typ.IsMaster() then 1 else 0)
            && |down| == 1 && (down[0] == IP_ACK(n) || down[0].ERROR?)
            && (down[0] == IP_ACK(n) <==> Accepts(w.overlap, w.reg.ips, IpInfoOf(config, StoredId(w.naming, i))))
            && (down[0] == IP_ACK(n) ==>
                  && w'.pc == w.pc && |w'.reg.ips| == n + 1 && w'.reg.ips[..n] == w.reg.ips
                  && SameBlock(config, w'.reg.ips[n]) && w'.reg.ips[n].id == n
                  && w'.reg.ips[n].clientId == StoredId(w.naming, i))
            && (down[0].ERROR? ==> w'.pc == Refusing(i) && w'.reg.ips == w.reg.ips)
  {
    assert SideOk(w, w.pc.i);
  }

  lemma OverIsTold(s: Side, infos: seq<SystemInfo>, ips: seq<IpInfo>)
    requires Over(s)
    ensures Told(s, infos, ips, 0, false)
  {
  }

  /** A client whose turn ends. */
  lemma CommitOk(w: World)
    requires WorldOk(w) && Enabled(w, Enlist) && w.sides[w.pc.i].up[0].COMMIT?
    ensures WorldOk(Apply(w, Enlist))
  {
    var i, w' := w.pc.i, Apply(w, Enlist);
    assert SideOk(w, i);
    assert Over(w'.sides[i]);
    forall b | 0 <= b < |w'.sides| ensures SideOk(w', b) {
      assert SideOk(w, b);
      if w'.pc.Committing? {
        assert Over(w'.sides[b]);
        OverIsTold(w'.sides[b], w'.infos, w'.reg.ips);
      }
    }
  }

  lemma Appended(s: Side, infos: seq<SystemInfo>, ips: seq<IpInfo>, k: nat)
    requires Told(s, infos, ips, k, false) && k < Length(infos, ips)
    ensures Told(s.(down := s.down + [CommitMessages(infos, ips)[k]]), infos, ips, k + 1, false)
  {
  }

  lemma PublishOk(w: World)
    requires WorldOk(w) && Enabled(w, Publish)
    ensures WorldOk(Apply(w, Publish))
  {
    var w' := Apply(w, Publish);
    assert List(w') == List(w);
    forall b | 0 <= b < |w'.sides| ensures SideOk(w', b) {
      PublishedSide(w, b);
    }
  }

  lemma PublishedSide(w: World, b: nat)
    requires RouterOk(w) && b < |w.sides| && SideOk(w, b) && Enabled(w, Publish)
    ensures SideOk(Apply(w, Publish), b)
  {
    var w' := Apply(w, Publish);
    assert List(w') == List(w);
    if b == w.pc.i {
      Appended(w.sides[b], w.infos, w.reg.ips, w.pc.k);
      assert Written(w', b) == w.pc.k + 1;
    } else {
      assert Written(w', b) == Written(w, b);
    }
  }

  lemma DeliverOk(w: World, c: nat, m: Msg)
    requires WorldOk(w) && Enabled(w, Deliver(c, m))
    ensures WorldOk(Apply(w, Deliver(c, m)))
  {
    assert SideOk(w, c);
    OneSide(w, c, w.sides[c].(down := w.sides[c].down + [TRAFFIC(m)]));
  }

  lemma CollectOk(w: World, c: nat)
    requires WorldOk(w) && Enabled(w, Collect(c))
    ensures WorldOk(Apply(w, Collect(c)))
  {
    var s := w.sides[c];
    assert SideOk(w, c);
    assert s.up[0] in s.up;
    assert forall p :: p in s.up[1..] ==> p in s.up;
    OneSide(w, c, s.(up := s.up[1..]));
  }

  lemma ApplyOk(w: World, a: Act)
    requires WorldOk(w) && Enabled(w, a)
    ensures WorldOk(Apply(w, a))
  {
    match a
    case Shake => ShakeOk(w);
    case Enlist =>
      assert SideOk(w, w.pc.i);
      if w.sides[w.pc.i].up[0].COMMIT? {
        CommitOk(w);
      } else {
        RegisterOk(w);
      }
    case Publish => PublishOk(w);
    case Deliver(c, m) => DeliverOk(w, c, m);
    case Collect(c) => CollectOk(w, c);
    case _ => ClientOk(w, a);
  }

  /** The same router, and the same clients with the same plans. */
  ghost predicate SameClients(w: World, w': World) {
    && w'.overlap == w.overlap && w'.naming == w.naming && w'.host == w.host && |w'.sides| == |w.sides|
    && forall c :: 0 <= c < |w.sides| ==> w'.sides[c].me == w.sides[c].me && w'.sides[c].plan == w.sides[c].plan
  }

  lemma ApplyKeepsClients(w: World, a: Act)
    requires Enabled(w, a)
    ensures SameClients(w, Apply(w, a))
  {
    if a.Hear? {
      HeardKeepsNames(w.sides[a.c]);
    }
  }

  lemma {:induction false} RunOk(w: World, acts: seq<Act>, w': World)
    requires WorldOk(w) && Run(w, acts, w')
    ensures WorldOk(w') && SameClients(w, w')
    decreases |acts|
  {
    if acts != [] {
      ApplyOk(w, acts[0]);
      ApplyKeepsClients(w, acts[0]);
      RunOk(Apply(w, acts[0]), acts[1..], w');
    }
  }

  // ---------------------------------------------------------------- theorems

  /** In every run: the router meets no message that it does not expect; no client
      does, except that one whose registration is rejected learns so and is then
      disconnected; and every id that a client has got names the block that it
      registered with it. */
  lemma NothingIsUnexpected(w: World, acts: seq<Act>, w': World)
    requires Init(w) && Run(w, acts, w')
    ensures w'.pc != Broken
    ensures forall c :: 0 <= c < |w'.sides| ==>
              && HoldsIds(w'.sides[c], StoredId(w'.naming, c), w'.reg.ips)
              && (w'.sides[c].lost ==> w'.pc == Refusing(c) && w'.sides[c].cl.state == DISCONNECTED)
  {
    RunOk(w, acts, w');
    forall c | 0 <= c < |w'.sides|
      ensures HoldsIds(w'.sides[c], StoredId(w'.naming, c), w'.reg.ips)
      ensures w'.sides[c].lost ==> w'.pc == Refusing(c) && w'.sides[c].cl.state == DISCONNECTED
    {
      assert SideOk(w', c);
    }
  }

  /** connect gives every client the router's description, and the client is then
      connected. */
  lemma ConnectBringsTheHost(w: World, acts: seq<Act>, w': World, c: nat)
    requires Init(w) && Run(w, acts, w') && Enabled(w', Hear(c)) && w'.sides[c].cl.state == DISCONNECTED
    ensures var s := w'.sides[c];
            && After(s.cl, CallOf(s, Next(s.down))).1 == Info(w.host)
            && Heard(s).cl == Client(CONNECTED, true, "unix:///tmp/sw-axi", [SYSTEM_INFO(s.me)])
  {
    RunOk(w, acts, w');
    assert SideOk(w', c);
    HostIsFirst(w', c);
    Connected(w'.sides[c], w.host);
  }

  lemma HostIsFirst(w: World, c: nat)
    requires c < |w.sides| && SideOk(w, c) && Enabled(w, Hear(c)) && w.sides[c].cl.state == DISCONNECTED
    ensures w.sides[c].cl == FRESH && w.sides[c].down[0] == SYSTEM_INFO(w.host)
  {
  }

  lemma Connected(s: Side, host: SystemInfo)
    requires s.cl == FRESH && s.down != [] && s.down[0] == SYSTEM_INFO(host)
    ensures After(s.cl, CallOf(s, Next(s.down))).1 == Info(host)
    ensures Heard(s).cl == Client(CONNECTED, true, "unix:///tmp/sw-axi", [SYSTEM_INFO(s.me)])
  {
  }

  /** In a run without a rejection no traffic is the next thing to be read by a client that has
      not read the last ACK of its own lists, and none leaves a client before. */
  lemma TrafficComesAfterTheLists(w: World, acts: seq<Act>, w': World, c: nat)
    requires Init(w) && Run(w, acts, w') && !w'.pc.Refusing? && c < |w'.sides|
    requires w'.sides[c].cl.state !in {STARTED, LOGGED_OUT}
    ensures w'.sides[c].down != [] ==> !w'.sides[c].down[0].TRAFFIC?
    ensures forall p :: p in w'.sides[c].up ==> !p.TRAFFIC?
  {
    RunOk(w, acts, w');
    NothingYet(w', c);
  }

  lemma NothingYet(w: World, c: nat)
    requires WorldOk(w) && !w.pc.Refusing? && c < |w.sides| && w.sides[c].cl.state !in {STARTED, LOGGED_OUT}
    ensures w.sides[c].down != [] ==> !w.sides[c].down[0].TRAFFIC?
    ensures forall p :: p in w.sides[c].up ==> !p.TRAFFIC?
  {
    assert SideOk(w, c);
    if w.pc.Committing? || w.pc.Serving? {
      NoTrafficYet(w.sides[c], w.infos, w.reg.ips, Written(w, c), w.pc.Serving?);
    }
  }

  lemma NoTrafficYet(s: Side, infos: seq<SystemInfo>, ips: seq<IpInfo>, k: nat, serving: bool)
    requires Told(s, infos, ips, k, serving) && s.cl.state !in {STARTED, LOGGED_OUT}
    requires serving ==> k == Length(infos, ips)
    ensures s.down != [] ==> !s.down[0].TRAFFIC?
    ensures s.up == []
  {
    if s.down != [] {
      Popped(s.down, CommitMessages(infos, ips), s.heard, k);
      ListAt(infos, ips, s.heard);
    }
  }

  /** The block as it was registered, without its interrupts. */
  predicate SameButInterrupts(told: IpConfig, config: IpConfig) {
    && told.name == config.name && told.address == config.address && told.size == config.size
    && told.typ == config.typ && told.impl == config.impl
    && told.firstInterrupt == 0 && told.numInterrupts == 0
  }

  /** In such a run a client that has STARTED knows all clients in the order in
      which they were accepted, and all blocks in the order of their ids; each of
      its own blocks is in the list under the id that it got, as it registered it
      but for the interrupts. */
  lemma StartedKnowsAll(w: World, acts: seq<Act>, w': World, c: nat)
    requires Init(w) && Run(w, acts, w') && !w'.pc.Refusing? && c < |w'.sides|
    requires w'.sides[c].cl.state == STARTED
    ensures |w.sides| == |w'.sides|
    ensures var s := w'.sides[c];
            && |s.peers| == |w.sides| && (forall b :: 0 <= b < |w.sides| ==> s.peers[b] == w.sides[b].me)
            && s.blocks == Configs(w'.reg.ips)
            && |s.ids| == |w.sides[c].plan|
            && forall j :: 0 <= j < |s.ids| ==>
                 s.ids[j] < |s.blocks| && SameButInterrupts(s.blocks[s.ids[j]], w.sides[c].plan[j])
  {
    RunOk(w, acts, w');
    assert SideOk(w', c);
    assert Learnt(w'.sides[c], w'.infos, w'.reg.ips);
    assert w'.sides[c].peers == w'.infos;
    KnowsItsBlocks(w'.sides[c], StoredId(w'.naming, c), w'.reg.ips);
  }

  lemma KnowsItsBlocks(s: Side, owner: nat, ips: seq<IpInfo>)
    requires HoldsIds(s, owner, ips)
    ensures forall j :: 0 <= j < |s.ids| ==>
              s.ids[j] < |ips| && SameButInterrupts(Configs(ips)[s.ids[j]], s.plan[j])
  {
    forall j | 0 <= j < |s.ids|
      ensures s.ids[j] < |ips| && SameButInterrupts(Configs(ips)[s.ids[j]], s.plan[j])
    {
      assert Named(ips, owner, s.plan[j], s.ids[j]);
      ConfigsAt(ips, s.ids[j]);
    }
  }
}
