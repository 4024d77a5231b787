/** The client side of the protocol: RouterClient, its states and what it may send
    in which order. */
module RouterClient {
  import opened Wire

  /** An IP block as a client describes it, or is told about it. */
  datatype IpConfig = IpConfig(
    name: string,
    address: u64,
    size: u64,
    firstInterrupt: u16,
    numInterrupts: u16,
    typ: IpType,
    impl: IpImplementation)

  /** All messages of a connection.  The last two are an IP_INFO and a TRANSACTION
      whose type is none of the known ones. */
  datatype Packet =
    | SYSTEM_INFO(si: SystemInfo)
    | IP_INFO(ip: IpConfig)
    | IP_ACK(id: nat)
    | ACK
    | ERROR(text: string)
    | COMMIT
    | TRAFFIC(msg: Msg)
    | ODD_IP_INFO
    | ODD_TRANSACTION

  /** What a read of one message brings. */
  datatype Reading = Breaks | Brings(p: Packet)

  datatype State = DISCONNECTED | CONNECTED | COMMITTED | PEER_INFO_RECEIVED | STARTED | LOGGED_OUT

  /** WrongState and BadUri send nothing; IoError, Rejected and Unexpected
      disconnect, UnknownType does not.  Finished is the router's DONE. */
  datatype Result =
    | WrongState | BadUri | NoSocket | IoError | Rejected(text: string) | Unexpected | UnknownType
    | Ok | Info(si: SystemInfo) | Id(id: nat) | Config(ip: IpConfig) | NoMore | Transaction(t: Txn) | Finished

  /** state  the protocol state
      open   the field sock is not -1
      uri    the field connectedUri
      sent   the complete messages sent on this connection */
  datatype Client = Client(state: State, open: bool, uri: string, sent: seq<Packet>) {

    function Disconnected(): Client {
      if !open then this else this.(state := DISCONNECTED, open := false, uri := "")
    }

    function Sending(p: Packet): Client { this.(sent := sent + [p]) }
  }

  /** A call, with what the system calls in it bring about. */
  datatype Call =
    | Connect(address: string, me: SystemInfo, opens: bool, connects: bool, writes: bool, reply: Reading)
    | RegisterIp(config: IpConfig, writes: bool, reply: Reading)
    | CommitIp(writes: bool, reply: Reading)
    | RetrievePeerInfo(reply: Reading)
    | RetrieveIpConfig(reply: Reading)
    | ReceiveTransaction(reply: Reading)
    | SendTransaction(t: Txn, writes: bool)
    | SendTermination(m: nat, writes: bool)
    | SendLogout(writes: bool)
    | Disconnect

  predicate GoodUri(uri: string) { |uri| >= 8 && uri[..7] == "unix://" }

  /** A registration does not carry the interrupt fields, which the receiver reads
      as zero. */
  function Registration(config: IpConfig): IpConfig {
    config.(firstInterrupt := 0, numInterrupts := 0)
  }

  /** Sends one message in the given state, or disconnects. */
  function Send(c: Client, needed: State, p: Packet, writes: bool): (Client, Result) {
    if c.state != needed then (c, WrongState)
    else if !writes then (c.Disconnected(), IoError)
    else (c.Sending(p), Ok)
  }

  /** The new state of the client and the result of a call. */
  function After(c: Client, call: Call): (Client, Result) {
    match call
    case Connect(address, me, opens, connects, writes, reply) =>
      if c.state != DISCONNECTED then (c, WrongState)
      else if !GoodUri(address) then (c, BadUri)
      else if !opens then (c.(open := false), NoSocket)
      else
        var c0 := c.(open := true, sent := []);
        if !connects then (c0.Disconnected(), IoError)
        else
          var c1 := c0.(uri := address);
          if !writes then (c1.Disconnected(), IoError)
          else
            var c2 := c1.Sending(SYSTEM_INFO(me));
            match reply {
              case Breaks => (c2.Disconnected(), IoError)
              case Brings(SYSTEM_INFO(si)) => (c2.(state := CONNECTED), Info(si))
              case Brings(_) => (c2.Disconnected(), Unexpected)
            }
    case RegisterIp(config, writes, reply) =>
      var (c1, r) := Send(c, CONNECTED, IP_INFO(Registration(config)), writes);
      if r != Ok then (c1, r)
      else
        match reply {
          case Breaks => (c1.Disconnected(), IoError)
          case Brings(ERROR(text)) => (c1.Disconnected(), Rejected(text))
          case Brings(IP_ACK(id)) => (c1, Id(id))
          case Brings(_) => (c1.Disconnected(), Unexpected)
        }
    case CommitIp(writes, reply) =>
      var (c1, r) := Send(c, CONNECTED, COMMIT, writes);
      if r != Ok then (c1, r)
      else
        match reply {
          case Breaks => (c1.Disconnected(), IoError)
          case Brings(ERROR(text)) => (c1.Disconnected(), Rejected(text))
          case Brings(ACK) => (c1.(state := COMMITTED), Ok)
          case Brings(_) => (c1.Disconnected(), Unexpected)
        }
    case RetrievePeerInfo(reply) =>
      if c.state != COMMITTED then (c, WrongState)
      else
        match reply {
          case Breaks => (c.Disconnected(), IoError)
          case Brings(SYSTEM_INFO(si)) => (c, Info(si))
          case Brings(ERROR(text)) => (c.Disconnected(), Rejected(text))
          case Brings(ACK) => (c.(state := PEER_INFO_RECEIVED), NoMore)
          case Brings(_) => (c.Disconnected(), Unexpected)
        }
    case RetrieveIpConfig(reply) =>
      if c.state != PEER_INFO_RECEIVED then (c, WrongState)
      else
        match reply {
          case Breaks => (c.Disconnected(), IoError)
          case Brings(IP_INFO(ip)) => (c, Config(ip))
          case Brings(ODD_IP_INFO) => (c, UnknownType)
          case Brings(ERROR(text)) => (c.Disconnected(), Rejected(text))
          case Brings(ACK) => (c.(state := STARTED), NoMore)
          case Brings(_) => (c.Disconnected(), Unexpected)
        }
    case ReceiveTransaction(reply) =>
      if c.state != STARTED then (c, WrongState)
      else
        match reply {
          case Breaks => (c.Disconnected(), IoError)
          case Brings(TRAFFIC(DONE)) => (c, Finished)
          case Brings(TRAFFIC(TRANSACTION(t))) => (c, Transaction(t))
          case Brings(ODD_TRANSACTION) => (c, UnknownType)
          case Brings(_) => (c.Disconnected(), Unexpected)
        }
    case SendTransaction(t, writes) => Send(c, STARTED, TRAFFIC(TRANSACTION(t)), writes)
    case SendTermination(m, writes) => Send(c, STARTED, TRAFFIC(TERMINATE(m)), writes)
    case SendLogout(writes) =>
      var (c1, r) := Send(c, STARTED, TRAFFIC(DONE), writes);
      if r == Ok then (c1.(state := LOGGED_OUT), Ok) else (c1, r)
    case Disconnect => (c.Disconnected(), Ok)
  }

  // ----------------------------------------------------- what the calls promise

  /** The state that a call asks for. */
  function Needed(call: Call): State {
    match call
    case Connect(_, _, _, _, _, _) => DISCONNECTED
    case RegisterIp(_, _, _) => CONNECTED
    case CommitIp(_, _) => CONNECTED
    case RetrievePeerInfo(_) => COMMITTED
    case RetrieveIpConfig(_) => PEER_INFO_RECEIVED
    case _ => STARTED
  }

  /** In any other state a call fails and changes nothing, except that one can always
      disconnect. */
  lemma OutOfTurn(c: Client, call: Call)
    requires !call.Disconnect?
    ensures After(c, call).1 == WrongState <==> c.state != Needed(call)
    ensures c.state != Needed(call) ==> After(c, call).0 == c
  {
  }

  /** Without a socket, a disconnected client. */
  predicate Gone(c: Client) { c.state == DISCONNECTED && !c.open && c.uri == "" }

  /** connect: success is the router's description, and then the client is CONNECTED
      and has sent its own; every failure leaves it without a connection. */
  lemma ConnectOutcome(c: Client, address: string, me: SystemInfo, opens: bool, connects: bool, writes: bool,
                       reply: Reading)
    requires c.state == DISCONNECTED && !c.open && c.uri == ""
    ensures var (c', r) := After(c, Call.Connect(address, me, opens, connects, writes, reply));
            var good := |address| >= 8 && address[..7] == "unix://";
            && (forall si :: r == Info(si) <==> good && opens && connects && writes && reply == Brings(SYSTEM_INFO(si)))
            && (r.Info? ==> c' == Client(CONNECTED, true, address, [SYSTEM_INFO(me)]))
            && (!r.Info? ==> Gone(c'))
            && (r == BadUri <==> !good) && (r == NoSocket <==> good && !opens)
            && (r == Unexpected <==> good && opens && connects && writes && reply.Brings? && !reply.p.SYSTEM_INFO?)
  {
  }

  /** registerIp: an id exactly for IP_ACK, a rejection exactly for ERROR; everything
      but an id ends the connection.  What has been sent is the block without its
      interrupts. */
  lemma RegisterOutcome(c: Client, config: IpConfig, writes: bool, reply: Reading)
    requires c.state == CONNECTED && c.open
    ensures var (c', r) := After(c, Call.RegisterIp(config, writes, reply));
            && (forall n :: r == Id(n) <==> writes && reply == Brings(IP_ACK(n)))
            && (forall text :: r == Rejected(text) <==> writes && reply == Brings(ERROR(text)))
            && (r == IoError <==> !writes || reply.Breaks?)
            && (r.Id? || r.Rejected? || r == IoError || r == Unexpected)
            && (r.Id? ==> c'.state == CONNECTED && c'.open && c'.uri == c.uri)
            && (!r.Id? ==> Gone(c'))
            && c'.sent == c.sent + if writes then [IP_INFO(config.(firstInterrupt := 0, numInterrupts := 0))] else []
  {
  }

  lemma CommitOutcome(c: Client, writes: bool, reply: Reading)
    requires c.state == CONNECTED && c.open
    ensures var (c', r) := After(c, Call.CommitIp(writes, reply));
            && (r == Ok <==> writes && reply == Brings(ACK))
            && (forall text :: r == Rejected(text) <==> writes && reply == Brings(ERROR(text)))
            && (r == IoError <==> !writes || reply.Breaks?)
            && (r == Ok || r.Rejected? || r == IoError || r == Unexpected)
            && (r == Ok ==> c'.state == COMMITTED && c'.open && c'.uri == c.uri)
            && (r != Ok ==> Gone(c'))
            && c'.sent == c.sent + if writes then [COMMIT] else []
  {
  }

  /** retrievePeerInfo: what the message says, and the next state exactly for ACK. */
  lemma PeerOutcome(c: Client, reply: Reading)
    requires c.state == COMMITTED && c.open
    ensures var (c', r) := After(c, Call.RetrievePeerInfo(reply));
            && (forall si :: r == Info(si) <==> reply == Brings(SYSTEM_INFO(si)))
            && (r == NoMore <==> reply == Brings(ACK))
            && (forall text :: r == Rejected(text) <==> reply == Brings(ERROR(text)))
            && (r == IoError <==> reply.Breaks?)
            && (r.Info? || r == NoMore || r.Rejected? || r == IoError || r == Unexpected)
            && (r.Info? ==> c' == c) && (r == NoMore ==> c' == c.(state := PEER_INFO_RECEIVED))
            && (!r.Info? && r != NoMore ==> Gone(c') && c'.sent == c.sent)
  {
  }

  lemma ConfigOutcome(c: Client, reply: Reading)
    requires c.state == PEER_INFO_RECEIVED && c.open
    ensures var (c', r) := After(c, Call.RetrieveIpConfig(reply));
            && (forall ip :: r == Config(ip) <==> reply == Brings(IP_INFO(ip)))
            && (r == NoMore <==> reply == Brings(ACK))
            && (r == UnknownType <==> reply == Brings(ODD_IP_INFO))
            && (forall text :: r == Rejected(text) <==> reply == Brings(ERROR(text)))
            && (r == IoError <==> reply.Breaks?)
            && (r.Config? || r == NoMore || r == UnknownType || r.Rejected? || r == IoError || r == Unexpected)
            && (r.Config? || r == UnknownType ==> c' == c) && (r == NoMore ==> c' == c.(state := STARTED))
            && (!r.Config? && r != NoMore && r != UnknownType ==> Gone(c') && c'.sent == c.sent)
  {
  }

  /** receiveTransaction: the transaction as it came, or the end; anything else but
      an unknown type disconnects. */
  lemma ReceiveOutcome(c: Client, reply: Reading)
    requires c.state == STARTED && c.open
    ensures var (c', r) := After(c, Call.ReceiveTransaction(reply));
            && (forall t :: r == Transaction(t) <==> reply == Brings(TRAFFIC(TRANSACTION(t))))
            && (r == Finished <==> reply == Brings(TRAFFIC(DONE)))
            && (r == UnknownType <==> reply == Brings(ODD_TRANSACTION))
            && (r == IoError <==> reply.Breaks?)
            && (r.Transaction? || r == Finished || r == UnknownType || r == IoError || r == Unexpected)
            && (r.Transaction? || r == Finished || r == UnknownType ==> c' == c)
            && (r == IoError || r == Unexpected ==> Gone(c') && c'.sent == c.sent)
  {
  }

  /** The call that sends a message of the traffic. */
  function Sending(m: Msg, writes: bool): Call {
    match m
    case TRANSACTION(t) => Call.SendTransaction(t, writes)
    case TERMINATE(ip) => Call.SendTermination(ip, writes)
    case DONE => Call.SendLogout(writes)
  }

  /** The three calls that send: the message as it is, or a disconnection; DONE is
      the logout. */
  lemma SendOutcome(c: Client, m: Msg, writes: bool)
    requires c.state == STARTED && c.open
    ensures var (c', r) := After(c, Sending(m, writes));
            && r == (if writes then Ok else IoError)
            && (writes ==> c' == c.(state := if m.DONE? then LOGGED_OUT else STARTED, sent := c.sent + [TRAFFIC(m)]))
            && (!writes ==> Gone(c') && c'.sent == c.sent)
  {
  }

  /** disconnect: afterwards there is no connection. */
  lemma DisconnectOutcome(c: Client)
    requires c.state == DISCONNECTED <==> !c.open
    ensures var (c', r) := After(c, Call.Disconnect);
            r == Ok && c'.state == DISCONNECTED && !c'.open && c'.sent == c.sent && (c.open ==> c'.uri == "")
  {
  }

  // ------------------------------------------------------------ wire language

  /** How far a connection has come: nothing sent; SYSTEM_INFO and IP_INFOs; COMMIT
      and traffic; DONE; or out of order. */
  datatype Progress = Nothing | Registering | Running | Closed | OutOfOrder

  /** The language SYSTEM_INFO IP_INFO* COMMIT (TRANSACTION | TERMINATE)* DONE. */
  function Advance(s: Progress, p: Packet): Progress {
    match (s, p)
    case (Nothing, SYSTEM_INFO(_)) => Registering
    case (Registering, IP_INFO(_)) => Registering
    case (Registering, COMMIT) => Running
    case (Running, TRAFFIC(m)) => if m.DONE? then Closed else Running
    case _ => OutOfOrder
  }

  function ProgressOf(sent: seq<Packet>): Progress {
    if sent == [] then Nothing
    else Advance(ProgressOf(sent[..|sent| - 1]), sent[|sent| - 1])
  }

  lemma ProgressSnoc(sent: seq<Packet>, p: Packet)
    ensures ProgressOf(sent + [p]) == Advance(ProgressOf(sent), p)
  {
    assert (sent + [p])[..|sent|] == sent;
  }

  /** The state of the client tells how far its connection has come; it has a
      socket exactly when it is not DISCONNECTED. */
  ghost predicate Valid(c: Client) {
    && (c.state == DISCONNECTED <==> !c.open)
    && ProgressOf(c.sent) != OutOfOrder
    && (c.state == CONNECTED ==> ProgressOf(c.sent) == Registering)
    && (c.state in {COMMITTED, PEER_INFO_RECEIVED, STARTED} ==> ProgressOf(c.sent) == Running)
    && (c.state == LOGGED_OUT ==> ProgressOf(c.sent) == Closed)
  }

  lemma ConnectValid(c: Client, call: Call)
    requires Valid(c) && call.Connect?
    ensures Valid(After(c, call).0)
  {
    ProgressSnoc([], SYSTEM_INFO(call.me));
    assert [] + [SYSTEM_INFO(call.me)] == [SYSTEM_INFO(call.me)];
  }

  lemma RegisterValid(c: Client, call: Call)
    requires Valid(c) && call.RegisterIp?
    ensures Valid(After(c, call).0)
  {
    ProgressSnoc(c.sent, IP_INFO(Registration(call.config)));
  }

  lemma CommitValid(c: Client, call: Call)
    requires Valid(c) && call.CommitIp?
    ensures Valid(After(c, call).0)
  {
    ProgressSnoc(c.sent, COMMIT);
  }

  lemma TrafficValid(c: Client, call: Call)
    requires Valid(c) && (call.SendTransaction? || call.SendTermination? || call.SendLogout?)
    ensures Valid(After(c, call).0)
  {
    match call
    case SendTransaction(t, _) => ProgressSnoc(c.sent, TRAFFIC(TRANSACTION(t)));
    case SendTermination(m, _) => ProgressSnoc(c.sent, TRAFFIC(TERMINATE(m)));
    case SendLogout(_) => ProgressSnoc(c.sent, TRAFFIC(DONE));
  }

  lemma AfterValid(c: Client, call: Call)
    requires Valid(c)
    ensures Valid(After(c, call).0)
  {
    match call
    case Connect(_, _, _, _, _, _) => ConnectValid(c, call);
    case RegisterIp(_, _, _) => RegisterValid(c, call);
    case CommitIp(_, _) => CommitValid(c, call);
    case SendTransaction(_, _) => TrafficValid(c, call);
    case SendTermination(_, _) => TrafficValid(c, call);
    case SendLogout(_) => TrafficValid(c, call);
    case _ =>
  }

  function AfterAll(c: Client, calls: seq<Call>): Client {
    if calls == [] then c else After(AfterAll(c, calls[..|calls| - 1]), calls[|calls| - 1]).0
  }

  const FRESH := Client(DISCONNECTED, false, "", [])

  /** For every sequence of calls and every I/O outcome: the messages sent on a
      connection keep to the language, and between calls the client is DISCONNECTED
      exactly when it has no socket. */
  lemma {:induction false} WireLanguage(calls: seq<Call>)
    ensures ProgressOf(AfterAll(FRESH, calls).sent) != OutOfOrder
    ensures AfterAll(FRESH, calls).state == DISCONNECTED <==> !AfterAll(FRESH, calls).open
    ensures Valid(AfterAll(FRESH, calls))
  {
    if calls != [] {
      WireLanguage(calls[..|calls| - 1]);
      AfterValid(AfterAll(FRESH, calls[..|calls| - 1]), calls[|calls| - 1]);
    }
  }

  predicate Traffic(p: Packet) { p.TRAFFIC? && !p.msg.DONE? }

  /** The language, message by message: SYSTEM_INFO is first and only first,
      IP_INFOs follow it, one COMMIT separates them from the traffic, and DONE is
      last. */
  lemma {:induction false} LanguageIsOrdered(sent: seq<Packet>, commits: nat)
    requires ProgressOf(sent) != OutOfOrder && commits < |sent| && sent[commits].COMMIT?
    ensures sent[0].SYSTEM_INFO? && commits > 0
    ensures forall j :: 0 < j < commits ==> sent[j].IP_INFO?
    ensures forall j :: commits < j < |sent| ==> Traffic(sent[j]) || (sent[j] == TRAFFIC(DONE) && j == |sent| - 1)
    ensures ProgressOf(sent) == if sent[|sent| - 1] == TRAFFIC(DONE) then Closed else Running
  {
    var n := |sent| - 1;
    if commits < n {
      LanguageIsOrdered(sent[..n], commits);
    } else {
      BeforeCommit(sent[..n]);
    }
  }

  lemma {:induction false} BeforeCommit(sent: seq<Packet>)
    requires ProgressOf(sent) == Registering
    ensures sent != [] && sent[0].SYSTEM_INFO? && forall j :: 0 < j < |sent| ==> sent[j].IP_INFO?
  {
    var n := |sent| - 1;
    if n > 0 {
      if ProgressOf(sent[..n]) == Registering {
        BeforeCommit(sent[..n]);
      } else {
        OnlyEmptyIsNothing(sent[..n]);
      }
    }
  }

  lemma OnlyEmptyIsNothing(sent: seq<Packet>)
    ensures ProgressOf(sent) == Nothing <==> sent == []
  {
  }

  // ----------------------------------------------------------------- the class

  class RouterClient {
    var state: State
    var open: bool
    var connectedUri: string
    var sent: seq<Packet>

    ghost function View(): Client
      reads this
    {
      Client(state, open, connectedUri, sent)
    }

    constructor ()
      ensures View() == FRESH && Valid(View())
    {
      state, open, connectedUri, sent := DISCONNECTED, false, "", [];
    }

    method Disconnect()
      modifies this
      ensures View() == old(View()).Disconnected()
      ensures Valid(old(View())) ==> Valid(View())
    {
      if !open {
        return;
      }
      state := DISCONNECTED;
      connectedUri := "";
      open := false;
    }

    method Connect(uri: string, me: SystemInfo, opens: bool, connects: bool, writes: bool, reply: Reading)
        returns (r: Result)
      modifies this
      ensures (View(), r) == After(old(View()), Call.Connect(uri, me, opens, connects, writes, reply))
      ensures Valid(old(View())) ==> Valid(View())
    {
      if state != DISCONNECTED {
        return WrongState;
      }
      if |uri| < 8 || uri[..7] != "unix://" {
        return BadUri;
      }
      open := opens;
      if !open {
        return NoSocket;
      }
      sent := [];
      if !connects {
        Disconnect();
        return IoError;
      }
      connectedUri := uri;
      if !writes {
        Disconnect();
        return IoError;
      }
      sent := sent + [SYSTEM_INFO(me)];
      if reply.Breaks? {
        Disconnect();
        return IoError;
      }
      if !reply.p.SYSTEM_INFO? {
        Disconnect();
        return Unexpected;
      }
      state := CONNECTED;
      return Info(reply.p.si);
    }

    method RegisterIp(config: IpConfig, writes: bool, reply: Reading) returns (r: Result)
      modifies this
      ensures (View(), r) == After(old(View()), Call.RegisterIp(config, writes, reply))
      ensures Valid(old(View())) ==> Valid(View())
    {
      if state != CONNECTED {
        return WrongState;
      }
      if !writes {
        Disconnect();
        return IoError;
      }
      sent := sent + [IP_INFO(config.(firstInterrupt := 0, numInterrupts := 0))];
      if reply.Breaks? {
        Disconnect();
        return IoError;
      }
      if reply.p.ERROR? {
        Disconnect();
        return Rejected(reply.p.text);
      }
      if !reply.p.IP_ACK? {
        Disconnect();
        return Unexpected;
      }
      return Id(reply.p.id);
    }

    method CommitIp(writes: bool, reply: Reading) returns (r: Result)
      modifies this
      ensures (View(), r) == After(old(View()), Call.CommitIp(writes, reply))
      ensures Valid(old(View())) ==> Valid(View())
    {
      if state != CONNECTED {
        return WrongState;
      }
      if !writes {
        Disconnect();
        return IoError;
      }
      sent := sent + [COMMIT];
      if reply.Breaks? {
        Disconnect();
        return IoError;
      }
      if reply.p.ERROR? {
        Disconnect();
        return Rejected(reply.p.text);
      }
      if !reply.p.ACK? {
        Disconnect();
        return Unexpected;
      }
      state := COMMITTED;
      return Ok;
    }

    method RetrievePeerInfo(reply: Reading) returns (r: Result)
      modifies this
      ensures (View(), r) == After(old(View()), Call.RetrievePeerInfo(reply))
      ensures Valid(old(View())) ==> Valid(View())
    {
      if state != COMMITTED {
        return WrongState;
      }
      if reply.Breaks? {
        Disconnect();
        return IoError;
      }
      if reply.p.SYSTEM_INFO? {
        return Info(reply.p.si);
      }
      if reply.p.ERROR? {
        Disconnect();
        return Rejected(reply.p.text);
      }
      if !reply.p.ACK? {
        Disconnect();
        return Unexpected;
      }
      state := PEER_INFO_RECEIVED;
      return NoMore;
    }

    method RetrieveIpConfig(reply: Reading) returns (r: Result)
      modifies this
      ensures (View(), r) == After(old(View()), Call.RetrieveIpConfig(reply))
      ensures Valid(old(View())) ==> Valid(View())
    {
      if state != PEER_INFO_RECEIVED {
        return WrongState;
      }
      if reply.Breaks? {
        Disconnect();
        return IoError;
      }
      if reply.p.IP_INFO? {
        return Config(reply.p.ip);
      }
      if reply.p.ODD_IP_INFO? {
        return UnknownType;
      }
      if reply.p.ERROR? {
        Disconnect();
        return Rejected(reply.p.text);
      }
      if !reply.p.ACK? {
        Disconnect();
        return Unexpected;
      }
      state := STARTED;
      return NoMore;
    }

    method ReceiveTransaction(reply: Reading) returns (r: Result)
      modifies this
      ensures (View(), r) == After(old(View()), Call.ReceiveTransaction(reply))
      ensures Valid(old(View())) ==> Valid(View())
    {
      if state != STARTED {
        return WrongState;
      }
      if reply.Breaks? {
        Disconnect();
        return IoError;
      }
      if reply.p == TRAFFIC(DONE) {
        return Finished;
      }
      if reply.p.ODD_TRANSACTION? {
        return UnknownType;
      }
      if !(reply.p.TRAFFIC? && reply.p.msg.TRANSACTION?) {
        Disconnect();
        return Unexpected;
      }
      return Transaction(reply.p.msg.txn);
    }

    method SendTransaction(t: Txn, writes: bool) returns (r: Result)
      modifies this
      ensures (View(), r) == After(old(View()), Call.SendTransaction(t, writes))
      ensures Valid(old(View())) ==> Valid(View())
    {
      r := SendTraffic(TRANSACTION(t), writes);
    }

    method SendTermination(m: nat, writes: bool) returns (r: Result)
      modifies this
      ensures (View(), r) == After(old(View()), Call.SendTermination(m, writes))
      ensures Valid(old(View())) ==> Valid(View())
    {
      r := SendTraffic(TERMINATE(m), writes);
    }

    method SendLogout(writes: bool) returns (r: Result)
      modifies this
      ensures (View(), r) == After(old(View()), Call.SendLogout(writes))
      ensures Valid(old(View())) ==> Valid(View())
    {
      r := SendTraffic(DONE, writes);
      if r == Ok {
        state := LOGGED_OUT;
      }
    }

    /** What the three methods above have in common. */
    method SendTraffic(m: Msg, writes: bool) returns (r: Result)
      modifies this
      ensures (View(), r) == Send(old(View()), STARTED, TRAFFIC(m), writes)
    {
      if state != STARTED {
        return WrongState;
      }
      if !writes {
        Disconnect();
        return IoError;
      }
      sent := sent + [TRAFFIC(m)];
      return Ok;
    }
  }
}
