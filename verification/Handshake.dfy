/** The end of the handshake: the lists that the router prints after COMMIT, and
    the loops with which a bridge reads them. */
module Handshake {
  import opened Wire
  import opened RouterClient

  /** What a block looks like on the wire: the router's own numbers stay behind. */
  function ConfigOf(ip: IpInfo): IpConfig {
    IpConfig(ip.name, ip.address, ip.size, ip.firstInterrupt, ip.numInterrupts, ip.typ, ip.impl)
  }

  /** receiveIpInfo: the block as the router takes it in. */
  function IpInfoOf(config: IpConfig, clientId: nat): IpInfo {
    IpInfo(config.name, config.address, config.size, config.firstInterrupt, config.numInterrupts,
           config.typ, config.impl, 0, clientId)
  }

  /** The same block, field by field. */
  predicate SameBlock(config: IpConfig, ip: IpInfo) {
    && config.name == ip.name && config.address == ip.address && config.size == ip.size
    && config.firstInterrupt == ip.firstInterrupt && config.numInterrupts == ip.numInterrupts
    && config.typ == ip.typ && config.impl == ip.impl
  }

  /** Neither direction loses or mixes up a field. */
  lemma BlocksStayTheSame(config: IpConfig, clientId: nat, ip: IpInfo)
    ensures SameBlock(config, IpInfoOf(config, clientId)) && IpInfoOf(config, clientId).clientId == clientId
    ensures SameBlock(ConfigOf(ip), ip)
    ensures ConfigOf(ip) == config <==> SameBlock(config, ip)
  {
  }

  /** A block comes back to every client as it was configured but for its interrupts,
      which the registration leaves out: exactly, when it has none. */
  lemma InterruptsAreLost(config: IpConfig, clientId: nat)
    ensures ConfigOf(IpInfoOf(Registration(config), clientId)) == config.(firstInterrupt := 0, numInterrupts := 0)
    ensures ConfigOf(IpInfoOf(Registration(config), clientId)) == config
        <==> config.firstInterrupt == 0 && config.numInterrupts == 0
  {
  }

  function Infos(clients: seq<SystemInfo>): (r: seq<Packet>)
    ensures |r| == |clients|
  {
    if clients == [] then [] else [SYSTEM_INFO(clients[0])] + Infos(clients[1..])
  }

  function Blocks(ips: seq<IpInfo>): (r: seq<Packet>)
    ensures |r| == |ips|
  {
    if ips == [] then [] else [IP_INFO(ConfigOf(ips[0]))] + Blocks(ips[1..])
  }

  function Configs(ips: seq<IpInfo>): (r: seq<IpConfig>)
    ensures |r| == |ips|
  {
    if ips == [] then [] else [ConfigOf(ips[0])] + Configs(ips[1..])
  }

  /** What commit writes: the client list and the block list, each between ACKs. */
  function CommitMessages(clients: seq<SystemInfo>, ips: seq<IpInfo>): seq<Packet> {
    [ACK] + Infos(clients) + [ACK] + Blocks(ips) + [ACK]
  }

  // ------------------------------------------------------------ the printer

  lemma {:induction false} InfosAt(clients: seq<SystemInfo>, k: nat)
    requires k < |clients|
    ensures Infos(clients)[k] == SYSTEM_INFO(clients[k])
  {
    if clients[1..] != [] {
      InfosAt(clients[1..], if k > 0 then k - 1 else 0);
    }
  }

  lemma {:induction false} BlocksAt(ips: seq<IpInfo>, k: nat)
    requires k < |ips|
    ensures Blocks(ips)[k] == IP_INFO(ConfigOf(ips[k]))
  {
    if ips[1..] != [] {
      BlocksAt(ips[1..], if k > 0 then k - 1 else 0);
    }
  }

  function Length(infos: seq<SystemInfo>, ips: seq<IpInfo>): nat { |infos| + |ips| + 3 }

  /** The j-th message of the lists. */
  lemma ListAt(infos: seq<SystemInfo>, ips: seq<IpInfo>, j: nat)
    requires j < Length(infos, ips)
    ensures var p := CommitMessages(infos, ips)[j];
            if j == 0 || j == |infos| + 1 || j == |infos| + |ips| + 2 then p == ACK
            else if j <= |infos| then p == SYSTEM_INFO(infos[j - 1])
            else p == IP_INFO(ConfigOf(ips[j - |infos| - 2]))
  {
    if 0 < j <= |infos| {
      InfosAt(infos, j - 1);
    } else if |infos| + 1 < j < |infos| + |ips| + 2 {
      BlocksAt(ips, j - |infos| - 2);
    }
  }

  /** The router's end of a connection; `left` messages can be written before a
      write fails. */
  class RouterEnd {
    var written: seq<Packet>
    var left: nat

    constructor (left: nat)
      ensures written == [] && this.left == left
    {
      written, this.left := [], left;
    }

    method WriteMsg(p: Packet) returns (ok: bool)
      modifies this
      ensures ok <==> old(left) > 0
      ensures if ok then written == old(written) + [p] && left == old(left) - 1
              else written == old(written) && left == 0
    {
      if left == 0 {
        return false;
      }
      written, left := written + [p], left - 1;
      return true;
    }

    /** Writes the lists, or stops at the write that fails. */
    method Commit(clients: seq<SystemInfo>, ips: seq<IpInfo>) returns (ok: bool)
      modifies this
      ensures ok <==> old(left) >= |clients| + |ips| + 3
      ensures ok ==> written == old(written) + CommitMessages(clients, ips)
      ensures !ok ==> written == old(written) + CommitMessages(clients, ips)[..old(left)]
    {
      ghost var before, list := written, CommitMessages(clients, ips);
      ok := WriteClients(list, clients, ips);
      if ok {
        ok := WriteBlocks(before, list, clients, ips);
      }
      assert list[..|list|] == list;
    }

    /** ACK and the clients. */
    method WriteClients(ghost list: seq<Packet>, clients: seq<SystemInfo>, ghost ips: seq<IpInfo>) returns (ok: bool)
      requires list == CommitMessages(clients, ips)
      modifies this
      ensures ok <==> old(left) >= 1 + |clients|
      ensures ok ==> written == old(written) + list[..1 + |clients|] && left == old(left) - 1 - |clients|
      ensures !ok ==> written == old(written) + list[..old(left)]
    {
      ghost var before, had := written, left;
      ListAt(clients, ips, 0);
      ok := WriteNext(before, list, 0, ACK);
      if !ok {
        return;
      }
      for k := 0 to |clients|
        invariant written == before + list[..1 + k] && left == had - 1 - k
      {
        ListAt(clients, ips, 1 + k);
        ok := WriteNext(before, list, 1 + k, SYSTEM_INFO(clients[k]));
        if !ok {
          return;
        }
      }
    }

    /** ACK, the blocks and ACK. */
    method WriteBlocks(ghost before: seq<Packet>, ghost list: seq<Packet>, ghost clients: seq<SystemInfo>, ips: seq<IpInfo>)
        returns (ok: bool)
      requires list == CommitMessages(clients, ips) && written == before + list[..1 + |clients|]
      modifies this
      ensures ok <==> old(left) >= |ips| + 2
      ensures ok ==> written == before + list
      ensures !ok ==> written == before + list[..1 + |clients| + old(left)]
    {
      ghost var n, had := 1 + |clients|, left;
      ListAt(clients, ips, n);
      ok := WriteNext(before, list, n, ACK);
      if !ok {
        return;
      }
      for k := 0 to |ips|
        invariant written == before + list[..n + 1 + k] && left == had - 1 - k
      {
        ListAt(clients, ips, n + 1 + k);
        ok := WriteNext(before, list, n + 1 + k, IP_INFO(ConfigOf(ips[k])));
        if !ok {
          return;
        }
      }
      ListAt(clients, ips, n + 1 + |ips|);
      ok := WriteNext(before, list, n + 1 + |ips|, ACK);
      assert list[..|list|] == list;
    }

    /** Writes the n-th message of the list. */
    method WriteNext(ghost before: seq<Packet>, ghost list: seq<Packet>, ghost n: nat, p: Packet) returns (ok: bool)
      requires n < |list| && list[n] == p && written == before + list[..n]
      modifies this
      ensures ok <==> old(left) > 0
      ensures if ok then written == before + list[..n + 1] && left == old(left) - 1
              else written == before + list[..n] && left == 0
    {
      ok := WriteMsg(p);
      assert list[..n] + [p] == list[..n + 1];
    }
  }

  // ------------------------------------------------------------- the parser

  function Next(inbox: seq<Packet>): Reading {
    if inbox == [] then Breaks else Brings(inbox[0])
  }

  function Tail(inbox: seq<Packet>): seq<Packet> {
    if inbox == [] then [] else inbox[1..]
  }

  /** The first loop of start, from a client state and what is to be read. */
  function PeerLoop(c: Client, inbox: seq<Packet>): (r: (Client, seq<SystemInfo>, seq<Packet>, Result))
    decreases |inbox|
  {
    var (c1, result) := After(c, Call.RetrievePeerInfo(Next(inbox)));
    if result.Info? && inbox != [] then
      var (c2, peers, rest, end) := PeerLoop(c1, inbox[1..]);
      (c2, [result.si] + peers, rest, end)
    else (c1, [], if result == WrongState then inbox else Tail(inbox), result)
  }

  /** The second loop of start. */
  function BlockLoop(c: Client, inbox: seq<Packet>): (r: (Client, seq<IpConfig>, seq<Packet>, Result))
    decreases |inbox|
  {
    var (c1, result) := After(c, Call.RetrieveIpConfig(Next(inbox)));
    if result.Config? && inbox != [] then
      var (c2, blocks, rest, end) := BlockLoop(c1, inbox[1..]);
      (c2, [result.ip] + blocks, rest, end)
    else (c1, [], if result == WrongState then inbox else Tail(inbox), result)
  }

  lemma {:induction false} PeersReadBack(c: Client, clients: seq<SystemInfo>, rest: seq<Packet>)
    requires c.state == COMMITTED
    ensures PeerLoop(c, Infos(clients) + [ACK] + rest) == (c.(state := PEER_INFO_RECEIVED), clients, rest, NoMore)
  {
    var inbox := Infos(clients) + [ACK] + rest;
    if clients == [] {
      assert inbox[0] == ACK && inbox[1..] == rest;
    } else {
      assert inbox[0] == SYSTEM_INFO(clients[0]);
      assert inbox[1..] == Infos(clients[1..]) + [ACK] + rest;
      PeersReadBack(c, clients[1..], rest);
      assert [clients[0]] + clients[1..] == clients;
    }
  }

  lemma {:induction false} BlocksReadBack(c: Client, ips: seq<IpInfo>, rest: seq<Packet>)
    requires c.state == PEER_INFO_RECEIVED
    ensures BlockLoop(c, Blocks(ips) + [ACK] + rest) == (c.(state := STARTED), Configs(ips), rest, NoMore)
  {
    var inbox := Blocks(ips) + [ACK] + rest;
    if ips == [] {
      assert inbox[0] == ACK && inbox[1..] == rest;
    } else {
      assert inbox[0] == IP_INFO(ConfigOf(ips[0]));
      assert inbox[1..] == Blocks(ips[1..]) + [ACK] + rest;
      BlocksReadBack(c, ips[1..], rest);
    }
  }

  /** Where the first loop stops: at the first message that is no client, with the
      clients up to there. */
  lemma {:induction false} PeersStopAt(c: Client, clients: seq<SystemInfo>, rest: seq<Packet>)
    requires c.state == COMMITTED && c.open && (rest != [] ==> !rest[0].SYSTEM_INFO?)
    ensures var (c', found, left, r) := PeerLoop(c, Infos(clients) + rest);
            && found == clients && left == Tail(rest)
            && (r == NoMore <==> rest != [] && rest[0] == ACK)
            && (forall text :: r == Rejected(text) <==> rest != [] && rest[0] == ERROR(text))
            && (r == IoError <==> rest == [])
            && (r == NoMore || r.Rejected? || r == IoError || r == Unexpected)
            && (r != NoMore ==> Gone(c'))
  {
    PeerOutcome(c, Next(Infos(clients) + rest));
    if clients == [] {
      assert Infos(clients) + rest == rest;
    } else {
      assert (Infos(clients) + rest)[1..] == Infos(clients[1..]) + rest;
      PeersStopAt(c, clients[1..], rest);
      assert [clients[0]] + clients[1..] == clients;
    }
  }

  /** And the second one, which a block of an unknown type stops without a
      disconnection. */
  lemma {:induction false} BlocksStopAt(c: Client, ips: seq<IpInfo>, rest: seq<Packet>)
    requires c.state == PEER_INFO_RECEIVED && c.open && (rest != [] ==> !rest[0].IP_INFO?)
    ensures var (c', found, left, r) := BlockLoop(c, Blocks(ips) + rest);
            && found == Configs(ips) && left == Tail(rest)
            && (r == NoMore <==> rest != [] && rest[0] == ACK)
            && (r == UnknownType <==> rest != [] && rest[0] == ODD_IP_INFO)
            && (forall text :: r == Rejected(text) <==> rest != [] && rest[0] == ERROR(text))
            && (r == IoError <==> rest == [])
            && (r == NoMore || r == UnknownType || r.Rejected? || r == IoError || r == Unexpected)
            && (r == UnknownType ==> c' == c) && (r != NoMore && r != UnknownType ==> Gone(c'))
  {
    ConfigOutcome(c, Next(Blocks(ips) + rest));
    if ips == [] {
      assert Blocks(ips) + rest == rest;
    } else {
      assert (Blocks(ips) + rest)[1..] == Blocks(ips[1..]) + rest;
      BlocksStopAt(c, ips[1..], rest);
    }
  }

  /** What the router's commit writes, the bridge's commitIp and start read back:
      the client list and the block list in order; the client ends in STARTED and
      has read those messages and no more. */
  lemma RoundTrip(c: Client, clients: seq<SystemInfo>, ips: seq<IpInfo>, rest: seq<Packet>)
    requires c.state == CONNECTED
    ensures var inbox := CommitMessages(clients, ips) + rest;
            var (c1, r1) := After(c, Call.CommitIp(true, Next(inbox)));
            var (c2, peers, inbox2, r2) := PeerLoop(c1, Tail(inbox));
            var (c3, blocks, inbox3, r3) := BlockLoop(c2, inbox2);
            && r1 == Ok && r2 == NoMore && r3 == NoMore
            && peers == clients && blocks == Configs(ips)
            && c3 == c.(state := STARTED, sent := c.sent + [COMMIT]) && inbox3 == rest
  {
    var inbox := CommitMessages(clients, ips) + rest;
    var after := Blocks(ips) + [ACK] + rest;
    assert inbox[0] == ACK;
    assert inbox[1..] == Infos(clients) + [ACK] + after;
    PeersReadBack(c.(state := COMMITTED, sent := c.sent + [COMMIT]), clients, after);
    BlocksReadBack(c.(state := PEER_INFO_RECEIVED, sent := c.sent + [COMMIT]), ips, rest);
  }

  lemma {:induction false} ConfigsAt(ips: seq<IpInfo>, k: nat)
    requires k < |ips|
    ensures Configs(ips)[k] == ConfigOf(ips[k]) && SameBlock(Configs(ips)[k], ips[k])
  {
    if ips[1..] != [] {
      ConfigsAt(ips[1..], if k > 0 then k - 1 else 0);
    }
  }

  /** The bridge while it starts. */
  class StartingBridge {
    const client: RouterClient
    var peers: seq<SystemInfo>
    var ipBlocks: seq<IpConfig>
    var inbox: seq<Packet>

    constructor (client: RouterClient, inbox: seq<Packet>)
      ensures this.client == client && this.inbox == inbox && peers == [] && ipBlocks == []
    {
      this.client, this.inbox, peers, ipBlocks := client, inbox, [], [];
    }

    /** Takes a message off the connection, unless the call has read nothing. */
    method Consume(result: Result)
      modifies this`inbox
      ensures inbox == if result == WrongState then old(inbox) else Tail(old(inbox))
    {
      if result != WrongState && inbox != [] {
        inbox := inbox[1..];
      }
    }

    /** disconnect: the block list goes, the peers stay. */
    method Drop()
      modifies this`ipBlocks, client
      ensures client.View() == old(client.View()).Disconnected() && ipBlocks == []
    {
      client.Disconnect();
      ipBlocks := [];
    }

    /** The first loop of start. */
    method ReadPeers() returns (result: Result)
      modifies this`inbox, this`peers, client
      ensures var (c1, found, rest, end) := PeerLoop(old(client.View()), old(inbox));
              client.View() == c1 && peers == old(peers) + found && inbox == rest && result == end
    {
      ghost var whole := PeerLoop(client.View(), inbox);
      ghost var got: seq<SystemInfo> := [];
      assert got + whole.1 == whole.1;
      while true
        invariant var (c1, found, rest, end) := PeerLoop(client.View(), inbox);
                  whole == (c1, got + found, rest, end)
        invariant peers == old(peers) + got
        decreases |inbox|
      {
        result := client.RetrievePeerInfo(Next(inbox));
        Consume(result);
        if !result.Info? {
          return;
        }
        assert forall found: seq<SystemInfo> :: got + ([result.si] + found) == (got + [result.si]) + found;
        got := got + [result.si];
        peers := peers + [result.si];
      }
    }

    /** The second loop of start. */
    method ReadBlocks() returns (result: Result)
      modifies this`inbox, this`ipBlocks, client
      ensures var (c2, found, rest, end) := BlockLoop(old(client.View()), old(inbox));
              client.View() == c2 && ipBlocks == old(ipBlocks) + found && inbox == rest && result == end
    {
      ghost var whole := BlockLoop(client.View(), inbox);
      ghost var got: seq<IpConfig> := [];
      assert got + whole.1 == whole.1;
      while true
        invariant var (c2, found, rest, end) := BlockLoop(client.View(), inbox);
                  whole == (c2, got + found, rest, end)
        invariant ipBlocks == old(ipBlocks) + got
        decreases |inbox|
      {
        result := client.RetrieveIpConfig(Next(inbox));
        Consume(result);
        if !result.Config? {
          return;
        }
        assert forall found: seq<IpConfig> :: got + ([result.ip] + found) == (got + [result.ip]) + found;
        got := got + [result.ip];
        ipBlocks := ipBlocks + [result.ip];
      }
    }

    /** Both loops; an error in either disconnects. */
    method Start() returns (result: Result)
      modifies this, client
      ensures var (c1, found, rest, end) := PeerLoop(old(client.View()), old(inbox));
              && peers == old(peers) + found
              && if end != NoMore then
                   result == end && ipBlocks == [] && client.View() == c1.Disconnected() && inbox == rest
                 else
                   var (c2, blocks, rest2, end2) := BlockLoop(c1, rest);
                   && inbox == rest2
                   && if end2 != NoMore then result == end2 && ipBlocks == [] && client.View() == c2.Disconnected()
                      else result == Ok && ipBlocks == old(ipBlocks) + blocks && client.View() == c2
    {
      result := ReadPeers();
      if result != NoMore {
        Drop();
        return;
      }
      result := ReadBlocks();
      if result != NoMore {
        Drop();
        return;
      }
      result := Ok;
    }
  }
}
