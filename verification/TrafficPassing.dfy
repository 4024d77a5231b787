/** The traffic between a client and the router's goroutines: what the one sends
    the other gets, whole and in order, in every run of the composed handshake. */
module TrafficPassing {
  import opened Wire
  import opened RouterClient
  import opened Handshake
  import opened Phases

  // ---------------------------------------------------------------- histories

  /** What the router's goroutine is given for client c. */
  function DeliveredBy(a: Act, c: nat): seq<Msg> { if a.Deliver? && a.c == c then [a.m] else [] }

  /** What the call of client c hands to its caller. */
  function Handed(s: Side): seq<Msg> {
    match After(s.cl, CallOf(s, Next(s.down))).1
    case Transaction(t) => [TRANSACTION(t)]
    case Finished => [DONE]
    case _ => []
  }

  function ReceivedBy(w: World, a: Act, c: nat): seq<Msg>
    requires Enabled(w, a)
  {
    if a == Hear(c) then Handed(w.sides[c]) else []
  }

  /** What the caller of client c asks it to send. */
  function SpokenBy(a: Act, c: nat): seq<Msg> { if a.Talk? && a.c == c then [a.m] else [] }

  /** What the router's goroutine reads from client c. */
  function CollectedBy(w: World, a: Act, c: nat): seq<Packet>
    requires Enabled(w, a)
  {
    if a == Collect(c) then [w.sides[c].up[0]] else []
  }

  function Delivered(acts: seq<Act>, c: nat): seq<Msg> {
    if acts == [] then [] else DeliveredBy(acts[0], c) + Delivered(acts[1..], c)
  }

  function Spoken(acts: seq<Act>, c: nat): seq<Msg> {
    if acts == [] then [] else SpokenBy(acts[0], c) + Spoken(acts[1..], c)
  }

  ghost function Received(w: World, acts: seq<Act>, w': World, c: nat): seq<Msg>
    requires Run(w, acts, w')
    decreases acts
  {
    if acts == [] then [] else ReceivedBy(w, acts[0], c) + Received(Apply(w, acts[0]), acts[1..], w', c)
  }

  ghost function Collected(w: World, acts: seq<Act>, w': World, c: nat): seq<Packet>
    requires Run(w, acts, w')
    decreases acts
  {
    if acts == [] then [] else CollectedBy(w, acts[0], c) + Collected(Apply(w, acts[0]), acts[1..], w', c)
  }

  /** The traffic among the messages of a socket. */
  function Messages(ps: seq<Packet>): seq<Msg> {
    if ps == [] then [] else (if ps[0].TRAFFIC? then [ps[0].msg] else []) + Messages(ps[1..])
  }

  lemma {:induction false} MessagesAppend(ps: seq<Packet>, p: Packet)
    ensures Messages(ps + [p]) == Messages(ps) + if p.TRAFFIC? then [p.msg] else []
  {
    if ps == [] {
      assert ps + [p] == [p];
    } else {
      MessagesAppend(ps[1..], p);
      assert (ps + [p])[1..] == ps[1..] + [p];
    }
  }

  // --------------------------------------------------------- one action: down

  lemma OpeningHand(s: Side)
    requires s.cl.state != STARTED && s.down != []
    ensures Handed(s) == []
  {
  }

  lemma StartedHears(w: World, c: nat)
    requires WorldOk(w) && Enabled(w, Hear(c)) && w.sides[c].cl.state == STARTED
    ensures FromRouter(w.sides[c].down[0])
  {
    assert SideOk(w, c);
    Popped(w.sides[c].down, CommitMessages(w.infos, w.reg.ips), w.sides[c].heard, Written(w, c));
  }

  lemma OthersHear(w: World, c: nat)
    requires WorldOk(w) && Enabled(w, Hear(c)) && w.sides[c].cl.state != STARTED
    ensures !w.sides[c].down[0].TRAFFIC?
  {
    if w.pc.Refusing? {
      RefusedHears(w, c);
    } else {
      assert SideOk(w, c);
      NothingYet(w, c);
    }
  }

  /** A client that reads: traffic exactly as it came, and only when it has STARTED. */
  lemma HearHands(w: World, c: nat)
    requires WorldOk(w) && Enabled(w, Hear(c))
    ensures Messages(w.sides[c].down) == Handed(w.sides[c]) + Messages(w.sides[c].down[1..])
  {
    if w.sides[c].cl.state == STARTED {
      StartedHears(w, c);
    } else {
      OthersHear(w, c);
      OpeningHand(w.sides[c]);
    }
  }

  lemma RefusedHears(w: World, c: nat)
    requires WorldOk(w) && Enabled(w, Hear(c)) && w.pc.Refusing?
    ensures !w.sides[c].down[0].TRAFFIC?
  {
    assert SideOk(w, c);
  }

  lemma HeardDown(s: Side)
    requires s.down != []
    ensures Heard(s).down == s.down[1..] && Heard(s).up == s.up
  {
  }

  lemma ListIsNoTraffic(infos: seq<SystemInfo>, ips: seq<IpInfo>, k: nat)
    requires k < |CommitMessages(infos, ips)|
    ensures !CommitMessages(infos, ips)[k].TRAFFIC?
  {
    ListAt(infos, ips, k);
  }

  /** What an action of the router writes to client c. */
  lemma RouterWrites(w: World, a: Act, c: nat)
    requires WorldOk(w) && Enabled(w, a) && c < |w.sides| && (a.Shake? || a.Enlist? || a.Publish?)
    ensures Messages(Apply(w, a).sides[c].down) == Messages(w.sides[c].down)
  {
    assert SideOk(w, w.pc.i);
    var down, down' := w.sides[c].down, Apply(w, a).sides[c].down;
    if a.Publish? {
      ListIsNoTraffic(w.infos, w.reg.ips, w.pc.k);
    }
    if down' != down {
      var p := down'[|down|];
      assert down' == down + [p] && !p.TRAFFIC?;
      MessagesAppend(down, p);
    }
  }

  lemma StepDown(w: World, a: Act, c: nat)
    requires WorldOk(w) && Enabled(w, a) && c < |w.sides|
    ensures Messages(w.sides[c].down) + DeliveredBy(a, c) == ReceivedBy(w, a, c) + Messages(Apply(w, a).sides[c].down)
  {
    match a
    case Hear(b) =>
      HeardDown(w.sides[b]);
      if b == c {
        HearHands(w, c);
      }
    case Deliver(b, m) => MessagesAppend(w.sides[c].down, TRAFFIC(m));
    case Shake => RouterWrites(w, a, c);
    case Enlist => RouterWrites(w, a, c);
    case Publish => RouterWrites(w, a, c);
    case _ =>
  }

  // ----------------------------------------------------------- one action: up

  lemma AskWrites(s: Side)
    requires s.cl == FRESH || s.cl.state == CONNECTED
    ensures |Question(s)| == 1 && !Question(s)[0].TRAFFIC?
  {
  }

  lemma TalkWrites(s: Side, m: Msg)
    requires s.cl.state == STARTED
    ensures Talked(s, m).up == s.up + [TRAFFIC(m)]
  {
  }

  lemma AsksInOrder(w: World, c: nat)
    requires WorldOk(w) && Enabled(w, Ask(c))
    ensures w.sides[c].cl == FRESH || w.sides[c].cl.state == CONNECTED
  {
    assert SideOk(w, c);
  }

  /** What client c puts on its socket. */
  lemma ClientWrites(w: World, a: Act, c: nat)
    requires WorldOk(w) && Enabled(w, a) && (a == Ask(c) || (a.Talk? && a.c == c))
    ensures Messages(Apply(w, a).sides[c].up) == Messages(w.sides[c].up) + SpokenBy(a, c)
  {
    var s := w.sides[c];
    if a.Ask? {
      AsksInOrder(w, c);
      AskWrites(s);
      assert Question(s) == [Question(s)[0]];
      MessagesAppend(s.up, Question(s)[0]);
    } else {
      TalkWrites(s, a.m);
      MessagesAppend(s.up, TRAFFIC(a.m));
    }
  }

  /** What the router takes from a socket in its own turn. */
  lemma RouterReads(w: World, a: Act, c: nat)
    requires WorldOk(w) && Enabled(w, a) && c < |w.sides| && (a.Shake? || a.Enlist?)
    ensures Messages(Apply(w, a).sides[c].up) == Messages(w.sides[c].up)
  {
    assert SideOk(w, w.pc.i);
  }

  lemma CollectReads(w: World, c: nat)
    requires WorldOk(w) && Enabled(w, Collect(c))
    ensures w.sides[c].up[0].TRAFFIC?
    ensures Apply(w, Collect(c)).sides[c].up == w.sides[c].up[1..]
  {
    assert SideOk(w, c);
    assert w.sides[c].up[0] in w.sides[c].up;
  }

  lemma StepUp(w: World, a: Act, c: nat)
    requires WorldOk(w) && Enabled(w, a) && c < |w.sides|
    ensures Messages(w.sides[c].up) + SpokenBy(a, c)
         == Messages(CollectedBy(w, a, c)) + Messages(Apply(w, a).sides[c].up)
    ensures forall p :: p in CollectedBy(w, a, c) ==> p.TRAFFIC?
  {
    match a
    case Ask(b) => if b == c { ClientWrites(w, a, c); }
    case Talk(b, _) => if b == c { ClientWrites(w, a, c); }
    case Hear(b) => HeardDown(w.sides[b]);
    case Shake => RouterReads(w, a, c);
    case Enlist => RouterReads(w, a, c);
    case Collect(b) => CollectReads(w, b);
    case _ =>
  }

  // ---------------------------------------------------------------- theorems

  lemma Chain(before: seq<Msg>, in0: seq<Msg>, ins: seq<Msg>, out0: seq<Msg>, between: seq<Msg>, outs: seq<Msg>,
              after: seq<Msg>)
    requires before + in0 == out0 + between && between + ins == outs + after
    ensures before + (in0 + ins) == (out0 + outs) + after
  {
    assert before + (in0 + ins) == (before + in0) + ins;
    assert (out0 + between) + ins == out0 + (between + ins);
    assert out0 + (outs + after) == (out0 + outs) + after;
  }

  lemma {:induction false} RunDown(w: World, acts: seq<Act>, w': World, c: nat)
    requires WorldOk(w) && Run(w, acts, w') && c < |w.sides|
    ensures |w'.sides| == |w.sides|
    ensures Messages(w.sides[c].down) + Delivered(acts, c) == Received(w, acts, w', c) + Messages(w'.sides[c].down)
    decreases acts
  {
    if acts != [] {
      var w1 := Apply(w, acts[0]);
      ApplyOk(w, acts[0]);
      ApplyKeepsClients(w, acts[0]);
      StepDown(w, acts[0], c);
      RunDown(w1, acts[1..], w', c);
      Chain(Messages(w.sides[c].down), DeliveredBy(acts[0], c), Delivered(acts[1..], c), ReceivedBy(w, acts[0], c),
            Messages(w1.sides[c].down), Received(w1, acts[1..], w', c), Messages(w'.sides[c].down));
    }
  }

  lemma {:induction false} RunUp(w: World, acts: seq<Act>, w': World, c: nat)
    requires WorldOk(w) && Run(w, acts, w') && c < |w.sides|
    ensures |w'.sides| == |w.sides|
    ensures Messages(w.sides[c].up) + Spoken(acts, c)
         == Messages(Collected(w, acts, w', c)) + Messages(w'.sides[c].up)
    ensures forall p :: p in Collected(w, acts, w', c) ==> p.TRAFFIC?
    decreases acts
  {
    if acts != [] {
      var w1 := Apply(w, acts[0]);
      ApplyOk(w, acts[0]);
      ApplyKeepsClients(w, acts[0]);
      StepUp(w, acts[0], c);
      RunUp(w1, acts[1..], w', c);
      var read, rest := CollectedBy(w, acts[0], c), Collected(w1, acts[1..], w', c);
      MessagesOfFirst(read, rest);
      Chain(Messages(w.sides[c].up), SpokenBy(acts[0], c), Spoken(acts[1..], c), Messages(read),
            Messages(w1.sides[c].up), Messages(rest), Messages(w'.sides[c].up));
    }
  }

  lemma MessagesOfFirst(first: seq<Packet>, rest: seq<Packet>)
    requires |first| <= 1
    ensures Messages(first + rest) == Messages(first) + Messages(rest)
  {
    if first == [] {
      assert first + rest == rest;
    } else {
      assert (first + rest)[1..] == rest;
    }
  }

  lemma EmptyAtFirst(w: World, c: nat)
    requires Init(w) && c < |w.sides|
    ensures Messages(w.sides[c].up) == [] && Messages(w.sides[c].down) == []
  {
  }

  lemma NothingBefore(a: seq<Msg>, b: seq<Msg>)
    requires [] + a == b
    ensures a == b
  {
  }

  /** In every run, for every client: what its calls have handed to their caller is,
      item by item and in order, what the router's goroutine was given for it; what
      is missing is still on the socket. */
  lemma ClientReceivesWhatWasDelivered(w: World, acts: seq<Act>, w': World, c: nat)
    requires Init(w) && Run(w, acts, w') && c < |w.sides|
    ensures |w'.sides| == |w.sides|
    ensures Delivered(acts, c) == Received(w, acts, w', c) + Messages(w'.sides[c].down)
  {
    InitOk(w);
    RunDown(w, acts, w', c);
    EmptyAtFirst(w, c);
    NothingBefore(Delivered(acts, c), Received(w, acts, w', c) + Messages(w'.sides[c].down));
  }

  /** And the other way: what the router's goroutine has read is traffic only, and
      is what the client was asked to send, in order; what is missing is still on
      the socket. */
  lemma RouterCollectsWhatWasSaid(w: World, acts: seq<Act>, w': World, c: nat)
    requires Init(w) && Run(w, acts, w') && c < |w.sides|
    ensures |w'.sides| == |w.sides|
    ensures forall p :: p in Collected(w, acts, w', c) ==> p.TRAFFIC?
    ensures Spoken(acts, c) == Messages(Collected(w, acts, w', c)) + Messages(w'.sides[c].up)
  {
    InitOk(w);
    RunUp(w, acts, w', c);
    EmptyAtFirst(w, c);
    NothingBefore(Spoken(acts, c), Messages(Collected(w, acts, w', c)) + Messages(w'.sides[c].up));
  }
}
