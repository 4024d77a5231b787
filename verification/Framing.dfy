/** Framing: a message is sent as its length, eight bytes in little-endian order,
    and its bytes; reads and writes may move fewer bytes than asked for. */
module Framing {
  import opened Wire

  // ----------------------------------------------------------- the encoding

  /** The number in little-endian order, in w bytes. */
  function LittleEndian(n: nat, w: nat): (r: seq<byte>)
    ensures |r| == w
  {
    if w == 0 then [] else [n % 256] + LittleEndian(n / 256, w - 1)
  }

  function FromLittleEndian(bs: seq<byte>): nat {
    if bs == [] then 0 else bs[0] + 256 * FromLittleEndian(bs[1..])
  }

  function Pow256(w: nat): (r: nat)
    ensures r > 0
  {
    if w == 0 then 1 else 256 * Pow256(w - 1)
  }

  lemma {:induction false} LittleEndianInverse(n: nat, w: nat)
    requires n < Pow256(w)
    ensures FromLittleEndian(LittleEndian(n, w)) == n
  {
    if w > 0 {
      LittleEndianInverse(n / 256, w - 1);
      assert LittleEndian(n, w)[1..] == LittleEndian(n / 256, w - 1);
    }
  }

  /** The j-th byte is the j-th digit to the base 256, the lowest first. */
  lemma {:induction false} DigitAt(n: nat, w: nat, j: nat)
    requires j < w
    ensures LittleEndian(n, w)[j] == (n / Pow256(j)) % 256
  {
    if j > 0 {
      DigitAt(n / 256, w - 1, j - 1);
      DivDiv(n, Pow256(j - 1));
    }
  }

  lemma DivDiv(n: nat, p: nat)
    requires p > 0
    ensures 256 * p > 0 && (n / 256) / p == n / (256 * p)
  {
    var q := n / (256 * p);
    var r := n % (256 * p);
    assert n == (q * p) * 256 + r;
    assert n / 256 == q * p + r / 256;
    assert r / 256 < p;
    QuotientIs(n / 256, p, q, r / 256);
  }

  lemma Monotone(a: int, b: int, p: nat)
    requires a <= b
    ensures a * p <= b * p
  {
  }

  /** Division with remainder has one answer. */
  lemma QuotientIs(n: nat, p: nat, q: nat, r: nat)
    requires p > 0 && n == q * p + r && r < p
    ensures n / p == q
  {
    var d := n / p;
    assert n == d * p + n % p;
    if d < q {
      Monotone(d + 1, q, p);
    }
    if q < d {
      Monotone(q + 1, d, p);
    }
  }

  lemma LengthInverse(n: nat)
    requires n < TWO64
    ensures FromLittleEndian(LittleEndian(n, 8)) == n
  {
    Pow8();
    LittleEndianInverse(n, 8);
  }

  lemma Pow8()
    ensures Pow256(8) == TWO64
  {
    assert Pow256(2) == 0x1_0000;
    assert Pow256(4) == 0x1_0000_0000 by { assert Pow256(3) == 256 * Pow256(2); }
    assert Pow256(6) == 0x1_0000_0000_0000 by { assert Pow256(5) == 256 * Pow256(4); }
    assert Pow256(8) == TWO64 by { assert Pow256(7) == 256 * Pow256(6); }
  }

  function Frame(msg: seq<byte>): seq<byte> {
    LittleEndian(|msg|, 8) + msg
  }

  /** A frame: eight digits of the length, the lowest first, and then the message. */
  lemma FrameLayout(msg: seq<byte>, j: nat)
    requires j < 8 + |msg|
    ensures |Frame(msg)| == 8 + |msg|
    ensures Frame(msg)[j] == if j < 8 then (|msg| / Pow256(j)) % 256 else msg[j - 8]
  {
    if j < 8 {
      DigitAt(|msg|, 8, j);
    }
  }

  function Frames(msgs: seq<seq<byte>>): seq<byte> {
    if msgs == [] then [] else Frame(msgs[0]) + Frames(msgs[1..])
  }

  /** The first message of a stream and what follows it, if it is all there. */
  function Parse(input: seq<byte>): Option<(seq<byte>, seq<byte>)> {
    if |input| < 8 then None
    else
      var size := FromLittleEndian(input[..8]);
      if |input| < 8 + size then None else Some((input[8..8 + size], input[8 + size..]))
  }

  /** A frame is read back whole, whatever comes after it. */
  lemma ParseInverse(msg: seq<byte>, rest: seq<byte>)
    requires |msg| < TWO64
    ensures Parse(Frame(msg) + rest) == Some((msg, rest))
  {
    var input := Frame(msg) + rest;
    assert input[..8] == LittleEndian(|msg|, 8);
    LengthInverse(|msg|);
    assert input[8..8 + |msg|] == msg;
    assert input[8 + |msg|..] == rest;
  }

  lemma LowestDigit(b: byte, n: nat)
    ensures (b + 256 * n) % 256 == b && (b + 256 * n) / 256 == n
  {
  }

  lemma {:induction false} DigitsInverse(bs: seq<byte>)
    ensures FromLittleEndian(bs) < Pow256(|bs|)
    ensures LittleEndian(FromLittleEndian(bs), |bs|) == bs
  {
    if bs != [] {
      DigitsInverse(bs[1..]);
      LowestDigit(bs[0], FromLittleEndian(bs[1..]));
      assert bs == [bs[0]] + bs[1..];
    }
  }

  /** What is read is what has been framed, and nothing else is read: a stream gives
      a message exactly when it begins with the frame of that message. */
  lemma ParseExactlyWhen(input: seq<byte>, msg: seq<byte>, rest: seq<byte>)
    ensures Parse(input) == Some((msg, rest)) <==> |msg| < TWO64 && input == Frame(msg) + rest
  {
    if Parse(input) == Some((msg, rest)) {
      DigitsInverse(input[..8]);
      Pow8();
      assert input == input[..8] + input[8..8 + |msg|] + input[8 + |msg|..];
    } else if |msg| < TWO64 && input == Frame(msg) + rest {
      ParseInverse(msg, rest);
    }
  }

  function ParseAll(input: seq<byte>, n: nat): Option<(seq<seq<byte>>, seq<byte>)> {
    if n == 0 then Some(([], input))
    else
      match Parse(input)
      case None => None
      case Some((msg, rest)) =>
        match ParseAll(rest, n - 1)
        case None => None
        case Some((msgs, end)) => Some(([msg] + msgs, end))
  }

  /** A list of messages is read back, in order, and the stream is left at the
      boundary behind the last one. */
  lemma {:induction false} FramesInverse(msgs: seq<seq<byte>>, rest: seq<byte>)
    requires forall m :: m in msgs ==> |m| < TWO64
    ensures ParseAll(Frames(msgs) + rest, |msgs|) == Some((msgs, rest))
  {
    if msgs != [] {
      assert Frames(msgs) + rest == Frame(msgs[0]) + (Frames(msgs[1..]) + rest);
      ParseInverse(msgs[0], Frames(msgs[1..]) + rest);
      FramesInverse(msgs[1..], rest);
      assert [msgs[0]] + msgs[1..] == msgs;
    } else {
      assert Frames(msgs) + rest == rest;
    }
  }

  // ----------------------------------------------------------------- sockets

  /** A connected socket.
      input   the bytes that the peer has sent or will send before it closes
      output  the bytes written so far
      faulty  an operation may fail
      cut     how many of the eight bytes of a length move at once */
  class Socket {
    var input: seq<byte>
    var output: seq<byte>
    const faulty: bool
    const cut: nat

    constructor (input: seq<byte>, faulty: bool, cut: nat)
      requires 1 <= cut <= 8
      ensures this.input == input && output == [] && this.faulty == faulty && this.cut == cut
    {
      this.input, this.output, this.faulty, this.cut := input, [], faulty, cut;
    }

    predicate Valid() { 1 <= cut <= 8 }

    /** How many bytes the first read of a length brings. */
    function Head(): nat
      reads this
    {
      if cut <= |input| then cut else |input|
    }

    /** read(2): some bytes into the buffer at `at`; 0 at the end of the stream.
        `header` says that a length is being read. */
    method Read(buffer: array<byte>, at: nat, n: nat, header: bool) returns (rd: int)
      requires Valid() && at + n <= buffer.Length && n > 0
      modifies this`input, buffer
      ensures -1 <= rd <= n && rd <= |old(input)|
      ensures rd == -1 ==> faulty && input == old(input) && buffer[..] == old(buffer[..])
      ensures rd == 0 <==> rd != -1 && old(input) == []
      ensures rd >= 0 ==> input == old(input)[rd..]
      ensures rd >= 0 ==> buffer[..] == old(buffer[..at]) + old(input)[..rd] + old(buffer[at + rd..])
      ensures header && n == 8 && rd != -1 ==> rd == old(Head())
    {
      var fails: bool := *;
      if faulty && fails {
        return -1;
      }
      if input == [] {
        return 0;
      }
      var most := if n <= |input| then n else |input|;
      var some: nat :| 1 <= some <= most;
      rd := if header && n == 8 then Head() else some;
      forall k | 0 <= k < rd {
        buffer[at + k] := input[k];
      }
      input := input[rd..];
    }

    /** write(2): some bytes of the buffer from `at` on. */
    method Write(buffer: array<byte>, at: nat, n: nat, header: bool) returns (written: int)
      requires Valid() && at + n <= buffer.Length && n > 0
      modifies this`output
      ensures written == -1 || 1 <= written <= n
      ensures written == -1 ==> faulty && output == old(output)
      ensures written > 0 ==> output == old(output) + buffer[at..at + written]
      ensures header && n == 8 && written != -1 ==> written == cut
    {
      var fails: bool := *;
      if faulty && fails {
        return -1;
      }
      var some: nat :| 1 <= some <= n;
      written := if header && n == 8 then cut else some;
      output := output + buffer[at..at + written];
    }
  }

  method ToArray(s: seq<byte>) returns (a: array<byte>)
    ensures fresh(a) && a[..] == s
  {
    a := new byte[|s|];
    for k := 0 to |s|
      invariant a[..k] == s[..k]
    {
      a[k] := s[k];
    }
  }

  /** The socket stands between frames, or inside one that could not be finished. */
  ghost predicate Unfinished(before: seq<byte>, msg: seq<byte>, after: seq<byte>) {
    exists k :: 0 <= k <= |Frame(msg)| && after == before + Frame(msg)[..k]
  }

  lemma FrameHead(msg: seq<byte>)
    ensures |Frame(msg)| == 8 + |msg| && Frame(msg)[..0] == [] && Frame(msg)[..8] == LittleEndian(|msg|, 8)
    ensures Frame(msg)[..8 + |msg|] == Frame(msg)
  {
  }

  /** The next part of the message. */
  lemma FramePart(msg: seq<byte>, ptr: nat, n: nat)
    requires ptr + n <= |msg|
    ensures |Frame(msg)| == 8 + |msg|
    ensures Frame(msg)[..8 + ptr] + msg[ptr..ptr + n] == Frame(msg)[..8 + ptr + n]
  {
  }

  // --------------------------------------------------------- the two writers

  /** writeToSocket: the length in one write or not at all, then the rest. */
  method WriteToSocket(sock: Socket, buffer: array<byte>) returns (result: int)
    requires sock.Valid() && buffer.Length < TWO64
    modifies sock`output
    ensures result == 0 || result == -1
    ensures result == 0 ==> sock.output == old(sock.output) + Frame(buffer[..])
    ensures result == -1 ==> Unfinished(old(sock.output), buffer[..], sock.output)
    ensures !sock.faulty ==> (result == 0 <==> sock.cut == 8)
  {
    var size := buffer.Length;
    var sz := ToArray(LittleEndian(size, 8));
    ghost var frame := Frame(buffer[..]);
    FrameHead(buffer[..]);
    var head := sock.Write(sz, 0, 8, true);
    if head != 8 {
      ghost var k := if head == -1 then 0 else head;
      assert sock.output == old(sock.output) + frame[..k];
      return -1;
    }
    var ptr := 0;
    while size > 0
      invariant 0 <= ptr && 0 <= size && ptr + size == buffer.Length
      invariant sock.output == old(sock.output) + frame[..8 + ptr]
    {
      var written := sock.Write(buffer, ptr, size, false);
      if written == -1 {
        return -1;
      }
      FramePart(buffer[..], ptr, written);
      assert buffer[..][ptr..ptr + written] == buffer[ptr..ptr + written];
      size := size - written;
      ptr := ptr + written;
    }
    return 0;
  }

  /** io.Copy from a buffer: writes until all is written. */
  method Copy(sock: Socket, buffer: array<byte>) returns (ok: bool)
    requires sock.Valid()
    modifies sock`output
    ensures ok ==> sock.output == old(sock.output) + buffer[..]
    ensures !ok ==> sock.faulty && exists k :: 0 <= k <= buffer.Length && sock.output == old(sock.output) + buffer[..k]
  {
    var ptr := 0;
    while ptr < buffer.Length
      invariant 0 <= ptr <= buffer.Length
      invariant sock.output == old(sock.output) + buffer[..ptr]
    {
      var written := sock.Write(buffer, ptr, buffer.Length - ptr, false);
      if written == -1 {
        return false;
      }
      assert buffer[..ptr] + buffer[ptr..ptr + written] == buffer[..ptr + written];
      ptr := ptr + written;
    }
    assert buffer[..ptr] == buffer[..];
    return true;
  }

  /** writeMsg: the length and the message, each with io.Copy. */
  method WriteMsg(sock: Socket, msg: array<byte>) returns (ok: bool)
    requires sock.Valid() && msg.Length < TWO64
    modifies sock`output
    ensures ok ==> sock.output == old(sock.output) + Frame(msg[..])
    ensures !ok ==> sock.faulty && Unfinished(old(sock.output), msg[..], sock.output)
  {
    var sizeArr := ToArray(LittleEndian(msg.Length, 8));
    ghost var frame := Frame(msg[..]);
    ok := Copy(sock, sizeArr);
    if !ok {
      ghost var k :| 0 <= k <= 8 && sock.output == old(sock.output) + sizeArr[..k];
      assert frame[..k] == sizeArr[..k];
      return;
    }
    ghost var between := sock.output;
    ok := Copy(sock, msg);
    if !ok {
      ghost var k :| 0 <= k <= msg.Length && sock.output == between + msg[..k];
      assert frame[..8 + k] == sizeArr[..] + msg[..k];
      assert sock.output == old(sock.output) + frame[..8 + k];
    }
  }

  // --------------------------------------------------------- the two readers

  /** Spinning: readFromSocket has met the end of the stream inside a message;
      each further read returns 0 and the loop goes on for ever. */
  datatype Received = Got(msg: seq<byte>) | Failed | Spinning

  /** readFromSocket: eight bytes in one read, or it fails, even if the message is
      all there; then a loop until the buffer is full. */
  method ReadFromSocket(sock: Socket) returns (r: Received)
    requires sock.Valid()
    modifies sock`input
    ensures r.Got? ==> Parse(old(sock.input)) == Some((r.msg, sock.input))
    ensures r.Spinning? ==> Parse(old(sock.input)).None? && |old(sock.input)| >= 8 && sock.input == []
    ensures !sock.faulty ==>
              if old(sock.Head()) < 8 then r.Failed?
              else
                match Parse(old(sock.input))
                case Some((msg, rest)) => r == Got(msg) && sock.input == rest
                case None => r.Spinning?
  {
    ghost var all := sock.input;
    var header := new byte[8];
    var head := sock.Read(header, 0, 8, true);
    if head != 8 {
      return Failed;
    }
    assert header[..] == all[..8];
    var size := FromLittleEndian(header[..]);
    ghost var total := size;
    var buffer := new byte[size];
    var ptr := 0;
    while size > 0
      invariant fresh(buffer) && buffer.Length == total && 0 <= ptr && 0 <= size && ptr + size == total
      invariant 8 + ptr <= |all| && sock.input == all[8 + ptr..]
      invariant buffer[..ptr] == all[8..8 + ptr]
      decreases size
    {
      ghost var before := buffer[..ptr];
      var rd := sock.Read(buffer, ptr, size, false);
      if rd == -1 {
        return Failed;
      }
      if rd == 0 {
        return Spinning;
      }
      assert buffer[..ptr + rd] == before + all[8 + ptr..8 + ptr + rd];
      assert all[8..8 + ptr + rd] == all[8..8 + ptr] + all[8 + ptr..8 + ptr + rd];
      size := size - rd;
      ptr := ptr + rd;
    }
    assert buffer[..] == buffer[..ptr];
    return Got(buffer[..]);
  }

  /** io.ReadFull: reads until the buffer is full or the stream ends. */
  method ReadFull(sock: Socket, buffer: array<byte>) returns (ok: bool)
    requires sock.Valid()
    modifies sock`input, buffer
    ensures ok ==> |old(sock.input)| >= buffer.Length
    ensures ok ==> buffer[..] == old(sock.input)[..buffer.Length] && sock.input == old(sock.input)[buffer.Length..]
    ensures !sock.faulty ==> (ok <==> |old(sock.input)| >= buffer.Length)
  {
    ghost var all := sock.input;
    var ptr := 0;
    while ptr < buffer.Length
      invariant 0 <= ptr <= buffer.Length && ptr <= |all| && sock.input == all[ptr..]
      invariant buffer[..ptr] == all[..ptr]
    {
      var rd := sock.Read(buffer, ptr, buffer.Length - ptr, false);
      if rd <= 0 {
        return false;
      }
      assert buffer[..ptr + rd] == all[..ptr] + all[ptr..ptr + rd];
      ptr := ptr + rd;
    }
    assert buffer[..] == buffer[..ptr];
    return true;
  }

  /** readMsg: the length, then the message, each with io.ReadFull. */
  method ReadMsg(sock: Socket) returns (r: Received)
    requires sock.Valid()
    modifies sock`input
    ensures r.Got? ==> Parse(old(sock.input)) == Some((r.msg, sock.input))
    ensures !r.Spinning?
    ensures !sock.faulty ==>
              match Parse(old(sock.input))
              case Some((msg, rest)) => r == Got(msg) && sock.input == rest
              case None => r.Failed?
  {
    ghost var all := sock.input;
    var sizeArr := new byte[8];
    var ok := ReadFull(sock, sizeArr);
    if !ok {
      return Failed;
    }
    assert sizeArr[..] == all[..8];
    var size := FromLittleEndian(sizeArr[..]);
    var msg := new byte[size];
    ok := ReadFull(sock, msg);
    if !ok {
      return Failed;
    }
    assert all[8..][..size] == all[8..8 + size] && all[8..][size..] == all[8 + size..];
    return Got(msg[..]);
  }

  // ------------------------------------------------------------- round trips

  lemma NextFrame(msgs: seq<seq<byte>>, k: nat, rest: seq<byte>)
    requires k < |msgs| && |msgs[k]| < TWO64
    ensures Parse(Frames(msgs[k..]) + rest) == Some((msgs[k], Frames(msgs[k + 1..]) + rest))
  {
    assert msgs[k..][1..] == msgs[k + 1..];
    assert Frames(msgs[k..]) + rest == Frame(msgs[k]) + (Frames(msgs[k + 1..]) + rest);
    ParseInverse(msgs[k], Frames(msgs[k + 1..]) + rest);
  }

  /** Whatever the splitting into reads, the bridge's reader gets back the list of
      messages that either writer has sent, and stops at the boundary behind it. */
  method BridgeReceivesAll(sock: Socket, ghost msgs: seq<seq<byte>>, ghost rest: seq<byte>, n: nat)
      returns (got: seq<seq<byte>>)
    requires n == |msgs| && (forall m :: m in msgs ==> |m| < TWO64)
    requires sock.input == Frames(msgs) + rest && !sock.faulty && sock.cut == 8
    modifies sock`input
    ensures got == msgs && sock.input == rest
  {
    got := [];
    for k := 0 to n
      invariant got == msgs[..k] && sock.input == Frames(msgs[k..]) + rest
    {
      NextFrame(msgs, k, rest);
      var r := ReadFromSocket(sock);
      got := got + [r.msg];
    }
  }

  /** A length that comes in two pieces is fatal to the bridge's reader, and only to
      it: for the next message of the same stream the one fails exactly when the
      length is cut, and the other gets the message. */
  method CutLength(bridge: Socket, router: Socket, ghost msg: seq<byte>, ghost rest: seq<byte>)
      returns (b: Received, r: Received)
    requires |msg| < TWO64 && bridge.input == router.input == Frame(msg) + rest
    requires bridge != router && !bridge.faulty && !router.faulty && bridge.Valid() && router.Valid()
    modifies bridge`input, router`input
    ensures b == if bridge.cut < 8 then Failed else Got(msg)
    ensures r == Got(msg) && router.input == rest
  {
    ParseInverse(msg, rest);
    b := ReadFromSocket(bridge);
    r := ReadMsg(router);
  }

  /** The same for the router's reader, which does not mind a split length. */
  method RouterReceivesAll(sock: Socket, ghost msgs: seq<seq<byte>>, ghost rest: seq<byte>, n: nat)
      returns (got: seq<seq<byte>>)
    requires n == |msgs| && (forall m :: m in msgs ==> |m| < TWO64)
    requires sock.input == Frames(msgs) + rest && !sock.faulty && sock.Valid()
    modifies sock`input
    ensures got == msgs && sock.input == rest
  {
    got := [];
    for k := 0 to n
      invariant got == msgs[..k] && sock.input == Frames(msgs[k..]) + rest
    {
      NextFrame(msgs, k, rest);
      var r := ReadMsg(sock);
      got := got + [r.msg];
    }
  }
}
