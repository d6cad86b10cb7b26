/** Control messages over a pipe, gps/libloc_api_50001/loc_eng_dmn_conn_glue_msg.c. */
module Framing {
  import opened Common

  /** sizeof(size_t) on the device, a 32-bit ARM. */
  const SIZE_FIELD := 4

  const SIZE_MODULUS := 0x1_0000_0000

  /** What a size_t is as an int. */
  function AsInt(n: nat): int {
    if n > MAX_MESSAGE then n - SIZE_MODULUS else n
  }

  /** A message fits the int that the functions return its size in. */
  const MAX_MESSAGE := 0x7FFF_FFFF

  function SizeBytes(n: nat): (bs: seq<byte>)
    requires n < 0x1_0000_0000
    ensures |bs| == SIZE_FIELD
  {
    [n % 256, n / 256 % 256, n / 65536 % 256, n / 16777216]
  }

  function SizeOf(bs: seq<byte>): (n: nat)
    requires |bs| >= SIZE_FIELD
    ensures n < SIZE_MODULUS
  {
    bs[0] as int + 256 * (bs[1] as int) + 65536 * (bs[2] as int) + 16777216 * (bs[3] as int)
  }

  lemma SizeRoundTrip(n: nat)
    requires n < 0x1_0000_0000
    ensures SizeOf(SizeBytes(n)) == n
  {
    assert n / 65536 == n / 256 / 256;
    assert n / 16777216 == n / 65536 / 256;
  }

  /** The lowest byte first. */
  lemma SizeBytesAt(n: nat)
    requires n < 0x1_0000_0000
    ensures SizeBytes(n)[0] == n % 0x100 && SizeBytes(n)[1] == n / 0x100 % 0x100
    ensures SizeBytes(n)[2] == n / 0x1_0000 % 0x100 && SizeBytes(n)[3] == n / 0x100_0000
  {
  }

  type Message = m: seq<byte> | SIZE_FIELD <= |m| <= MAX_MESSAGE witness [0, 0, 0, 0]

  /** What a message looks like on the pipe: its first field is overwritten with its size. */
  function Frame(m: Message): (f: Message)
    ensures |f| == |m| && SizeOf(f) == |m|
    ensures forall i :: 4 <= i < |m| ==> f[i] == m[i]
  {
    SizeRoundTrip(|m|);
    SizeBytes(|m|) + m[SIZE_FIELD..]
  }

  /** What a receive does to the stream: its result, and how many bytes it takes off. */
  datatype Receipt = Receipt(result: int, taken: nat)

  function Receive(s: seq<byte>, bufsz: nat): (r: Receipt)
    ensures r.taken <= |s|
  {
    if |s| < SIZE_FIELD then Receipt(-1, |s|)
    else if bufsz < SizeOf(s) then Receipt(-1, SIZE_FIELD)
    else if SizeOf(s) < SIZE_FIELD then Receipt(-1, |s|)
    else if |s| < SizeOf(s) then Receipt(-1, |s|)
    else Receipt(SizeOf(s), SizeOf(s))
  }

  /**
   * A receive at a message boundary gives the whole message if the buffer takes it. It ends on a boundary again
   * exactly if the buffer takes it or there is nothing but the size to take.
   */
  lemma ReceiveFrame(m: Message, rest: seq<byte>, bufsz: nat)
    ensures var s := Frame(m) + rest;
      var r := Receive(s, bufsz);
      && (|m| <= bufsz ==> r.result == |m| && s[..r.taken] == Frame(m) && s[r.taken..] == rest)
      && (|m| > bufsz ==> r.result == -1 && s[r.taken..] == m[SIZE_FIELD..] + rest)
      && (s[r.taken..] == rest <==> |m| <= bufsz || |m| == SIZE_FIELD)
  {
  }

  /** Five bytes for a buffer of four: the fifth is left over, and the next receive takes it for a size. */
  lemma TooLongLosesBoundary(m: Message, x: byte)
    requires |m| == SIZE_FIELD + 1 && m[SIZE_FIELD] == x
    ensures Receive(Frame(m), SIZE_FIELD) == Receipt(-1, SIZE_FIELD) && Frame(m)[SIZE_FIELD..] == [x]
  {
  }

  // ----- any interleaving of sends and receives

  datatype Op = Send(m: Message) | Recv

  datatype Channel = Channel(stream: seq<byte>, sent: seq<Message>, received: seq<seq<byte>>)

  function Frames(ms: seq<Message>): seq<byte> {
    if ms == [] then [] else Frame(ms[0]) + Frames(ms[1..])
  }

  function Next(c: Channel, op: Op, bufsz: nat): Channel {
    match op
    case Send(m) => c.(stream := c.stream + Frame(m), sent := c.sent + [m])
    case Recv =>
      var r := Receive(c.stream, bufsz);
      Channel(c.stream[r.taken..], c.sent,
              if r.result >= 0 then c.received + [c.stream[..r.taken]] else c.received)
  }

  function Run(ops: seq<Op>, bufsz: nat): Channel {
    if ops == [] then Channel([], [], []) else Next(Run(ops[..|ops| - 1], bufsz), ops[|ops| - 1], bufsz)
  }

  /** The stream is the frames not yet received, and those received are the first ones sent, in order. */
  ghost predicate InOrder(c: Channel) {
    && |c.received| <= |c.sent|
    && (forall i :: 0 <= i < |c.received| ==> c.received[i] == Frame(c.sent[i]))
    && c.stream == Frames(c.sent[|c.received|..])
  }

  lemma {:induction false} FramesAppend(ms: seq<Message>, m: Message)
    ensures Frames(ms + [m]) == Frames(ms) + Frame(m)
  {
    if ms == [] {
      assert Frames([m]) == Frame(m) + Frames([]);
    } else {
      assert (ms + [m])[1..] == ms[1..] + [m];
      FramesAppend(ms[1..], m);
    }
  }

  lemma NextInOrder(c: Channel, op: Op, bufsz: nat)
    requires InOrder(c) && forall i :: 0 <= i < |c.sent| ==> |c.sent[i]| <= bufsz
    ensures InOrder(Next(c, op, bufsz))
  {
    var k := |c.received|;
    match op {
      case Send(m) =>
        assert (c.sent + [m])[k..] == c.sent[k..] + [m];
        FramesAppend(c.sent[k..], m);
      case Recv =>
        if k < |c.sent| {
          ReceiveFrame(c.sent[k], Frames(c.sent[k + 1..]), bufsz);
          assert c.sent[k..][1..] == c.sent[k + 1..];
        }
    }
  }

  lemma NextSent(c: Channel, op: Op, bufsz: nat)
    ensures forall m :: m in Next(c, op, bufsz).sent ==> m in c.sent || (op.Send? && m == op.m)
  {
  }

  lemma NextDelivers(c: Channel, bufsz: nat)
    requires InOrder(c) && |c.received| < |c.sent| && |c.sent[|c.received|]| <= bufsz
    ensures var n := Next(c, Recv, bufsz);
      n.sent == c.sent && n.received == c.received + [Frame(c.sent[|c.received|])]
  {
    var k := |c.received|;
    ReceiveFrame(c.sent[k], Frames(c.sent[k + 1..]), bufsz);
    assert c.sent[k..][1..] == c.sent[k + 1..];
  }

  /**
   * Messages no longer than the receive buffer arrive whole, in order, and the stream rests on a message
   * boundary after every send and every receive. A receive delivers the next message whenever one is there.
   */
  lemma {:induction false} ArriveInOrder(ops: seq<Op>, bufsz: nat)
    requires forall op :: op in ops && op.Send? ==> |op.m| <= bufsz
    ensures var c := Run(ops, bufsz);
      && InOrder(c)
      && (forall m :: m in c.sent ==> |m| <= bufsz)
      && (c.stream != [] <==> |c.received| < |c.sent|)
      && (c.stream != [] ==> Next(c, Recv, bufsz).received == c.received + [Frame(c.sent[|c.received|])])
  {
    hide Next, Frame;
    if ops != [] {
      var k := |ops| - 1;
      ArriveInOrder(ops[..k], bufsz);
      NextInOrder(Run(ops[..k], bufsz), ops[k], bufsz);
      NextSent(Run(ops[..k], bufsz), ops[k], bufsz);
      assert ops[k] in ops;
    }
    var c := Run(ops, bufsz);
    if |c.received| < |c.sent| {
      NextDelivers(c, bufsz);
    }
  }

  function Receives(n: nat): (ops: seq<Op>)
    ensures |ops| == n
  {
    seq(n, i => Recv)
  }

  lemma RunReceives(ops: seq<Op>, bufsz: nat, n: nat)
    ensures Run(ops + Receives(0), bufsz) == Run(ops, bufsz)
    ensures n > 0 ==> Run(ops + Receives(n), bufsz) == Next(Run(ops + Receives(n - 1), bufsz), Recv, bufsz)
  {
    assert ops + Receives(0) == ops;
    if n > 0 {
      assert (ops + Receives(n))[..|ops| + n - 1] == ops + Receives(n - 1);
    }
  }

  /** After as many receives more as there are messages on the way, everything sent has arrived. */
  lemma {:induction false} AllArrive(ops: seq<Op>, bufsz: nat, n: nat)
    requires forall op :: op in ops && op.Send? ==> |op.m| <= bufsz
    requires n <= |Run(ops, bufsz).sent| - |Run(ops, bufsz).received|
    ensures var c, d := Run(ops, bufsz), Run(ops + Receives(n), bufsz);
      && d.sent == c.sent && |d.received| == |c.received| + n
      && (n == |c.sent| - |c.received| ==>
            d.stream == [] && forall i :: 0 <= i < |d.received| ==> d.received[i] == Frame(d.sent[i]))
  {
    hide Run, Next, Frame, Frames;
    RunReceives(ops, bufsz, n);
    ArriveInOrder(ops + Receives(n), bufsz);
    if n > 0 {
      AllArrive(ops, bufsz, n - 1);
      var d := Run(ops + Receives(n - 1), bufsz);
      ArriveInOrder(ops + Receives(n - 1), bufsz);
      NextDelivers(d, bufsz);
    }
  }

  function Sends(ms: seq<Message>): (ops: seq<Op>)
    ensures |ops| == |ms|
  {
    seq(|ms|, i requires 0 <= i < |ms| => Send(ms[i]))
  }

  /** What has been received is exactly what was sent. */
  ghost predicate AllReceived(received: seq<seq<byte>>, ms: seq<Message>) {
    |received| == |ms| && forall i :: 0 <= i < |ms| ==> received[i] == Frame(ms[i])
  }

  lemma {:induction false} RunSends(ms: seq<Message>, bufsz: nat)
    ensures Run(Sends(ms), bufsz) == Channel(Frames(ms), ms, [])
  {
    if ms != [] {
      var k := |ms| - 1;
      assert Sends(ms)[..k] == Sends(ms[..k]);
      RunSends(ms[..k], bufsz);
      FramesAppend(ms[..k], ms[k]);
      assert ms == ms[..k] + [ms[k]];
    }
  }

  lemma FramesFrom(ms: seq<Message>, n: nat)
    requires n < |ms|
    ensures Frames(ms[n..]) == Frame(ms[n]) + Frames(ms[n + 1..])
  {
    assert ms[n..][1..] == ms[n + 1..];
  }

  /** A receive with a message in front. */
  lemma NextTakes(c: Channel, m: Message, rest: seq<byte>, bufsz: nat)
    requires c.stream == Frame(m) + rest
    ensures var n := Next(c, Recv, bufsz);
      if |m| <= bufsz then n.received == c.received + [Frame(m)] && n.stream == rest else n.received == c.received
  {
    ReceiveFrame(m, rest, bufsz);
  }

  lemma MoreReceives(ops: seq<Op>, a: nat, b: nat)
    ensures (ops + Receives(a)) + Receives(b) == ops + Receives(a + b)
  {
  }

  /** As long as the messages fit, each receive delivers the next one. */
  lemma {:induction false} FirstArrive(ms: seq<Message>, bufsz: nat, n: nat)
    requires n <= |ms| && forall i :: 0 <= i < n ==> |ms[i]| <= bufsz
    ensures var c := Run(Sends(ms) + Receives(n), bufsz);
      AllReceived(c.received, ms[..n]) && c.stream == Frames(ms[n..])
  {
    hide Run, Next, Frame, Frames;
    RunReceives(Sends(ms), bufsz, n);
    if n == 0 {
      RunSends(ms, bufsz);
      assert ms[0..] == ms;
    } else {
      FirstArrive(ms, bufsz, n - 1);
      FramesFrom(ms, n - 1);
      NextTakes(Run(Sends(ms) + Receives(n - 1), bufsz), ms[n - 1], Frames(ms[n..]), bufsz);
    }
  }

  /** Whatever the stream holds, a receive delivers at most one message. */
  lemma {:induction false} OneEach(ops: seq<Op>, bufsz: nat, n: nat)
    ensures |Run(ops + Receives(n), bufsz).received| <= |Run(ops, bufsz).received| + n
  {
    hide Run;
    RunReceives(ops, bufsz, n);
    if n > 0 {
      OneEach(ops, bufsz, n - 1);
    }
  }

  /** The first message that does not fit costs a receive, and there are not enough of them any more. */
  lemma TooLongMissing(ms: seq<Message>, bufsz: nat, n: nat)
    requires n < |ms| && |ms[n]| > bufsz && forall i :: 0 <= i < n ==> |ms[i]| <= bufsz
    ensures |Run(Sends(ms) + Receives(|ms|), bufsz).received| < |ms|
  {
    hide Run, Next, Frame, Frames;
    FirstArrive(ms, bufsz, n);
    FramesFrom(ms, n);
    NextTakes(Run(Sends(ms) + Receives(n), bufsz), ms[n], Frames(ms[n + 1..]), bufsz);
    RunReceives(Sends(ms), bufsz, n + 1);
    OneEach(Sends(ms) + Receives(n + 1), bufsz, |ms| - n - 1);
    MoreReceives(Sends(ms), n + 1, |ms| - n - 1);
  }

  /** The first message that does not fit, |ms| if there is none. */
  function FirstTooLong(ms: seq<Message>, bufsz: nat): (n: nat)
    ensures n <= |ms| && (n < |ms| ==> |ms[n]| > bufsz)
    ensures forall i :: 0 <= i < n ==> |ms[i]| <= bufsz
  {
    if ms == [] || |ms[0]| > bufsz then 0 else 1 + FirstTooLong(ms[1..], bufsz)
  }

  /** Sending any messages and receiving as often delivers them all, in order, if and only if each fits the buffer. */
  lemma AllArriveIff(ms: seq<Message>, bufsz: nat)
    ensures AllReceived(Run(Sends(ms) + Receives(|ms|), bufsz).received, ms) <==>
      forall i :: 0 <= i < |ms| ==> |ms[i]| <= bufsz
  {
    var n := FirstTooLong(ms, bufsz);
    if n < |ms| {
      TooLongMissing(ms, bufsz, n);
    } else {
      FirstArrive(ms, bufsz, n);
      assert ms[..n] == ms;
    }
  }

  // ----- the functions themselves

  /**
   * A pipe: a read gives what is there, up to what is asked for; `written` is the result of write(2), which may
   * fail or write less than asked.
   */
  class Pipe {
    var bytes: seq<byte>

    method Write(buf: array<byte>, sz: nat, written: int) returns (result: int)
      requires sz <= buf.Length && -1 <= written <= sz
      modifies this
      ensures result == written && bytes == old(bytes) + buf[..if written < 0 then 0 else written]
    {
      bytes := bytes + buf[..if written < 0 then 0 else written];
      result := written;
    }

    method Read(buf: array<byte>, at: nat, sz: nat) returns (result: int)
      requires at + Min(sz, |bytes|) <= buf.Length
      modifies this, buf
      ensures result == Min(sz, |old(bytes)|)
      ensures bytes == old(bytes)[result..]
      ensures buf[..] == old(buf[..at]) + old(bytes)[..result] + old(buf[at + result..])
    {
      result := Min(sz, |bytes|);
      forall i | 0 <= i < result {
        buf[at + i] := bytes[i];
      }
      bytes := bytes[result..];
    }
  }

  /** Whatever the pipe does not take of a message is reported as a failure. */
  method MsgSnd(pipe: Pipe, msgp: array<byte>, msgsz: nat, written: int) returns (result: int)
    requires SIZE_FIELD <= msgsz <= msgp.Length && msgsz <= MAX_MESSAGE && -1 <= written <= msgsz
    modifies pipe, msgp
    ensures result == if written == msgsz then msgsz else -1
    ensures var f := Frame(old(msgp[..msgsz]));
      pipe.bytes == old(pipe.bytes) + f[..if written < 0 then 0 else written]
    ensures msgp[..] == SizeBytes(msgsz) + old(msgp[SIZE_FIELD..])
  {
    var field := SizeBytes(msgsz);
    forall i | 0 <= i < SIZE_FIELD {
      msgp[i] := field[i];
    }
    assert msgp[..msgsz] == Frame(old(msgp[..msgsz]));
    result := pipe.Write(msgp, msgsz, written);
    if result != msgsz {
      return -1;
    }
  }

  /** How much the second read of a receive asks for, in size_t arithmetic. */
  function RestSize(msgsz: nat): nat
    requires msgsz < SIZE_MODULUS
  {
    (msgsz - SIZE_FIELD) % SIZE_MODULUS
  }

  lemma SameSize(a: seq<byte>, b: seq<byte>)
    requires |a| >= SIZE_FIELD && |b| >= SIZE_FIELD && a[..SIZE_FIELD] == b[..SIZE_FIELD]
    ensures SizeOf(a) == SizeOf(b)
  {
    assert a[0] == a[..SIZE_FIELD][0] && a[1] == a[..SIZE_FIELD][1];
    assert a[2] == a[..SIZE_FIELD][2] && a[3] == a[..SIZE_FIELD][3];
  }

  /**
   * A received size below that of the size field asks for nearly all the memory there is; it must not get more
   * than the buffer holds, and then the receive fails.
   */
  method MsgRcv(pipe: Pipe, msgp: array<byte>, msgbufsz: nat) returns (result: int)
    requires SIZE_FIELD <= msgp.Length && msgbufsz <= msgp.Length && |pipe.bytes| <= MAX_MESSAGE
    requires |pipe.bytes| >= SIZE_FIELD && SizeOf(pipe.bytes) < SIZE_FIELD && SizeOf(pipe.bytes) <= msgbufsz ==>
      |pipe.bytes| <= msgp.Length
    modifies pipe, msgp
    ensures var s := old(pipe.bytes);
      var r := Receive(s, msgbufsz);
      && result == r.result
      && pipe.bytes == s[r.taken..]
      && msgp[..] == s[..r.taken] + old(msgp[r.taken..])
  {
    hide SizeOf;
    ghost var s := pipe.bytes;
    result := pipe.Read(msgp, 0, SIZE_FIELD);
    if result != SIZE_FIELD {
      return -1;
    }
    var msgsz := SizeOf(msgp[..]);
    SameSize(msgp[..], s);
    if msgbufsz < msgsz {
      return -1;
    }
    ghost var between := msgp[..];
    result := ReadRest(pipe, msgp, msgsz);
    ghost var n := Min(RestSize(msgsz), |s| - SIZE_FIELD);
    TakenInTwo(s, n);
    assert between[SIZE_FIELD + n..] == old(msgp[SIZE_FIELD + n..]);
  }

  /** The second read and its check. */
  method ReadRest(pipe: Pipe, msgp: array<byte>, msgsz: nat) returns (result: int)
    requires msgsz < SIZE_MODULUS && |pipe.bytes| <= MAX_MESSAGE - SIZE_FIELD
    requires SIZE_FIELD + Min(RestSize(msgsz), |pipe.bytes|) <= msgp.Length
    modifies pipe, msgp
    ensures result == if SIZE_FIELD <= msgsz <= SIZE_FIELD + |old(pipe.bytes)| then msgsz else -1
    ensures var n := Min(RestSize(msgsz), |old(pipe.bytes)|);
      && pipe.bytes == old(pipe.bytes)[n..]
      && msgp[..] == old(msgp[..SIZE_FIELD]) + old(pipe.bytes)[..n] + old(msgp[SIZE_FIELD + n..])
  {
    var rest := RestSize(msgsz);
    result := pipe.Read(msgp, SIZE_FIELD, rest);
    if result != AsInt(rest) {
      return -1;
    }
    result := msgsz;
  }

  lemma TakenInTwo(s: seq<byte>, n: nat)
    requires SIZE_FIELD + n <= |s|
    ensures s[..SIZE_FIELD] + s[SIZE_FIELD..][..n] == s[..SIZE_FIELD + n]
    ensures s[SIZE_FIELD..][n..] == s[SIZE_FIELD + n..]
  {
  }
}
