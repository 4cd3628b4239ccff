/** The bytes of a datagram: how commands and their data are laid out, and that the receiving
    side's walk over the bytes finds just the commands that were put in. */
module Framing {
  import opened Windows
  import opened Commands
  import R = ReliableReceiver

  type Byte = R.Byte

  type Word32 = w: int | 0 <= w < 0x1_0000_0000

  const ACKNOWLEDGE_FLAG: nat := 128
  const UNSEQUENCED_FLAG: nat := 64
  const COMMAND_MASK: nat := 16

  // ---------------------------------------------------------------- numbers, most significant byte first

  function Put16(n: Word16): (r: seq<Byte>)
    ensures |r| == 2
  {
    var high: int := n / 256;
    assert 256 * high <= n;
    [high, n % 256]
  }

  function Get16(b: seq<Byte>, at: nat): Word16
    requires at + 2 <= |b|
  {
    var high: int := b[at];
    high * 256 + b[at + 1]
  }

  function Put32(n: Word32): (r: seq<Byte>)
    ensures |r| == 4
  {
    var high: int := n / 65536;
    assert 65536 * high <= n;
    Put16(high) + Put16(n % 65536)
  }

  function Get32(b: seq<Byte>, at: nat): Word32
    requires at + 4 <= |b|
  {
    var high: int := Get16(b, at);
    high * 65536 + Get16(b, at + 2)
  }

  lemma Got16(b: seq<Byte>, at: nat, n: Word16)
    requires at + 2 <= |b| && b[at..at + 2] == Put16(n)
    ensures Get16(b, at) == n
  {
    assert b[at..at + 2][0] == b[at] && b[at..at + 2][1] == b[at + 1];
  }

  lemma Got32(b: seq<Byte>, at: nat, n: Word32)
    requires at + 4 <= |b| && b[at..at + 4] == Put32(n)
    ensures Get32(b, at) == n
  {
    assert b[at..at + 4][..2] == b[at..at + 2] && b[at..at + 4][2..] == b[at + 2..at + 4];
    Got16(b, at, n / 65536);
    Got16(b, at + 2, n % 65536);
  }

  // ---------------------------------------------------------------- commands

  /** The fields every command begins with. `flags` is 0, 64 or 128. */
  datatype Head = Head(flags: nat, channel: Byte, number: Word16)

  /** A command with the data behind it. Commands without data but for the acknowledgement are
      kept as their bytes. */
  datatype Command =
    | Acknowledge(head: Head, received: Word16, sentTime: Word16)
    | Reliable(head: Head, data: seq<Byte>)
    | Unreliable(head: Head, unreliable: Word16, data: seq<Byte>)
    | Unsequenced(head: Head, group: Word16, data: seq<Byte>)
    | Fragment(head: Head, kind: nat, start: Word16, count: Word32, index: Word32, total: Word32, offset: Word32,
        data: seq<Byte>)
    | Plain(head: Head, kind: nat, body: seq<Byte>)
  {
    function Kind(): nat {
      match this
      case Acknowledge(_, _, _) => ACKNOWLEDGE
      case Reliable(_, _) => SEND_RELIABLE
      case Unreliable(_, _, _) => SEND_UNRELIABLE
      case Unsequenced(_, _, _) => SEND_UNSEQUENCED
      case Fragment(_, kind, _, _, _, _, _, _) => kind
      case Plain(_, kind, _) => kind
    }

    function Data(): seq<Byte> {
      if Acknowledge? || Plain? then [] else data
    }

    /** What the sending side produces: proper flags and kinds, and data that a 16-bit length
        and the receiver's limit allow. */
    predicate Sendable(maximum: nat) {
      && head.flags in {0, UNSEQUENCED_FLAG, ACKNOWLEDGE_FLAG, UNSEQUENCED_FLAG + ACKNOWLEDGE_FLAG}
      && |Data()| < MODULUS && |Data()| <= maximum
      && (Fragment? ==> (kind == SEND_FRAGMENT && data != []) || kind == SEND_UNRELIABLE_FRAGMENT)
      && (Plain? ==> kind in {CONNECT, VERIFY_CONNECT, DISCONNECT, PING, BANDWIDTH_LIMIT, THROTTLE_CONFIGURE}
                     && |body| == SizeOf(kind) - 4)
    }
  }

  function PutHead(kind: nat, h: Head): (r: seq<Byte>)
    requires kind < COMMAND_MASK && h.flags in {0, UNSEQUENCED_FLAG, ACKNOWLEDGE_FLAG,
             UNSEQUENCED_FLAG + ACKNOWLEDGE_FLAG}
    ensures |r| == 4
  {
    [kind + h.flags, h.channel] + Put16(h.number)
  }

  /** The fixed part of a command. */
  function Fixed(c: Command, maximum: nat): (r: seq<Byte>)
    requires c.Sendable(maximum)
    ensures |r| == SizeOf(c.Kind())
  {
    PutHead(c.Kind(), c.head) +
    match c
    case Acknowledge(_, received, sentTime) => Put16(received) + Put16(sentTime)
    case Reliable(_, data) => Put16(|data|)
    case Unreliable(_, unreliable, data) => Put16(unreliable) + Put16(|data|)
    case Unsequenced(_, group, data) => Put16(group) + Put16(|data|)
    case Fragment(_, _, start, count, index, total, offset, data) =>
      Put16(start) + Put16(|data|) + Put32(count) + Put32(index) + Put32(total) + Put32(offset)
    case Plain(_, _, body) => body
  }

  function Encode(c: Command, maximum: nat): (r: seq<Byte>)
    requires c.Sendable(maximum)
    ensures |r| == SizeOf(c.Kind()) + |c.Data()|
  {
    Fixed(c, maximum) + c.Data()
  }

  predicate AllSendable(cs: seq<Command>, maximum: nat) {
    forall i :: 0 <= i < |cs| ==> cs[i].Sendable(maximum)
  }

  function EncodeAll(cs: seq<Command>, maximum: nat): seq<Byte>
    requires AllSendable(cs, maximum)
  {
    if cs == [] then [] else Encode(cs[0], maximum) + EncodeAll(cs[1..], maximum)
  }

  // ---------------------------------------------------------------- the walk over the bytes

  /** One command read: with the number of bytes it took, or nothing if the walk ends here. */
  datatype Read = Read(command: Command, size: nat) | Stop

  /** Where in the fixed part the 16-bit length of the data stands. */
  function LengthAt(kind: nat): nat {
    if kind == SEND_RELIABLE then 4 else 6
  }

  function ReadOne(b: seq<Byte>, maximum: nat): (r: Read)
    ensures r.Read? ==> 0 < r.size <= |b|
  {
    if |b| < 4 then Stop
    else
      var kind, flags := b[0] % COMMAND_MASK, b[0] - b[0] % COMMAND_MASK;
      var size := SizeOf(kind);
      if kind >= COMMAND_COUNT || size == 0 || size > |b| then Stop
      else
        var head := Head(flags, b[1], Get16(b, 2));
        if !CarriesData(kind) then
          if kind == ACKNOWLEDGE then Read(Acknowledge(head, Get16(b, 4), Get16(b, 6)), size)
          else Read(Plain(head, kind, b[4..size]), size)
        else
          var length := Get16(b, LengthAt(kind));
          if length > maximum || size + length > |b| || (kind == SEND_FRAGMENT && length == 0) then Stop
          else
            var data := b[size..size + length];
            var command :=
              if kind == SEND_RELIABLE then Reliable(head, data)
              else if kind == SEND_UNRELIABLE then Unreliable(head, Get16(b, 4), data)
              else if kind == SEND_UNSEQUENCED then Unsequenced(head, Get16(b, 4), data)
              else Fragment(head, kind, Get16(b, 4), Get32(b, 8), Get32(b, 12), Get32(b, 16), Get32(b, 20), data);
            Read(command, size + length)
  }

  /** The loop of enet_protocol_handle_incoming_commands, each command's handling left out. */
  function Walk(b: seq<Byte>, maximum: nat): seq<Command>
    decreases |b|
  {
    var r := ReadOne(b, maximum);
    if r.Stop? then [] else [r.command] + Walk(b[r.size..], maximum)
  }

  /** The head is read back. */
  lemma ReadsHead(c: Command, maximum: nat, rest: seq<Byte>)
    requires c.Sendable(maximum)
    ensures var b := Encode(c, maximum) + rest;
            && |b| >= SizeOf(c.Kind()) + |c.Data()| && SizeOf(c.Kind()) >= 4
            && b[0] % COMMAND_MASK == c.Kind() && b[0] - b[0] % COMMAND_MASK == c.head.flags
            && b[1] == c.head.channel && Get16(b, 2) == c.head.number
            && b[4..SizeOf(c.Kind())] == Fixed(c, maximum)[4..]
            && b[SizeOf(c.Kind())..SizeOf(c.Kind()) + |c.Data()|] == c.Data()
  {
    FixedBegins(c, maximum);
    var b, h, f := Encode(c, maximum) + rest, c.head, Fixed(c, maximum);
    hide Fixed, Put16, Get16;
    assert b[0] == f[0] && b[1] == f[1] && b[2..4] == f[2..4];
    Got16(b, 2, h.number);
  }

  lemma FixedBegins(c: Command, maximum: nat)
    requires c.Sendable(maximum)
    ensures var f := Fixed(c, maximum);
            && |f| >= 4 && f[0] % COMMAND_MASK == c.Kind() && f[0] - f[0] % COMMAND_MASK == c.head.flags
            && f[1] == c.head.channel && f[2..4] == Put16(c.head.number)
  {
    var start := PutHead(c.Kind(), c.head);
    assert Fixed(c, maximum)[..4] == start;
    hide Fixed;
    assert start[2..] == Put16(c.head.number);
  }

  /** The fields behind the head are read back. */
  lemma Reads16(b: seq<Byte>, size: nat, fields: seq<Byte>, at: nat, n: Word16)
    requires 4 <= at && at + 2 <= size <= |b| && b[4..size] == fields && fields[at - 4..at - 2] == Put16(n)
    ensures Get16(b, at) == n
  {
    hide Get16, Put16;
    SliceOfSlice(b, 4, size, at, at + 2);
    Got16(b, at, n);
  }

  lemma SliceOfSlice(b: seq<Byte>, from: nat, to: nat, lo: nat, hi: nat)
    requires from <= lo <= hi <= to <= |b|
    ensures b[from..to][lo - from..hi - from] == b[lo..hi]
  {
    var outer, inner := b[from..to], b[lo..hi];
    assert |outer[lo - from..hi - from]| == |inner|;
    forall k | 0 <= k < |inner|
      ensures outer[lo - from..hi - from][k] == inner[k]
    {
      assert outer[lo - from..hi - from][k] == outer[lo - from + k];
    }
  }

  lemma Reads32(b: seq<Byte>, size: nat, fields: seq<Byte>, at: nat, n: Word32)
    requires 4 <= at && at + 4 <= size <= |b| && b[4..size] == fields && fields[at - 4..at] == Put32(n)
    ensures Get32(b, at) == n
  {
    hide Get32, Put32;
    SliceOfSlice(b, 4, size, at, at + 4);
    Got32(b, at, n);
  }

  lemma ReadsSmall(c: Command, maximum: nat, rest: seq<Byte>)
    requires c.Sendable(maximum) && !c.Fragment?
    ensures ReadOne(Encode(c, maximum) + rest, maximum) == Read(c, |Encode(c, maximum)|)
  {
    ReadsHead(c, maximum, rest);
    var b, f, size := Encode(c, maximum) + rest, Fixed(c, maximum)[4..], SizeOf(c.Kind());
    match c
    case Acknowledge(_, received, sentTime) =>
      assert f == Put16(received) + Put16(sentTime);
      Reads16(b, size, f, 4, received);
      Reads16(b, size, f, 6, sentTime);
    case Reliable(_, data) =>
      assert f == Put16(|data|);
      Reads16(b, size, f, 4, |data|);
    case Unreliable(_, unreliable, data) =>
      assert f == Put16(unreliable) + Put16(|data|);
      Reads16(b, size, f, 4, unreliable);
      Reads16(b, size, f, 6, |data|);
    case Unsequenced(_, group, data) =>
      assert f == Put16(group) + Put16(|data|);
      Reads16(b, size, f, 4, group);
      Reads16(b, size, f, 6, |data|);
    case Plain(_, _, body) =>
      assert f == body;
  }

  lemma ReadsFragment(c: Command, maximum: nat, rest: seq<Byte>)
    requires c.Sendable(maximum) && c.Fragment?
    ensures ReadOne(Encode(c, maximum) + rest, maximum) == Read(c, |Encode(c, maximum)|)
  {
    ReadsHead(c, maximum, rest);
    var b, f, size := Encode(c, maximum) + rest, Fixed(c, maximum)[4..], SizeOf(c.Kind());
    assert f == Put16(c.start) + Put16(|c.data|) + Put32(c.count) + Put32(c.index) + Put32(c.total) + Put32(c.offset);
    FragmentFields(f, c.start, |c.data|, c.count, c.index, c.total, c.offset);
    Reads16(b, size, f, 4, c.start);
    Reads16(b, size, f, 6, |c.data|);
    Reads32(b, size, f, 8, c.count);
    Reads32(b, size, f, 12, c.index);
    Reads32(b, size, f, 16, c.total);
    Reads32(b, size, f, 20, c.offset);
    hide Fixed, Encode, Get16, Get32, PutHead;
  }

  lemma FragmentFields(f: seq<Byte>, start: Word16, length: Word16, count: Word32, index: Word32, total: Word32,
                       offset: Word32)
    requires f == Put16(start) + Put16(length) + Put32(count) + Put32(index) + Put32(total) + Put32(offset)
    ensures |f| == 20 && f[0..2] == Put16(start) && f[2..4] == Put16(length)
    ensures f[4..8] == Put32(count) && f[8..12] == Put32(index) && f[12..16] == Put32(total)
            && f[16..20] == Put32(offset)
  {
  }

  /** Reading from the front of an encoded command gives it back, whatever follows. */
  lemma ReadsBack(c: Command, maximum: nat, rest: seq<Byte>)
    requires c.Sendable(maximum)
    ensures ReadOne(Encode(c, maximum) + rest, maximum) == Read(c, |Encode(c, maximum)|)
  {
    if c.Fragment? { ReadsFragment(c, maximum, rest); } else { ReadsSmall(c, maximum, rest); }
  }

  lemma {:induction false} WalksBack(cs: seq<Command>, maximum: nat)
    requires AllSendable(cs, maximum)
    ensures Walk(EncodeAll(cs, maximum), maximum) == cs
  {
    if cs != [] {
      var rest := EncodeAll(cs[1..], maximum);
      ReadsBack(cs[0], maximum, rest);
      WalksBack(cs[1..], maximum);
      var b := Encode(cs[0], maximum) + rest;
      assert b[|Encode(cs[0], maximum)|..] == rest;
    }
  }

  // ---------------------------------------------------------------- whole datagrams

  const SENT_TIME_FLAG: nat := 0x4000
  const SESSION_UNIT: nat := 0x1000

  /** The first word packs the peer id, the session and the flag that a sent time follows. */
  datatype Header = Header(peer: nat, session: nat, timed: bool, sentTime: Word16)
  {
    predicate Proper() {
      peer < SESSION_UNIT && session < 4 && (!timed ==> sentTime == 0)
    }
  }

  function FirstWord(h: Header): Word16
    requires h.Proper()
  {
    h.peer + h.session * SESSION_UNIT + (if h.timed then SENT_TIME_FLAG else 0)
  }

  function EncodeHeader(h: Header, checksum: seq<Byte>): (r: seq<Byte>)
    requires h.Proper()
    ensures |r| == (if h.timed then 4 else 2) + |checksum|
  {
    Put16(FirstWord(h)) + (if h.timed then Put16(h.sentTime) else []) + checksum
  }

  datatype Received = Received(header: Header, commands: seq<Command>) | Ignored

  /** enet_protocol_handle_incoming_commands: the header, the checksum skipped, the commands. */
  function Decode(b: seq<Byte>, checksumSize: nat, maximum: nat): Received {
    if |b| < 2 then Ignored
    else
      var word := Get16(b, 0);
      var timed := word / SENT_TIME_FLAG % 2 == 1;
      var size := (if timed then 4 else 2) + checksumSize;
      var time := if timed && |b| >= 4 then Get16(b, 2) else 0;
      Received(Header(word % SESSION_UNIT, word / SESSION_UNIT % 4, timed, time),
               if size <= |b| then Walk(b[size..], maximum) else [])
  }

  lemma WordUnpacks(h: Header)
    requires h.Proper()
    ensures var w := FirstWord(h);
            && w % SESSION_UNIT == h.peer && w / SESSION_UNIT % 4 == h.session
            && (w / SENT_TIME_FLAG % 2 == 1 <==> h.timed)
  {
    var w := FirstWord(h);
    var high := h.session + if h.timed then 4 else 0;
    assert w == high * SESSION_UNIT + h.peer;
    assert w / SESSION_UNIT == high;
    assert w / SENT_TIME_FLAG == if h.timed then 1 else 0;
  }

  lemma DecodesBack(h: Header, checksum: seq<Byte>, cs: seq<Command>, maximum: nat)
    requires h.Proper() && AllSendable(cs, maximum)
    ensures Decode(EncodeHeader(h, checksum) + EncodeAll(cs, maximum), |checksum|, maximum) == Received(h, cs)
  {
    hide EncodeAll, Walk, AllSendable, FirstWord, Get16, Put16, EncodeHeader;
    var header, body := EncodeHeader(h, checksum), EncodeAll(cs, maximum);
    var b := header + body;
    WalksBack(cs, maximum);
    HeaderBytes(h, checksum, body);
    Got16(b, 0, FirstWord(h));
    if h.timed { Got16(b, 2, h.sentTime); }
    WordUnpacks(h);
  }

  lemma HeaderBytes(h: Header, checksum: seq<Byte>, body: seq<Byte>)
    requires h.Proper()
    ensures var header := EncodeHeader(h, checksum);
            var b := header + body;
            && b[0..2] == Put16(FirstWord(h)) && (h.timed ==> b[2..4] == Put16(h.sentTime)) && b[|header|..] == body
  {
    hide FirstWord, Put16;
    var first, time := Put16(FirstWord(h)), if h.timed then Put16(h.sentTime) else [];
    var b := EncodeHeader(h, checksum) + body;
    assert b == first + (time + checksum + body);
    assert b[0..2] == first;
    if h.timed { assert b[2..4] == time; }
  }

  // ---------------------------------------------------------------- putting a datagram together

  function AcknowledgeFor(due: Due): Command {
    Acknowledge(Head(0, due.channel, due.number), due.number, due.sentTime)
  }

  function AcknowledgeAll(dues: seq<Due>): (r: seq<Command>)
    ensures |r| == |dues|
  {
    seq(|dues|, i requires 0 <= i < |dues| => AcknowledgeFor(dues[i]))
  }

  lemma DataIsCarried(c: Command, maximum: nat)
    requires c.Sendable(maximum)
    ensures !CarriesData(c.Kind()) ==> c.Data() == []
  {
  }

  lemma AcknowledgeIsSendable(due: Due, maximum: nat)
    ensures AcknowledgeFor(due).Sendable(maximum) && AcknowledgeFor(due).Data() == []
  {
  }

  function Buffers(cs: seq<Command>): (n: nat)
    ensures |cs| <= n <= 2 * |cs|
  {
    if cs == [] then 0 else (if CarriesData(cs[|cs| - 1].Kind()) then 2 else 1) + Buffers(cs[..|cs| - 1])
  }

  lemma {:induction false} EncodeOneMore(cs: seq<Command>, c: Command, maximum: nat)
    requires AllSendable(cs, maximum) && c.Sendable(maximum)
    ensures AllSendable(cs + [c], maximum)
            && EncodeAll(cs + [c], maximum) == EncodeAll(cs, maximum) + Encode(c, maximum)
  {
    hide Encode, Command.Sendable;
    if cs == [] {
      assert [c][1..] == [] && cs + [c] == [c];
    } else {
      EncodeOneMore(cs[1..], c, maximum);
      assert (cs + [c])[1..] == cs[1..] + [c] && (cs + [c])[0] == cs[0];
      var first, rest, last := Encode(cs[0], maximum), EncodeAll(cs[1..], maximum), Encode(c, maximum);
      assert EncodeAll(cs + [c], maximum) == first + (rest + last);
      assert first + (rest + last) == (first + rest) + last;
    }
  }

  /** Must the other side acknowledge it? */
  predicate NeedsAcknowledgement(c: Command) { c.head.flags >= ACKNOWLEDGE_FLAG }

  ghost predicate AnyNeedsAcknowledgement(cs: seq<Command>) {
    exists i :: 0 <= i < |cs| && NeedsAcknowledgement(cs[i])
  }

  lemma OneMore(cs: seq<Command>, c: Command, maximum: nat)
    requires AllSendable(cs, maximum) && c.Sendable(maximum)
    ensures AllSendable(cs + [c], maximum)
    ensures |EncodeAll(cs + [c], maximum)| == |EncodeAll(cs, maximum)| + SizeOf(c.Kind()) + |c.Data()|
    ensures Buffers(cs + [c]) == Buffers(cs) + if CarriesData(c.Kind()) then 2 else 1
    ensures AnyNeedsAcknowledgement(cs + [c]) <==> AnyNeedsAcknowledgement(cs) || NeedsAcknowledgement(c)
  {
    EncodeOneMore(cs, c, maximum);
    assert (cs + [c])[..|cs|] == cs;
    assert forall i :: 0 <= i < |cs| ==> (cs + [c])[i] == cs[i];
    assert (cs + [c])[|cs|] == c;
  }

  class Builder {
    const mtu: nat
    const maximum: nat
    const checksumSize: nat
    var packetSize: nat
    var commandCount: nat
    var bufferCount: nat
    var timed: bool
    var emitted: seq<Command>

    constructor (mtu: nat, maximum: nat, checksum: bool)
      requires MINIMUM_MTU <= mtu <= MAXIMUM_MTU
      ensures Valid() && emitted == [] && this.mtu == mtu && this.maximum == maximum
    {
      this.mtu, this.maximum := mtu, maximum;
      checksumSize := if checksum then CHECKSUM_SIZE else 0;
      packetSize := HEADER_SIZE + if checksum then CHECKSUM_SIZE else 0;
      commandCount, bufferCount, timed, emitted := 0, 1, false, [];
    }

    /** The sizes counted are those of the bytes, and stay within the peer's mtu and the host's
        arrays; so no subtraction from the mtu wraps. */
    ghost predicate Valid()
      reads this
    {
      && MINIMUM_MTU <= mtu <= MAXIMUM_MTU && AllSendable(emitted, maximum)
      && packetSize == HEADER_SIZE + checksumSize + |EncodeAll(emitted, maximum)| <= mtu
      && commandCount == |emitted| <= MAXIMUM_COMMANDS
      && bufferCount == 1 + Buffers(emitted) <= MAXIMUM_BUFFERS
      && (timed <==> AnyNeedsAcknowledgement(emitted))
    }

    method Emit(c: Command)
      requires Valid() && c.Sendable(maximum) && commandCount < MAXIMUM_COMMANDS
      requires packetSize + SizeOf(c.Kind()) + |c.Data()| <= mtu
      modifies this
      ensures Valid() && emitted == old(emitted) + [c]
    {
      hide AllSendable, EncodeAll, Buffers, AnyNeedsAcknowledgement, Command.Sendable, Command.Data, Command.Kind,
           SizeOf, CarriesData;
      OneMore(emitted, c, maximum);
      packetSize := packetSize + SizeOf(c.Kind()) + |c.Data()|;
      commandCount := commandCount + 1;
      bufferCount := bufferCount + (if CarriesData(c.Kind()) then 2 else 1);
      timed := timed || c.head.flags >= ACKNOWLEDGE_FLAG;
      emitted := emitted + [c];
    }

    /** enet_protocol_send_acknowledgements: as many of the acknowledgements due as fit. `leaves`
        says that one for a disconnect was among them, which makes the peer a zombie. */
    method SendAcknowledgements(dues: seq<Due>) returns (rest: seq<Due>, leaves: bool)
      requires Valid()
      modifies this
      ensures Valid() && |rest| <= |dues| && rest == dues[|dues| - |rest|..]
      ensures emitted == old(emitted) + AcknowledgeAll(dues[..|dues| - |rest|])
      ensures rest != [] ==> commandCount == MAXIMUM_COMMANDS || mtu - packetSize < SizeOf(ACKNOWLEDGE)
      ensures leaves <==> AnyDisconnect(dues[..|dues| - |rest|])
    {
      hide AllSendable, EncodeAll, Buffers, AnyNeedsAcknowledgement, Command.Sendable;
      var i := 0;
      leaves := false;
      while i < |dues|
        invariant i <= |dues| && Valid() && (leaves <==> AnyDisconnect(dues[..i]))
        invariant emitted == old(emitted) + AcknowledgeAll(dues[..i])
      {
        if commandCount >= MAXIMUM_COMMANDS || bufferCount >= MAXIMUM_BUFFERS
            || mtu - packetSize < SizeOf(ACKNOWLEDGE) {
          break;
        }
        AcknowledgeIsSendable(dues[i], maximum);
        Emit(AcknowledgeFor(dues[i]));
        leaves := leaves || dues[i].disconnect;
        OneMoreDue(dues, i);
        assert AcknowledgeAll(dues[..i + 1]) == AcknowledgeAll(dues[..i]) + [AcknowledgeFor(dues[i])];
        i := i + 1;
      }
      rest := dues[i..];
    }

    /** A queued command goes in if it fits; the sizes are compared in 16 bits. */
    method Add(c: Command) returns (added: bool)
      requires Valid() && c.Sendable(maximum) && |c.Data()| <= mtu
      modifies this
      ensures Valid() && emitted == if added then old(emitted) + [c] else old(emitted)
      ensures added <==> |old(emitted)| < MAXIMUM_COMMANDS && old(packetSize) + SizeOf(c.Kind()) + |c.Data()| <= mtu
    {
      DataIsCarried(c, maximum);
      hide AllSendable, EncodeAll, AnyNeedsAcknowledgement, Buffers, Command.Sendable;
      var size := SizeOf(c.Kind());
      if commandCount >= MAXIMUM_COMMANDS || bufferCount + 1 >= MAXIMUM_BUFFERS || mtu - packetSize < size
         || (CarriesData(c.Kind()) && (mtu - packetSize) % MODULUS < (size + |c.Data()|) % MODULUS) {
        return false;
      }
      Emit(c);
      return true;
    }

    /** The datagram. It fits the mtu; it is read back, header and commands, by the receiving
        side; and it carries its sent time if anything in it is to be acknowledged. */
    method Finish(peer: nat, session: nat, now: Word16, checksum: seq<Byte>)
      returns (bytes: seq<Byte>, ghost header: Header)
      requires Valid() && peer < SESSION_UNIT && session < 4 && |checksum| == checksumSize
      ensures |bytes| <= mtu && Decode(bytes, checksumSize, maximum) == Received(header, emitted)
      ensures header.peer == peer && header.session == session && (header.timed ==> header.sentTime == now)
      ensures header.timed <==> AnyNeedsAcknowledgement(emitted)
    {
      var h := Header(peer, session, timed, if timed then now else 0);
      header := h;
      DecodesBack(h, checksum, emitted, maximum);
      bytes := EncodeHeader(h, checksum) + EncodeAll(emitted, maximum);
    }
  }
}
