/** The layout of a datagram, byte by byte, as the packed structures and network byte order give it, and
    so as another implementation of the protocol expects it. */
module WireFormat {
  import opened Windows
  import opened Commands
  import opened Framing

  /** The number in the two bytes from `at` on, or in the four, the most significant byte first. */
  predicate Has16(b: seq<Byte>, at: nat, n: nat) {
    at + 2 <= |b| && b[at] as int * 256 + b[at + 1] as int == n
  }

  predicate Has32(b: seq<Byte>, at: nat, n: nat) {
    && at + 4 <= |b|
    && b[at] as int * 16777216 + b[at + 1] as int * 65536 + b[at + 2] as int * 256 + b[at + 3] as int == n
  }

  /** Where the fields of a command stand. */
  predicate LaidOut(b: seq<Byte>, c: Command) {
    && |b| >= 4 && b[0] as int == c.Kind() + c.head.flags && b[1] == c.head.channel && Has16(b, 2, c.head.number)
    && match c
       case Acknowledge(_, received, sentTime) => Has16(b, 4, received) && Has16(b, 6, sentTime) && |b| == 8
       case Reliable(_, data) => Has16(b, 4, |data|) && b[6..] == data
       case Unreliable(_, unreliable, data) => Has16(b, 4, unreliable) && Has16(b, 6, |data|) && b[8..] == data
       case Unsequenced(_, group, data) => Has16(b, 4, group) && Has16(b, 6, |data|) && b[8..] == data
       case Fragment(_, _, start, count, index, total, offset, data) =>
         && Has16(b, 4, start) && Has16(b, 6, |data|) && Has32(b, 8, count) && Has32(b, 12, index)
         && Has32(b, 16, total) && Has32(b, 20, offset) && b[24..] == data
       case Plain(_, _, body) => b[4..] == body
  }

  lemma Put16Has(b: seq<Byte>, at: nat, n: Word16)
    requires at + 2 <= |b| && b[at..at + 2] == Put16(n)
    ensures Has16(b, at, n)
  {
    assert b[at..at + 2][0] == b[at] && b[at..at + 2][1] == b[at + 1];
  }

  lemma Put32Has(b: seq<Byte>, at: nat, n: Word32)
    requires at + 4 <= |b| && b[at..at + 4] == Put32(n)
    ensures Has32(b, at, n)
  {
    assert b[at..at + 4][..2] == b[at..at + 2] && b[at..at + 4][2..] == b[at + 2..at + 4];
    Put16Has(b, at, n / 65536);
    Put16Has(b, at + 2, n % 65536);
  }

  lemma HeadIsLaidOut(c: Command, maximum: nat)
    requires c.Sendable(maximum)
    ensures var b := Encode(c, maximum);
            && |b| >= 4 && b[0] as int == c.Kind() + c.head.flags && b[1] == c.head.channel
            && Has16(b, 2, c.head.number)
            && SizeOf(c.Kind()) >= 4 && b[..SizeOf(c.Kind())] == Fixed(c, maximum)
            && b[SizeOf(c.Kind())..] == c.Data() && |Fixed(c, maximum)| == SizeOf(c.Kind())
  {
    var b, f := Encode(c, maximum), Fixed(c, maximum);
    FixedBegins(c, maximum);
    assert b == f + c.Data();
    hide Fixed, Encode, Put16;
    assert b[2..4] == f[2..4];
    Put16Has(b, 2, c.head.number);
  }

  lemma SmallIsLaidOut(c: Command, maximum: nat)
    requires c.Sendable(maximum) && !c.Fragment?
    ensures LaidOut(Encode(c, maximum), c)
  {
    HeadIsLaidOut(c, maximum);
    var b, f := Encode(c, maximum), Fixed(c, maximum)[4..];
    assert b[4..SizeOf(c.Kind())] == f;
    hide Encode;
    match c
    case Acknowledge(_, received, sentTime) =>
      assert f == Put16(received) + Put16(sentTime);
      assert b[4..6] == f[0..2] && b[6..8] == f[2..4];
      Put16Has(b, 4, received);
      Put16Has(b, 6, sentTime);
    case Reliable(_, data) =>
      assert f == Put16(|data|);
      Put16Has(b, 4, |data|);
    case Unreliable(_, unreliable, data) =>
      assert f == Put16(unreliable) + Put16(|data|);
      assert b[4..6] == f[0..2] && b[6..8] == f[2..4];
      Put16Has(b, 4, unreliable);
      Put16Has(b, 6, |data|);
    case Unsequenced(_, group, data) =>
      assert f == Put16(group) + Put16(|data|);
      assert b[4..6] == f[0..2] && b[6..8] == f[2..4];
      Put16Has(b, 4, group);
      Put16Has(b, 6, |data|);
    case Plain(_, kind, body) =>
      assert f == body && b[4..] == b[4..SizeOf(kind)] + b[SizeOf(kind)..];
  }

  lemma FragmentIsLaidOut(c: Command, maximum: nat)
    requires c.Sendable(maximum) && c.Fragment?
    ensures LaidOut(Encode(c, maximum), c)
  {
    HeadIsLaidOut(c, maximum);
    var b, f := Encode(c, maximum), Fixed(c, maximum)[4..];
    assert b[4..24] == f;
    assert f == Put16(c.start) + Put16(|c.data|) + Put32(c.count) + Put32(c.index) + Put32(c.total) + Put32(c.offset);
    FragmentFields(f, c.start, |c.data|, c.count, c.index, c.total, c.offset);
    hide Encode, Fixed, Put16, Put32, Has16, Has32;
    SliceOfSlice(b, 4, 24, 4, 6);
    SliceOfSlice(b, 4, 24, 6, 8);
    SliceOfSlice(b, 4, 24, 8, 12);
    SliceOfSlice(b, 4, 24, 12, 16);
    SliceOfSlice(b, 4, 24, 16, 20);
    SliceOfSlice(b, 4, 24, 20, 24);
    Put16Has(b, 4, c.start);
    Put16Has(b, 6, |c.data|);
    Put32Has(b, 8, c.count);
    Put32Has(b, 12, c.index);
    Put32Has(b, 16, c.total);
    Put32Has(b, 20, c.offset);
  }

  /** Every command is laid out like its structure. */
  lemma CommandIsLaidOut(c: Command, maximum: nat)
    requires c.Sendable(maximum)
    ensures LaidOut(Encode(c, maximum), c)
  {
    if c.Fragment? { FragmentIsLaidOut(c, maximum); } else { SmallIsLaidOut(c, maximum); }
  }

  /** The header packs the peer's id in 12 bits, the session in two, and the flag for a sent time in the next;
      the sent time and the checksum follow, and then the commands. */
  lemma HeaderIsLaidOut(h: Header, checksum: seq<Byte>, body: seq<Byte>)
    requires h.Proper()
    ensures var b := EncodeHeader(h, checksum) + body;
            && Has16(b, 0, h.peer + h.session * 4096 + if h.timed then 16384 else 0)
            && (h.timed ==> Has16(b, 2, h.sentTime))
            && b[if h.timed then 4 else 2..] == checksum + body
  {
    HeaderBytes(h, checksum, body);
    var b := EncodeHeader(h, checksum) + body;
    Put16Has(b, 0, FirstWord(h));
    if h.timed { Put16Has(b, 2, h.sentTime); }
    var start := Put16(FirstWord(h)) + if h.timed then Put16(h.sentTime) else [];
    assert b == start + (checksum + body);
    hide Put16, FirstWord, EncodeHeader;
  }
}
