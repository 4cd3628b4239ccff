/** The datagram a peer puts together, as bytes: what is counted while it grows is what is sent,
    and what was put in is what the other side reads. */
module DatagramBytes {
  import opened Windows
  import opened Commands
  import opened ReliableSender
  import opened SendingPeer
  import F = Framing

  /** `c` is queued command `x` as it is sent: same kind, channel and number, and as much data. */
  predicate Renders(c: F.Command, x: OutCommand) {
    && c.Kind() == x.load.kind && c.head.channel == x.channel && c.head.number == x.stored
    && |c.Data()| == (if x.HasPacket() then x.Length() else 0)
  }

  predicate RendersAll(cs: seq<F.Command>, q: seq<OutCommand>) {
    |cs| == |q| && forall i :: 0 <= i < |q| ==> Renders(cs[i], q[i])
  }

  /** The bytes of the commands are as many as were counted. */
  lemma {:induction false} RenderedSize(cs: seq<F.Command>, q: seq<OutCommand>, maximum: nat)
    requires RendersAll(cs, q) && F.AllSendable(cs, maximum)
    ensures |F.EncodeAll(cs, maximum)| == WireSizes(q)
  {
    hide F.Encode, F.Command.Sendable;
    if q != [] {
      var n := |q| - 1;
      RenderedSize(cs[..n], q[..n], maximum);
      F.EncodeOneMore(cs[..n], cs[n], maximum);
      assert cs == cs[..n] + [cs[n]];
    }
  }

  lemma {:induction false} AcknowledgedSize(dues: seq<Due>, maximum: nat)
    ensures F.AllSendable(F.AcknowledgeAll(dues), maximum)
    ensures |F.EncodeAll(F.AcknowledgeAll(dues), maximum)| == SizeOf(ACKNOWLEDGE) * |dues|
  {
    hide F.Encode, F.Command.Sendable;
    if dues != [] {
      var n := |dues| - 1;
      AcknowledgedSize(dues[..n], maximum);
      F.AcknowledgeIsSendable(dues[n], maximum);
      F.EncodeOneMore(F.AcknowledgeAll(dues[..n]), F.AcknowledgeFor(dues[n]), maximum);
      assert F.AcknowledgeAll(dues) == F.AcknowledgeAll(dues[..n]) + [F.AcknowledgeFor(dues[n])];
    }
  }

  lemma NothingEncoded(maximum: nat)
    ensures F.EncodeAll([], maximum) == []
  {
  }

  lemma {:induction false} EncodesJoined(a: seq<F.Command>, b: seq<F.Command>, maximum: nat)
    requires F.AllSendable(a, maximum) && F.AllSendable(b, maximum)
    ensures F.AllSendable(a + b, maximum)
    ensures F.EncodeAll(a + b, maximum) == F.EncodeAll(a, maximum) + F.EncodeAll(b, maximum)
  {
    hide F.Encode, F.EncodeAll, F.Command.Sendable;
    if b == [] {
      assert a + b == a;
      NothingEncoded(maximum);
    } else {
      var n := |b| - 1;
      EncodesJoined(a, b[..n], maximum);
      F.EncodeOneMore(a + b[..n], b[n], maximum);
      F.EncodeOneMore(b[..n], b[n], maximum);
      assert b == b[..n] + [b[n]] && a + b == (a + b[..n]) + [b[n]];
    }
  }

  /** What a peer's datagram holds, its acknowledgements and then its commands, goes out in bytes
      that fit the mtu, are as many as were counted, but for a sent time that is left out, and are
      read back as just these commands. */
  lemma DatagramIsReadBack(d: Datagram, mtu: nat, cs: seq<F.Command>, h: F.Header, checksum: seq<F.Byte>, maximum: nat)
    requires d.Within(mtu) && d.headerSize == HEADER_SIZE + |checksum| && h.Proper()
    requires RendersAll(cs, d.commands) && F.AllSendable(cs, maximum)
    ensures var all := F.AcknowledgeAll(d.acknowledged) + cs;
            && F.AllSendable(all, maximum)
            && var bytes := F.EncodeHeader(h, checksum) + F.EncodeAll(all, maximum);
               && |bytes| + (if h.timed then 0 else 2) == d.packetSize <= mtu
               && F.Decode(bytes, |checksum|, maximum) == F.Received(h, all)
  {
    hide F.EncodeAll, F.AllSendable, WireSizes, Buffers, RendersAll, F.Decode, F.EncodeHeader;
    var acks := F.AcknowledgeAll(d.acknowledged);
    AcknowledgedSize(d.acknowledged, maximum);
    RenderedSize(cs, d.commands, maximum);
    EncodesJoined(acks, cs, maximum);
    F.DecodesBack(h, checksum, acks + cs, maximum);
  }
}
