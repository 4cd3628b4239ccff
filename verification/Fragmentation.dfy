/** How a packet that is to be sent is cut into commands, and that the pieces make up the same
    packet again. */
module Fragmentation {
  import opened Windows
  import opened Commands
  import opened ReliableReceiver
  import opened ReliableChannel
  import opened ReceiverProofs
  import ReliableDelivery

  datatype Piece = Piece(number: nat, offset: nat, length: nat)

  function Count(total: nat, limit: nat): nat
    requires limit > 0
  {
    (total + limit - 1) / limit
  }

  function PieceAt(total: nat, limit: nat, j: nat): Piece
    requires j * limit < total
  {
    Piece(j, j * limit, if total - j * limit < limit then total - j * limit else limit)
  }

  /** The count is the ceiling of the quotient. */
  lemma CountIsCeiling(total: nat, limit: nat)
    requires limit > 0 && total > 0
    ensures var n := Count(total, limit); n > 0 && (n - 1) * limit < total <= n * limit
  {
    var n := Count(total, limit);
    assert total + limit - 1 == n * limit + (total + limit - 1) % limit;
    assert (n - 1) * limit == n * limit - limit;
  }

  lemma {:induction false} Multiples(j: nat, n: nat, limit: nat)
    requires j < n
    ensures j * limit + limit <= n * limit
  {
    assert n * limit == (n - 1) * limit + limit;
    if j + 1 < n {
      Multiples(j, n - 1, limit);
    }
  }

  lemma EarlierStarts(total: nat, limit: nat, j: nat)
    requires limit > 0 && total > 0 && j < Count(total, limit)
    ensures j * limit < total
  {
    CountIsCeiling(total, limit);
    if j < Count(total, limit) - 1 { Multiples(j, Count(total, limit) - 1, limit); }
  }

  function Pieces(total: nat, limit: nat): (r: seq<Piece>)
    requires limit > 0 && total > 0
    ensures |r| == Count(total, limit)
  {
    seq(Count(total, limit), j requires 0 <= j < Count(total, limit) => EarlierStarts(total, limit, j);
        PieceAt(total, limit, j))
  }

  /** Where piece `j` starts, and where the packet ends. */
  function Start(total: nat, limit: nat, j: nat): nat
    requires limit > 0
  {
    if j >= Count(total, limit) then total else j * limit
  }

  /** The loop of enet_peer_send: the length of the last piece is cut down when it is reached. */
  method Cut(total: nat, limit: nat) returns (pieces: seq<Piece>)
    requires 0 < limit < total
    ensures pieces == Pieces(total, limit)
  {
    var number, offset, length := 0, 0, limit;
    pieces := [];
    hide Count, Start, Pieces, PieceAt;
    StartsAtZero(total, limit);
    while offset < total
      invariant number <= Count(total, limit) && offset == Start(total, limit, number) <= total
      invariant number == Count(total, limit) <==> offset == total
      invariant number < Count(total, limit) ==> length == limit
      invariant pieces == Pieces(total, limit)[..number]
      decreases total - offset
    {
      PieceIs(total, limit, number);
      if total - offset < length {
        length := total - offset;
      }
      pieces := pieces + [Piece(number, offset, length)];
      number, offset := number + 1, offset + length;
    }
    assert pieces == Pieces(total, limit);
  }

  lemma StartsAtZero(total: nat, limit: nat)
    requires 0 < limit < total
    ensures Start(total, limit, 0) == 0 && Count(total, limit) > 0
  {
    CountIsCeiling(total, limit);
  }

  /** Each piece begins where the one before ends, and the last ends the packet. */
  lemma Follows(total: nat, limit: nat, j: nat)
    requires limit > 0 && total > 0 && j < Count(total, limit)
    ensures j * limit < total
    ensures PieceAt(total, limit, j).offset == Start(total, limit, j) < total
    ensures 0 < PieceAt(total, limit, j).length <= limit
            && (j + 1 < Count(total, limit) ==> PieceAt(total, limit, j).length == limit)
    ensures Start(total, limit, j) + PieceAt(total, limit, j).length == Start(total, limit, j + 1)
    ensures Start(total, limit, j + 1) == total <==> j + 1 == Count(total, limit)
    ensures PieceAt(total, limit, j).offset + PieceAt(total, limit, j).length
            == if j + 1 == Count(total, limit) then total else (j + 1) * limit
  {
    EarlierStarts(total, limit, j);
    CountIsCeiling(total, limit);
    if j + 1 < Count(total, limit) {
      EarlierStarts(total, limit, j + 1);
    }
  }

  /** The same without products. */
  lemma PieceIs(total: nat, limit: nat, j: nat)
    requires limit > 0 && total > 0 && j < Count(total, limit)
    ensures var at, p := Start(total, limit, j), Pieces(total, limit)[j];
            && at < total && p == Piece(j, at, if total - at < limit then total - at else limit)
            && at + p.length == Start(total, limit, j + 1)
            && (j + 1 < Count(total, limit) ==> p.length == limit)
            && (Start(total, limit, j + 1) == total <==> j + 1 == Count(total, limit))
  {
    Follows(total, limit, j);
  }

  // ---------------------------------------------------------------- the bytes

  function Bytes(packet: seq<Byte>, limit: nat): (r: seq<seq<Byte>>)
    requires limit > 0
    ensures |r| == if |packet| <= limit then 1 else Count(|packet|, limit)
  {
    if |packet| <= limit then [packet]
    else
      var pieces := Pieces(|packet|, limit);
      seq(|pieces|, j requires 0 <= j < |pieces| =>
        Follows(|packet|, limit, j);
        assert pieces[j].offset + pieces[j].length <= |packet| by { WithinPacket(|packet|, limit, j); }
        packet[pieces[j].offset..pieces[j].offset + pieces[j].length])
  }

  lemma WithinPacket(total: nat, limit: nat, j: nat)
    requires limit > 0 && total > 0 && j < Count(total, limit)
    ensures Pieces(total, limit)[j].offset + Pieces(total, limit)[j].length <= total
  {
    Follows(total, limit, j);
  }

  /** The first `n` pieces, joined, are the packet up to where piece `n` starts. */
  lemma {:induction false} JoinedUpTo(packet: seq<Byte>, limit: nat, n: nat)
    requires 0 < limit < |packet| && n <= Count(|packet|, limit)
    ensures var upto := if n == Count(|packet|, limit) then |packet| else n * limit;
            upto <= |packet| && Joined(Bytes(packet, limit)[..n]) == packet[..upto]
  {
    CountIsCeiling(|packet|, limit);
    if n == 0 {
      assert packet[..0] == [];
    } else {
      JoinedUpTo(packet, limit, n - 1);
      Follows(|packet|, limit, n - 1);
      var bytes, at := Bytes(packet, limit), (n - 1) * limit;
      var end := at + PieceAt(|packet|, limit, n - 1).length;
      assert bytes[..n][..n - 1] == bytes[..n - 1];
      WithinPacket(|packet|, limit, n - 1);
      assert packet[..at] + packet[at..end] == packet[..end];
    }
  }

  /** Nothing is lost, doubled or reordered by cutting: the pieces in order are the packet. */
  lemma CutCovers(packet: seq<Byte>, limit: nat)
    requires limit > 0
    ensures Joined(Bytes(packet, limit)) == packet
    ensures forall j :: 0 <= j < |Bytes(packet, limit)| && |packet| > limit ==> 0 < |Bytes(packet, limit)[j]| <= limit
  {
    var bytes := Bytes(packet, limit);
    if |packet| <= limit {
      assert bytes[..0] == [];
    } else {
      JoinedUpTo(packet, limit, |bytes|);
      assert bytes[..|bytes|] == bytes;
      forall j | 0 <= j < |bytes|
        ensures 0 < |bytes[j]| <= limit
      {
        Follows(|packet|, limit, j);
      }
    }
  }

  // ---------------------------------------------------------------- what is sent how

  /** The commands a packet is sent by. */
  datatype Sending =
    | Refused
    | Whole(kind: nat, acknowledged: bool)
    | Cut(kind: nat, acknowledged: bool, start: Word16, pieces: seq<Piece>)

  /** enet_peer_send for a connected peer: `reliable`, `unsequenced` and `fragmented` are flags
      of the packet, `last` and `unreliable` the channel's last reliable and unreliable numbers. What is
      sent is settled by these: it is acknowledged if that is asked for, or if the unreliable numbers have
      run out, or if it is cut without leave to lose pieces. */
  method Send(total: nat, maximum: nat, mtu: nat, checksum: bool, reliable: bool, unsequenced: bool, fragmented: bool,
              last: Word16, unreliable: Word16) returns (sending: Sending)
    requires MINIMUM_MTU <= mtu <= MAXIMUM_MTU
    ensures var limit := FragmentLimit(mtu, checksum);
            && (sending.Refused? <==> total > maximum || (total > limit && Count(total, limit) > MAXIMUM_FRAGMENTS))
            && (sending.Whole? ==> total <= limit)
            && (sending.Cut? ==> total > limit && sending.pieces == Pieces(total, limit))
    ensures sending.Whole?
            ==> (sending.acknowledged <==> reliable || (!unsequenced && unreliable >= 0xFFFF))
                && sending.kind == (if sending.acknowledged then SEND_RELIABLE
                                    else if unsequenced then SEND_UNSEQUENCED else SEND_UNRELIABLE)
    ensures sending.Cut?
            ==> (sending.acknowledged <==> reliable || !fragmented || unreliable >= 0xFFFF)
                && sending.kind == (if sending.acknowledged then SEND_FRAGMENT else SEND_UNRELIABLE_FRAGMENT)
    ensures sending.Cut? ==> sending.start == if sending.acknowledged then (last + 1) % MODULUS else unreliable + 1
  {
    if total > maximum { return Sending.Refused; }
    var limit := FragmentLimit(mtu, checksum);
    if total > limit {
      if (total + limit - 1) / limit > MAXIMUM_FRAGMENTS { return Sending.Refused; }
      var pieces := Cut(total, limit);
      if fragmented && !reliable && unreliable < 0xFFFF {
        return Sending.Cut(SEND_UNRELIABLE_FRAGMENT, false, unreliable + 1, pieces);
      }
      return Sending.Cut(SEND_FRAGMENT, true, (last + 1) % MODULUS, pieces);
    }
    if unsequenced && !reliable { return Whole(SEND_UNSEQUENCED, false); }
    if reliable || unreliable >= 0xFFFF { return Whole(SEND_RELIABLE, true); }
    return Whole(SEND_UNRELIABLE, false);
  }

  // ---------------------------------------------------------------- putting together again

  /** The fragment command that carries piece `j`. */
  function FragmentFor(packet: seq<Byte>, limit: nat, start: Word16, j: nat): Fragment
    requires 0 < limit < |packet| && j < Count(|packet|, limit)
  {
    var piece := Pieces(|packet|, limit)[j];
    Fragment(start, Count(|packet|, limit), j, |packet|, piece.offset, Bytes(packet, limit)[j])
  }

  /** It is just what the receiving side expects of piece `j`, and passes its checks. */
  lemma FragmentFits(packet: seq<Byte>, limit: nat, start: Word16, j: nat, maximum: nat)
    requires 0 < limit < |packet| <= maximum && j < Count(|packet|, limit) <= MAXIMUM_FRAGMENTS
    ensures var f, bytes := FragmentFor(packet, limit, start, j), Bytes(packet, limit);
            && f.offset == Offset(bytes, j) && f.data == bytes[j] && f.count == |bytes| && f.total == |Joined(bytes)|
            && f.Sound(maximum) && 0 < |f.data| <= limit
  {
    var bytes := Bytes(packet, limit);
    Follows(|packet|, limit, j);
    JoinedUpTo(packet, limit, j);
    CutCovers(packet, limit);
    JoinedIsLong(bytes);
  }

  /** The packet after the fragments numbered in `order` have arrived, repetitions ignored. */
  function Assembled(packet: seq<Byte>, limit: nat, start: Word16, maximum: nat, order: seq<nat>): (x: InCommand)
    requires 0 < limit < |packet| <= maximum && Count(|packet|, limit) <= MAXIMUM_FRAGMENTS
    requires forall k :: 0 <= k < |order| ==> order[k] < Count(|packet|, limit)
    ensures x.fragmentCount == |x.marks| == Count(|packet|, limit) && |x.data| == |packet|
  {
    var n := Count(|packet|, limit);
    if order == [] then
      CountIsCeiling(|packet|, limit);
      InCommand(start, n, n, Unmarked(n), Blank(|packet|))
    else
      var x, j := Assembled(packet, limit, start, maximum, order[..|order| - 1]), order[|order| - 1];
      FragmentFits(packet, limit, start, j, maximum);
      if x.marks[j] || x.remaining == 0 then x else Filled(x, FragmentFor(packet, limit, start, j), maximum)
  }

  lemma {:induction false} AssemblyIsSound(packet: seq<Byte>, limit: nat, start: Word16, maximum: nat, order: seq<nat>)
    requires 0 < limit < |packet| <= maximum && Count(|packet|, limit) <= MAXIMUM_FRAGMENTS
    requires forall k :: 0 <= k < |order| ==> order[k] < Count(|packet|, limit)
    ensures var x := Assembled(packet, limit, start, maximum, order);
            && Reassembling(x, Bytes(packet, limit))
            && forall j :: 0 <= j < |x.marks| ==> (x.marks[j] <==> j in order)
  {
    var n := Count(|packet|, limit);
    if order == [] {
      NothingAssembled(packet, limit, start, maximum);
    } else {
      var front, j := order[..|order| - 1], order[|order| - 1];
      AssemblyIsSound(packet, limit, start, maximum, front);
      assert order == front + [j];
      hide Count, Bytes, Joined, FragmentFor, Pieces, Filled;
      var x := Assembled(packet, limit, start, maximum, front);
      if !x.marks[j] {
        OneMoreFragment(packet, limit, start, maximum, x, j);
      }
    }
  }

  lemma NothingAssembled(packet: seq<Byte>, limit: nat, start: Word16, maximum: nat)
    requires 0 < limit < |packet| <= maximum && Count(|packet|, limit) <= MAXIMUM_FRAGMENTS
    ensures var x := Assembled(packet, limit, start, maximum, []);
            Reassembling(x, Bytes(packet, limit)) && forall j :: 0 <= j < |x.marks| ==> !x.marks[j]
  {
    hide Count, Joined;
    CutCovers(packet, limit);
    MissingAll(Count(|packet|, limit));
  }

  /** A fragment not seen before. */
  lemma OneMoreFragment(packet: seq<Byte>, limit: nat, start: Word16, maximum: nat, x: InCommand, j: nat)
    requires 0 < limit < |packet| <= maximum && j < Count(|packet|, limit) <= MAXIMUM_FRAGMENTS
    requires Reassembling(x, Bytes(packet, limit)) && |x.data| == |packet| && !x.marks[j]
    ensures var f := FragmentFor(packet, limit, start, j);
            && x.remaining > 0 && f.Sound(maximum) && BelongsTo(f, x)
            && Reassembling(Filled(x, f, maximum), Bytes(packet, limit))
            && Filled(x, f, maximum).marks == x.marks[j := true]
  {
    hide Count, Joined, Bytes, Pieces;
    FragmentFits(packet, limit, start, j, maximum);
    CutCovers(packet, limit);
    MissingAt(x.marks, j);
    FillKeeps(x, Bytes(packet, limit), FragmentFor(packet, limit, start, j), maximum);
  }

  /** Whatever the order and the repetitions, the count of missing fragments is the number of
      clear marks; it reaches zero just when every fragment has arrived; and then the bytes
      are those of the packet. */
  lemma FragmentsMakeThePacket(packet: seq<Byte>, limit: nat, start: Word16, maximum: nat, order: seq<nat>)
    requires 0 < limit < |packet| <= maximum && Count(|packet|, limit) <= MAXIMUM_FRAGMENTS
    requires forall k :: 0 <= k < |order| ==> order[k] < Count(|packet|, limit)
    ensures var x := Assembled(packet, limit, start, maximum, order);
            && x.remaining == Missing(x.marks)
            && (x.remaining == 0 <==> forall j :: 0 <= j < Count(|packet|, limit) ==> j in order)
            && (x.remaining == 0 ==> x.data == packet)
  {
    AssemblyIsSound(packet, limit, start, maximum, order);
    CutCovers(packet, limit);
    var x := Assembled(packet, limit, start, maximum, order);
    if x.remaining == 0 {
      forall j | 0 <= j < |x.marks|
        ensures x.marks[j]
      {
        if !x.marks[j] { MissingAt(x.marks, j); }
      }
      AllInPlace(x.data, Bytes(packet, limit), |x.marks|);
      assert Bytes(packet, limit)[..|x.marks|] == Bytes(packet, limit);
    } else {
      var j := SomeMissing(x.marks);
    }
  }

  // ---------------------------------------------------------------- end to end

  /** Every packet that is not refused is a message of the reliable channel. */
  lemma PacketIsSendable(packet: seq<Byte>, limit: nat)
    requires limit > 0 && (|packet| > limit ==> Count(|packet|, limit) <= MAXIMUM_FRAGMENTS)
    ensures Message(Bytes(packet, limit)).Sendable()
  {
    CutCovers(packet, limit);
    if |packet| > limit {
      CountIsCeiling(|packet|, limit);
    }
  }

  /** From bytes to bytes: in every run in which every message is a packet cut like this, the
      packets delivered are the first ones sent. */
  lemma DeliveredPacketsAreTheSentOnes(states: seq<System>, steps: seq<Step>, k: nat, packets: seq<seq<Byte>>,
                                       limit: nat)
    requires Run(states, steps) && k < |states| && limit > 0 && Undisturbed(states, steps, k)
    requires |packets| == |states[k].log|
    requires forall i :: 0 <= i < |packets| ==> states[k].log[i].pieces == Bytes(packets[i], limit)
    ensures states[k].rx.delivered <= packets
  {
    ReliableDelivery.DeliveredIsPrefixOfSent(states, steps, k);
    forall i | 0 <= i < |packets|
      ensures Bodies(states[k].log)[i] == packets[i]
    {
      CutCovers(packets[i], limit);
    }
    assert Bodies(states[k].log) == packets;
  }
}
