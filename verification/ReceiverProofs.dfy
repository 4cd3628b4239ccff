/** What the receiver's 16-bit bookkeeping means in true numbers. */
module ReceiverProofs {
  import opened Lists
  import opened Windows
  import opened R = ReliableReceiver
  import opened ReliableChannel

  // ---------------------------------------------------------------- numbers of messages

  lemma {:induction false} UsedGrows(log: seq<Message>, a: nat, b: nat)
    requires a <= b <= |log|
    ensures Used(log, a) <= Used(log, b)
    ensures a < b ==> Used(log, a) + |log[a].pieces| <= Used(log, b)
    decreases b
  {
    if a < b {
      UsedGrows(log, a, b - 1);
    }
  }

  /** A true number belongs to one piece of one message only. */
  lemma NumberUnique(log: seq<Message>, i: nat, j: nat, a: nat, b: nat)
    requires i < |log| && j < |log[i].pieces| && a < |log| && b < |log[a].pieces|
    requires Number(log, i, j) == Number(log, a, b)
    ensures i == a && j == b
  {
    if i < a {
      UsedGrows(log, i, a);
      assert false;
    } else if a < i {
      UsedGrows(log, a, i);
      assert false;
    }
  }

  lemma {:induction false} UsedOfLonger(log: seq<Message>, more: seq<Message>, count: nat)
    requires count <= |log|
    ensures Used(log + more, count) == Used(log, count)
  {
    if count > 0 {
      UsedOfLonger(log, more, count - 1);
    }
  }

  // ---------------------------------------------------------------- the scan

  ghost predicate Keyed(waiting: seq<InCommand>, keys: seq<nat>, r: nat) {
    && |keys| == |waiting|
    && (forall k :: 0 <= k < |keys| ==> waiting[k].stored == Wire(keys[k]) && r < keys[k] < r + MODULUS)
    && forall k, l :: 0 <= k < l < |keys| ==> keys[k] < keys[l]
  }

  /** The scan finds the place of `t` in the order of the true numbers. */
  lemma {:induction false} ScanFinds(waiting: seq<InCommand>, keys: seq<nat>, r: nat, t: nat)
    requires Keyed(waiting, keys, r) && r < t < r + MODULUS
    ensures match Scan(waiting, Wire(r), Wire(t))
            case Duplicate(k) => keys[k] == t
            case Slot(p) =>
              (forall k :: 0 <= k < p ==> keys[k] < t) && (forall k :: p <= k < |keys| ==> t < keys[k])
  {
    if waiting != [] {
      var last := |waiting| - 1;
      CompareAround(t, keys[last], r);
      if t < keys[last] {
        ScanFinds(waiting[..last], keys[..last], r, t);
      }
    }
  }

  // ---------------------------------------------------------------- contents of a command

  function Missing(marks: seq<bool>): nat {
    if marks == [] then 0 else (if marks[0] then 0 else 1) + Missing(marks[1..])
  }

  function Offset(pieces: seq<seq<Byte>>, j: nat): nat
    requires j <= |pieces|
  {
    |Joined(pieces[..j])|
  }

  lemma {:induction false} OffsetNext(pieces: seq<seq<Byte>>, j: nat)
    requires j < |pieces|
    ensures Joined(pieces[..j + 1]) == Joined(pieces[..j]) + pieces[j]
  {
    assert pieces[..j + 1][..j] == pieces[..j];
  }

  lemma {:induction false} OffsetsAscend(pieces: seq<seq<Byte>>, j: nat, k: nat)
    requires j < k <= |pieces|
    ensures Offset(pieces, j) + |pieces[j]| <= Offset(pieces, k)
    decreases k
  {
    OffsetNext(pieces, k - 1);
    if j < k - 1 {
      OffsetsAscend(pieces, j, k - 1);
    }
  }

  lemma PieceFits(pieces: seq<seq<Byte>>, j: nat)
    requires j < |pieces|
    ensures Offset(pieces, j) + |pieces[j]| <= |Joined(pieces)|
  {
    OffsetsAscend(pieces, j, |pieces|);
    assert pieces[..|pieces|] == pieces;
  }

  lemma {:induction false} JoinedIsLong(pieces: seq<seq<Byte>>)
    requires forall j :: 0 <= j < |pieces| ==> |pieces[j]| > 0
    ensures |Joined(pieces)| >= |pieces|
  {
    if pieces != [] {
      JoinedIsLong(pieces[..|pieces| - 1]);
    }
  }

  ghost predicate PieceInPlace(data: seq<Byte>, pieces: seq<seq<Byte>>, j: nat)
    requires j < |pieces|
  {
    var at := Offset(pieces, j);
    at + |pieces[j]| <= |data| && data[at..at + |pieces[j]|] == pieces[j]
  }

  ghost predicate Reassembling(x: InCommand, pieces: seq<seq<Byte>>) {
    && x.fragmentCount == |pieces| == |x.marks|
    && x.remaining == Missing(x.marks)
    && |x.data| == |Joined(pieces)|
    && forall j :: 0 <= j < |pieces| && x.marks[j] ==> PieceInPlace(x.data, pieces, j)
  }

  ghost predicate Contains(x: InCommand, pieces: seq<seq<Byte>>) {
    if |pieces| == 1 then x.fragmentCount == 0 && x.remaining == 0 && x.data == Joined(pieces)
    else Reassembling(x, pieces)
  }

  predicate HasPiece(x: InCommand, j: nat) {
    x.fragmentCount == 0 || (j < |x.marks| && x.marks[j])
  }

  lemma {:induction false} MissingAt(marks: seq<bool>, j: nat)
    requires j < |marks| && !marks[j]
    ensures Missing(marks) > 0
    ensures Missing(marks[j := true]) == Missing(marks) - 1
  {
    if j > 0 {
      MissingAt(marks[1..], j - 1);
      assert marks[j := true][1..] == marks[1..][j - 1 := true];
    } else {
      assert marks[0 := true][1..] == marks[1..];
    }
  }

  lemma {:induction false} SomeMissing(marks: seq<bool>) returns (j: nat)
    requires Missing(marks) > 0
    ensures j < |marks| && !marks[j]
  {
    if !marks[0] {
      j := 0;
    } else {
      var k := SomeMissing(marks[1..]);
      j := k + 1;
    }
  }

  lemma {:induction false} MissingAll(count: nat)
    ensures Missing(Unmarked(count)) == count
  {
    if count > 0 {
      MissingAll(count - 1);
      assert Unmarked(count)[1..] == Unmarked(count - 1);
    }
  }

  /** All fragments in: the bytes are the original ones. */
  lemma {:induction false} AllInPlace(data: seq<Byte>, pieces: seq<seq<Byte>>, upto: nat)
    requires upto <= |pieces| && |data| == |Joined(pieces)|
    requires forall j :: 0 <= j < upto ==> PieceInPlace(data, pieces, j)
    ensures Offset(pieces, upto) <= |data| && data[..Offset(pieces, upto)] == Joined(pieces[..upto])
  {
    if upto > 0 {
      AllInPlace(data, pieces, upto - 1);
      OffsetNext(pieces, upto - 1);
      assert PieceInPlace(data, pieces, upto - 1);
      var at := Offset(pieces, upto - 1);
      assert data[..Offset(pieces, upto)] == data[..at] + data[at..at + |pieces[upto - 1]|];
    }
  }

  lemma CompleteIsBody(x: InCommand, pieces: seq<seq<Byte>>)
    requires Contains(x, pieces) && x.remaining == 0
    ensures x.data == Joined(pieces)
    ensures forall j :: 0 <= j < |pieces| ==> HasPiece(x, j)
  {
    if |pieces| != 1 {
      forall j | 0 <= j < |pieces|
        ensures x.marks[j]
      {
        if !x.marks[j] { MissingAt(x.marks, j); }
      }
      AllInPlace(x.data, pieces, |pieces|);
      assert pieces[..|pieces|] == pieces;
    }
  }

  lemma OverwriteKeeps(data: seq<Byte>, pieces: seq<seq<Byte>>, j: nat, k: nat)
    requires j < |pieces| && k < |pieces| && j != k && |data| == |Joined(pieces)|
    requires PieceInPlace(data, pieces, k)
    requires Offset(pieces, j) + |pieces[j]| <= |data|
    ensures PieceInPlace(Overwrite(data, Offset(pieces, j), pieces[j]), pieces, k)
  {
    var at, bt := Offset(pieces, j), Offset(pieces, k);
    if j < k { OffsetsAscend(pieces, j, k); } else { OffsetsAscend(pieces, k, j); }
    hide Offset, Overwrite;
    OverwriteElsewhere(data, at, pieces[j], bt, bt + |pieces[k]|);
  }

  lemma OverwriteElsewhere(data: seq<Byte>, at: nat, piece: seq<Byte>, from: nat, to: nat)
    requires at + |piece| <= |data| && from <= to <= |data| && (to <= at || at + |piece| <= from)
    ensures Overwrite(data, at, piece)[from..to] == data[from..to]
  {
    var after := Overwrite(data, at, piece);
    forall i | from <= i < to
      ensures after[i] == data[i]
    {
      assert i < at || i >= at + |piece|;
    }
  }

  /** Filling in a missing fragment keeps the reassembly sound and adds just that fragment. */
  lemma FillKeeps(x: InCommand, pieces: seq<seq<Byte>>, f: Fragment, maximum: nat)
    requires Reassembling(x, pieces) && f.Sound(maximum) && BelongsTo(f, x)
    requires f.number < |pieces| && !x.marks[f.number]
    requires f.offset == Offset(pieces, f.number) && f.data == pieces[f.number]
    ensures x.remaining > 0 && Reassembling(Filled(x, f, maximum), pieces)
  {
    MissingAt(x.marks, f.number);
    var y := Filled(x, f, maximum);
    forall k | 0 <= k < |pieces| && y.marks[k]
      ensures PieceInPlace(y.data, pieces, k)
    {
      if k != f.number {
        OverwriteKeeps(x.data, pieces, f.number, k);
      }
    }
  }

  // ---------------------------------------------------------------- size limit

  /** No packet larger than the host's limit is stored or delivered. */
  predicate WithinMaximum(rx: Receiver, maximum: nat) {
    && (forall k :: 0 <= k < |rx.waiting| ==> |rx.waiting[k].data| <= maximum)
    && (forall k :: 0 <= k < |rx.delivered| ==> |rx.delivered[k]| <= maximum)
  }

  lemma {:induction false} DispatchWithinMaximum(rx: Receiver, maximum: nat)
    requires WithinMaximum(rx, maximum)
    ensures WithinMaximum(Dispatch(rx), maximum)
    decreases |rx.waiting|
  {
    if rx.waiting != [] && Ready(rx.waiting[0], rx.position) {
      DispatchWithinMaximum(Receiver(Past(rx.waiting[0]), rx.waiting[1..], rx.delivered + [rx.waiting[0].data]),
          maximum);
    }
  }

  lemma PacketWithinMaximum(rx: Receiver, q: Word16, data: seq<Byte>, maximum: nat, full: bool)
    requires WithinMaximum(rx, maximum) && ReceivePacket(rx, q, data, maximum, full).Taken?
    ensures WithinMaximum(ReceivePacket(rx, q, data, maximum, full).rx, maximum)
  {
    var place := Scan(rx.waiting, rx.position, q);
    if place.Slot? {
      DispatchWithinMaximum(rx.(waiting := Inserted(rx.waiting, place.index, InCommand(q, 0, 0, [], data))), maximum);
    }
  }

  lemma FillWithinMaximum(rx: Receiver, index: nat, f: Fragment, maximum: nat)
    requires WithinMaximum(rx, maximum)
    requires f.Sound(maximum) && index < |rx.waiting| && BelongsTo(f, rx.waiting[index])
    ensures WithinMaximum(FillAt(rx, index, f, maximum), maximum)
  {
    var x := rx.waiting[index];
    if !x.marks[f.number] && x.remaining == 1 {
      DispatchWithinMaximum(rx.(waiting := rx.waiting[index := Filled(x, f, maximum)]), maximum);
    }
  }

  lemma OpenWithinMaximum(rx: Receiver, index: nat, f: Fragment, maximum: nat)
    requires WithinMaximum(rx, maximum) && f.Sound(maximum) && index <= |rx.waiting|
    ensures WithinMaximum(OpenAndFill(rx, index, f, maximum), maximum)
  {
    var longer := Opened(rx, index, f);
    DispatchStops(longer, index);
    DispatchWithinMaximum(longer, maximum);
    FillWithinMaximum(Dispatch(longer), index - (|longer.waiting| - |Dispatch(longer).waiting|), f, maximum);
  }

  lemma FragmentWithinMaximum(rx: Receiver, f: Fragment, maximum: nat, full: bool)
    requires WithinMaximum(rx, maximum) && ReceiveFragment(rx, f, maximum, full).Taken?
    ensures WithinMaximum(ReceiveFragment(rx, f, maximum, full).rx, maximum)
  {
    if f.Sound(maximum) && Accepts(f.start, rx.position) && 0 < |f.data| <= maximum {
      var place := Scan(rx.waiting, rx.position, f.start);
      if place.Duplicate? {
        FillWithinMaximum(rx, place.index, f, maximum);
      } else {
        OpenWithinMaximum(rx, place.index, f, maximum);
      }
    }
  }
}
