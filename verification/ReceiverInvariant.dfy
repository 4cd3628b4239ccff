/** The receiver's invariant over true numbers, and that every arrival keeps it. */
module ReceiverInvariant {
  import opened Lists
  import opened Windows
  import opened R = ReliableReceiver
  import opened ReliableChannel
  import opened ReceiverProofs

  /** `ids[k]` is the message that waiting command `k` belongs to. Everything before the current
      position has been delivered; what waits lies ahead, in order, and no further ahead than
      `newest`, the newest number sent. */
  ghost predicate Placed(log: seq<Message>, rx: Receiver, ids: seq<nat>, newest: nat) {
    && |rx.delivered| <= |log|
    && rx.delivered == Bodies(log)[..|rx.delivered|]
    && rx.position == Wire(Used(log, |rx.delivered|))
    && |ids| == |rx.waiting|
    && (forall k, l :: 0 <= k < l < |ids| ==> ids[k] < ids[l])
    && forall k :: 0 <= k < |ids| ==> Waits(log, rx.waiting[k], ids[k], |rx.delivered|, newest)
  }

  ghost predicate Waits(log: seq<Message>, x: InCommand, id: nat, delivered: nat, newest: nat) {
    && delivered <= id < |log|
    && x.stored == Wire(Number(log, id, 0))
    && Number(log, id, 0) <= newest
    && Contains(x, log[id].pieces)
  }

  /** Nothing at the head is left undispatched. */
  predicate Settled(rx: Receiver) { rx.waiting != [] ==> !Ready(rx.waiting[0], rx.position) }

  /** The receiver holds, or has delivered, piece `j` of message `i`. */
  ghost predicate Got(rx: Receiver, ids: seq<nat>, i: nat, j: nat) {
    i < |rx.delivered| || exists k :: 0 <= k < |ids| && k < |rx.waiting| && ids[k] == i && HasPiece(rx.waiting[k], j)
  }

  predicate AllSendable(log: seq<Message>) { forall i :: 0 <= i < |log| ==> log[i].Sendable() }

  /** The newest number sent lies at most seven windows past the receiver's position. */
  predicate WithinReach(log: seq<Message>, rx: Receiver, newest: nat)
    requires |rx.delivered| <= |log|
  {
    newest / WINDOW_SIZE <= Used(log, |rx.delivered|) / WINDOW_SIZE + 7
  }

  function Keys(log: seq<Message>, ids: seq<nat>): (keys: seq<nat>)
    requires forall k :: 0 <= k < |ids| ==> ids[k] < |log|
    ensures |keys| == |ids|
  {
    seq(|ids|, k requires 0 <= k < |ids| => Number(log, ids[k], 0))
  }

  lemma PlacedIsKeyed(log: seq<Message>, rx: Receiver, ids: seq<nat>, newest: nat)
    requires AllSendable(log) && Placed(log, rx, ids, newest) && WithinReach(log, rx, newest)
    ensures Keyed(rx.waiting, Keys(log, ids), Used(log, |rx.delivered|))
  {
    var keys, r := Keys(log, ids), Used(log, |rx.delivered|);
    forall k | 0 <= k < |ids|
      ensures rx.waiting[k].stored == Wire(keys[k]) && r < keys[k] < r + MODULUS
    {
      assert Waits(log, rx.waiting[k], ids[k], |rx.delivered|, newest);
      UsedGrows(log, |rx.delivered|, ids[k]);
    }
    forall k, l | 0 <= k < l < |ids|
      ensures keys[k] < keys[l]
    {
      assert Waits(log, rx.waiting[k], ids[k], |rx.delivered|, newest);
      assert Waits(log, rx.waiting[l], ids[l], |rx.delivered|, newest);
      UsedGrows(log, ids[k], ids[l]);
    }
  }

  // ---------------------------------------------------------------- dispatch

  /** A ready head is the very next message. */
  lemma ReadyIsNextNumber(log: seq<Message>, rx: Receiver, ids: seq<nat>, newest: nat)
    requires AllSendable(log) && Placed(log, rx, ids, newest) && WithinReach(log, rx, newest)
    requires rx.waiting != [] && Ready(rx.waiting[0], rx.position)
    ensures ids[0] == |rx.delivered|
  {
    hide Bodies, Contains;
    var d, r := |rx.delivered|, Used(log, |rx.delivered|);
    assert Waits(log, rx.waiting[0], ids[0], d, newest);
    WireAdds(r, 1);
    UsedGrows(log, d, ids[0]);
    WithinOneTurn(log, rx, ids, newest);
    NoAlias(Number(log, ids[0], 0), r + 1);
  }

  lemma WithinOneTurn(log: seq<Message>, rx: Receiver, ids: seq<nat>, newest: nat)
    requires |rx.delivered| <= |log| && WithinReach(log, rx, newest)
    requires |ids| > 0 && ids[0] < |log| && Number(log, ids[0], 0) <= newest
    ensures Number(log, ids[0], 0) < Used(log, |rx.delivered|) + MODULUS
  {
  }

  lemma ReadyIsNext(log: seq<Message>, rx: Receiver, ids: seq<nat>, newest: nat)
    requires AllSendable(log) && Placed(log, rx, ids, newest) && WithinReach(log, rx, newest)
    requires rx.waiting != [] && Ready(rx.waiting[0], rx.position)
    ensures ids[0] == |rx.delivered|
    ensures rx.waiting[0].data == Joined(log[ids[0]].pieces)
    ensures Past(rx.waiting[0]) == Wire(Used(log, ids[0] + 1))
    ensures forall j :: 0 <= j < |log[ids[0]].pieces| ==> HasPiece(rx.waiting[0], j)
  {
    ReadyIsNextNumber(log, rx, ids, newest);
    assert Waits(log, rx.waiting[0], ids[0], |rx.delivered|, newest);
    hide Placed, WithinReach, Bodies, HasPiece, Contains, Joined;
    CompleteIsBody(rx.waiting[0], log[ids[0]].pieces);
    PastIsLast(log, ids[0], rx.waiting[0]);
  }

  /** What is dispatched takes the position to its last number. */
  lemma PastIsLast(log: seq<Message>, i: nat, x: InCommand)
    requires i < |log| && log[i].Sendable() && x.stored == Wire(Number(log, i, 0)) && Contains(x, log[i].pieces)
    ensures Past(x) == Wire(Used(log, i + 1))
  {
    var n, first := |log[i].pieces|, Number(log, i, 0);
    assert first == Used(log, i) + 1 && Used(log, i + 1) == Used(log, i) + n;
    assert x.fragmentCount == if n == 1 then 0 else n;
    hide Joined, Contains, Used, Wire;
    WireAdds(first, if n == 1 then 0 else n - 1);
  }

  /** The receiver after its ready head has gone to the application. */
  function Advanced(rx: Receiver): Receiver
    requires rx.waiting != []
  {
    Receiver(Past(rx.waiting[0]), rx.waiting[1..], rx.delivered + [rx.waiting[0].data])
  }

  lemma AdvanceKeeps(log: seq<Message>, rx: Receiver, ids: seq<nat>, newest: nat)
    requires AllSendable(log) && Placed(log, rx, ids, newest) && WithinReach(log, rx, newest)
    requires rx.waiting != [] && Ready(rx.waiting[0], rx.position)
    ensures Placed(log, Advanced(rx), ids[1..], newest) && WithinReach(log, Advanced(rx), newest)
  {
    ReadyIsNext(log, rx, ids, newest);
    var d := |rx.delivered|;
    var next := Advanced(rx);
    assert Waits(log, rx.waiting[0], ids[0], d, newest);
    UsedGrows(log, d, d + 1);
    forall k | 0 <= k < |ids| - 1
      ensures Waits(log, next.waiting[k], ids[1..][k], d + 1, newest)
    {
      assert Waits(log, rx.waiting[k + 1], ids[k + 1], d, newest);
    }
    assert Bodies(log)[..d + 1] == Bodies(log)[..d] + [Bodies(log)[d]];
  }

  ghost predicate SameGot(log: seq<Message>, rx: Receiver, ids: seq<nat>, rx': Receiver, ids': seq<nat>) {
    forall i, j :: 0 <= i < |log| && 0 <= j < |log[i].pieces| ==> Got(rx', ids', i, j) == Got(rx, ids, i, j)
  }

  /** Dispatching delivers the next messages in order and loses nothing. */
  lemma {:induction false} DispatchKeeps(log: seq<Message>, rx: Receiver, ids: seq<nat>, newest: nat)
      returns (ids': seq<nat>)
    requires AllSendable(log) && Placed(log, rx, ids, newest) && WithinReach(log, rx, newest)
    ensures Placed(log, Dispatch(rx), ids', newest) && Settled(Dispatch(rx))
    ensures rx.delivered <= Dispatch(rx).delivered
    ensures SameGot(log, rx, ids, Dispatch(rx), ids')
    decreases |rx.waiting|
  {
    ids' := ids;
    if rx.waiting != [] && Ready(rx.waiting[0], rx.position) {
      AdvanceKeeps(log, rx, ids, newest);
      AdvanceGot(log, rx, ids, newest);
      ids' := DispatchKeeps(log, Advanced(rx), ids[1..], newest);
    }
  }

  lemma AdvanceGot(log: seq<Message>, rx: Receiver, ids: seq<nat>, newest: nat)
    requires AllSendable(log) && Placed(log, rx, ids, newest) && WithinReach(log, rx, newest)
    requires rx.waiting != [] && Ready(rx.waiting[0], rx.position)
    ensures SameGot(log, rx, ids, Advanced(rx), ids[1..])
  {
    ReadyIsNext(log, rx, ids, newest);
    forall i, j | 0 <= i < |log| && 0 <= j < |log[i].pieces|
      ensures Got(Advanced(rx), ids[1..], i, j) == Got(rx, ids, i, j)
    {
      StepGot(rx, Advanced(rx), ids, i, j);
    }
  }

  lemma StepGot(rx: Receiver, next: Receiver, ids: seq<nat>, i: nat, j: nat)
    requires |ids| == |rx.waiting| > 0 && ids[0] == |rx.delivered|
    requires forall k, l :: 0 <= k < l < |ids| ==> ids[k] < ids[l]
    requires next.waiting == rx.waiting[1..] && |next.delivered| == |rx.delivered| + 1
    requires i == ids[0] ==> HasPiece(rx.waiting[0], j)
    ensures Got(next, ids[1..], i, j) == Got(rx, ids, i, j)
  {
    if Got(rx, ids, i, j) && |rx.delivered| < i {
      var k :| 0 <= k < |ids| && ids[k] == i && HasPiece(rx.waiting[k], j);
      assert ids[1..][k - 1] == i && HasPiece(next.waiting[k - 1], j);
    }
  }

  // ---------------------------------------------------------------- arrivals

  /** A new command at its sorted place. */
  lemma InsertPlaced(log: seq<Message>, rx: Receiver, ids: seq<nat>, newest: nat, p: nat, id: nat, x: InCommand)
    requires Placed(log, rx, ids, newest) && p <= |ids|
    requires Waits(log, x, id, |rx.delivered|, newest)
    requires (forall k :: 0 <= k < p ==> ids[k] < id) && (forall k :: p <= k < |ids| ==> id < ids[k])
    ensures Placed(log, rx.(waiting := Inserted(rx.waiting, p, x)), Inserted(ids, p, id), newest)
  {
    hide Inserted, Waits;
    var rx', ids' := rx.(waiting := Inserted(rx.waiting, p, x)), Inserted(ids, p, id);
    forall k | 0 <= k < |ids'|
      ensures Waits(log, rx'.waiting[k], ids'[k], |rx.delivered|, newest)
      ensures ids'[k] == if k < p then ids[k] else if k == p then id else ids[k - 1]
    {
      InsertedAt(ids, p, id, k);
      InsertedAt(rx.waiting, p, x, k);
      if k != p {
        var l := if k < p then k else k - 1;
        assert Waits(log, rx.waiting[l], ids[l], |rx.delivered|, newest);
      }
    }
    forall k, l | 0 <= k < l < |ids'|
      ensures ids'[k] < ids'[l]
    {
      InsertedAt(ids, p, id, k);
      InsertedAt(ids, p, id, l);
    }
  }

  lemma InsertedAt<T>(s: seq<T>, p: nat, x: T, k: nat)
    requires p <= |s| && k <= |s|
    ensures Inserted(s, p, x)[k] == if k < p then s[k] else if k == p then x else s[k - 1]
  {
  }

  lemma InsertGot(rx: Receiver, ids: seq<nat>, p: nat, id: nat, x: InCommand, i: nat, j: nat)
    requires p <= |ids| == |rx.waiting|
    ensures var rx', ids' := rx.(waiting := Inserted(rx.waiting, p, x)), Inserted(ids, p, id);
            Got(rx', ids', i, j) <==> Got(rx, ids, i, j) || (i == id && HasPiece(x, j))
  {
    var rx', ids' := rx.(waiting := Inserted(rx.waiting, p, x)), Inserted(ids, p, id);
    if k :| 0 <= k < |ids| && ids[k] == i && HasPiece(rx.waiting[k], j) {
      var l := if k < p then k else k + 1;
      assert ids'[l] == i && HasPiece(rx'.waiting[l], j);
    }
    if k :| 0 <= k < |ids'| && ids'[k] == i && HasPiece(rx'.waiting[k], j) {
      if k != p {
        var l := if k < p then k else k - 1;
        assert ids[l] == i && HasPiece(rx.waiting[l], j);
      }
    }
    if i == id && HasPiece(x, j) {
      assert ids'[p] == i && HasPiece(rx'.waiting[p], j);
    }
  }

  lemma InsertKeeps(log: seq<Message>, rx: Receiver, ids: seq<nat>, newest: nat, p: nat, id: nat, x: InCommand)
    requires Placed(log, rx, ids, newest) && p <= |ids|
    requires Waits(log, x, id, |rx.delivered|, newest)
    requires (forall k :: 0 <= k < p ==> ids[k] < id) && (forall k :: p <= k < |ids| ==> id < ids[k])
    ensures var rx', ids' := rx.(waiting := Inserted(rx.waiting, p, x)), Inserted(ids, p, id);
            && Placed(log, rx', ids', newest)
            && forall i: nat, j: nat :: Got(rx', ids', i, j) <==> Got(rx, ids, i, j) || (i == id && HasPiece(x, j))
  {
    InsertPlaced(log, rx, ids, newest, p, id, x);
    forall i: nat, j: nat { InsertGot(rx, ids, p, id, x, i, j); }
  }

  /** Waiting command `p` replaced by one that also holds piece `piece`. */
  lemma ReplaceKeeps(log: seq<Message>, rx: Receiver, ids: seq<nat>, newest: nat, p: nat, x: InCommand, piece: nat)
    requires Placed(log, rx, ids, newest) && p < |ids|
    requires Waits(log, x, ids[p], |rx.delivered|, newest)
    requires forall j :: 0 <= j ==> (HasPiece(x, j) <==> HasPiece(rx.waiting[p], j) || j == piece)
    ensures var rx' := rx.(waiting := rx.waiting[p := x]);
            && Placed(log, rx', ids, newest)
            && forall i, j ::
               0 <= i && 0 <= j ==> (Got(rx', ids, i, j) <==> Got(rx, ids, i, j) || (i == ids[p] && j == piece))
  {
    var rx' := rx.(waiting := rx.waiting[p := x]);
    forall i: nat, j: nat
      ensures Got(rx', ids, i, j) <==> Got(rx, ids, i, j) || (i == ids[p] && j == piece)
    {
      if k :| 0 <= k < |ids| && ids[k] == i && HasPiece(rx.waiting[k], j) {
        assert ids[k] == i && HasPiece(rx'.waiting[k], j);
      }
      if k :| 0 <= k < |ids| && ids[k] == i && HasPiece(rx'.waiting[k], j) {
        assert k == p || HasPiece(rx.waiting[k], j);
      }
      if i == ids[p] && j == piece {
        assert HasPiece(rx'.waiting[p], j);
      }
    }
  }

  /** The scan finds message `id`, or its place among the waiting ones. */
  lemma ScanFindsMessage(log: seq<Message>, rx: Receiver, ids: seq<nat>, newest: nat, id: nat)
    requires AllSendable(log) && Placed(log, rx, ids, newest) && WithinReach(log, rx, newest)
    requires |rx.delivered| <= id < |log| && Number(log, id, 0) <= newest
    ensures match Scan(rx.waiting, rx.position, Wire(Number(log, id, 0)))
            case Duplicate(k) => ids[k] == id
            case Slot(p) => (forall k :: 0 <= k < p ==> ids[k] < id) && (forall k :: p <= k < |ids| ==> id < ids[k])
  {
    var r, t := Used(log, |rx.delivered|), Number(log, id, 0);
    var keys := Keys(log, ids);
    UsedGrows(log, |rx.delivered|, id);
    PlacedIsKeyed(log, rx, ids, newest);
    ScanFinds(rx.waiting, keys, r, t);
    forall k | 0 <= k < |ids|
      ensures (keys[k] < t ==> ids[k] < id) && (t < keys[k] ==> id < ids[k]) && (keys[k] == t ==> ids[k] == id)
    {
      assert Waits(log, rx.waiting[k], ids[k], |rx.delivered|, newest);
      if ids[k] < id { UsedGrows(log, ids[k], id); }
      if id < ids[k] { UsedGrows(log, id, ids[k]); }
    }
  }

  /** What an arrival of piece `j` of message `i` may change. */
  ghost predicate Absorbed(log: seq<Message>, rx: Receiver, ids: seq<nat>, rx': Receiver, ids': seq<nat>,
                           newest: nat, i: nat, j: nat)
  {
    && Placed(log, rx', ids', newest) && Settled(rx')
    && rx.delivered <= rx'.delivered
    && (forall a, b :: 0 <= a < |log| && 0 <= b < |log[a].pieces| ==>
          (Got(rx', ids', a, b) <==> Got(rx, ids, a, b) || (a == i && b == j && Got(rx', ids', i, j))))
  }

  predicate Arrival(log: seq<Message>, rx: Receiver, newest: nat, i: nat, j: nat) {
    && AllSendable(log) && |rx.delivered| <= |log| && WithinReach(log, rx, newest)
    && i < |log| && j < |log[i].pieces| && Number(log, i, j) <= newest
    && Used(log, |rx.delivered|) / WINDOW_SIZE <= Number(log, i, 0) / WINDOW_SIZE + 9
  }

  /** Too far ahead: nothing changes and nothing is acknowledged. */
  predicate Silent(log: seq<Message>, rx: Receiver, rx': Receiver, i: nat, j: nat)
    requires i < |log|
  {
    rx' == rx && !Accepts(Wire(Number(log, i, 0)), rx.position) && !Acknowledges(Wire(Number(log, i, j)), rx.position)
  }

  /** A packet already delivered is never taken for a new one. */
  lemma LateIsRefused(log: seq<Message>, rx: Receiver, newest: nat, i: nat, j: nat)
    requires Arrival(log, rx, newest, i, j) && i < |rx.delivered|
    requires rx.position == Wire(Used(log, |rx.delivered|))
    ensures var q := Wire(Number(log, i, 0));
            !Accepts(q, rx.position) || (q == rx.position && |log[i].pieces| == 1)
  {
    var first, r := Number(log, i, 0), Used(log, |rx.delivered|);
    UsedGrows(log, i, |rx.delivered|);
    if first < r {
      BehindIsComplement(first, r);
    }
  }

  /** A packet ahead of the position is judged by its true distance. */
  lemma AheadIsJudged(log: seq<Message>, rx: Receiver, newest: nat, i: nat, j: nat)
    requires Arrival(log, rx, newest, i, j) && |rx.delivered| <= i
    requires rx.position == Wire(Used(log, |rx.delivered|))
    ensures Wire(Number(log, i, 0)) != rx.position
    ensures !Accepts(Wire(Number(log, i, 0)), rx.position) ==> !Acknowledges(Wire(Number(log, i, j)), rx.position)
  {
    var first, n, r := Number(log, i, 0), Number(log, i, j), Used(log, |rx.delivered|);
    UsedGrows(log, |rx.delivered|, i);
    AheadIsDistance(first, r);
    AheadIsDistance(n, r);
  }

  /** A whole packet not seen before goes to its place, and whatever is ready goes out. */
  lemma NewPacketArrives(log: seq<Message>, rx: Receiver, ids: seq<nat>, newest: nat, i: nat, p: nat)
      returns (ids': seq<nat>)
    requires Arrival(log, rx, newest, i, 0) && Placed(log, rx, ids, newest) && Settled(rx)
    requires |log[i].pieces| == 1 && |rx.delivered| <= i
    requires Scan(rx.waiting, rx.position, Wire(Number(log, i, 0))) == Slot(p)
    ensures var x := InCommand(Wire(Number(log, i, 0)), 0, 0, [], log[i].pieces[0]);
            var rx' := Dispatch(rx.(waiting := Inserted(rx.waiting, p, x)));
            Absorbed(log, rx, ids, rx', ids', newest, i, 0) && Got(rx', ids', i, 0)
  {
    var x := InCommand(Wire(Number(log, i, 0)), 0, 0, [], log[i].pieces[0]);
    ScanFindsMessage(log, rx, ids, newest, i);
    SinglePiece(log[i].pieces);
    InsertKeeps(log, rx, ids, newest, p, i, x);
    ids' := DispatchKeeps(log, rx.(waiting := Inserted(rx.waiting, p, x)), Inserted(ids, p, i), newest);
  }

  lemma PacketArrives(log: seq<Message>, rx: Receiver, ids: seq<nat>, newest: nat, i: nat, maximum: nat, full: bool)
      returns (ids': seq<nat>)
    requires Arrival(log, rx, newest, i, 0) && Placed(log, rx, ids, newest) && Settled(rx)
    requires |log[i].pieces| == 1
    ensures var outcome := ReceivePacket(rx, Wire(Number(log, i, 0)), log[i].pieces[0], maximum, full);
            outcome.Taken? ==>
              && Absorbed(log, rx, ids, outcome.rx, ids', newest, i, 0)
              && (Got(outcome.rx, ids', i, 0) || Silent(log, rx, outcome.rx, i, 0))
    ensures !full && |log[i].pieces[0]| <= maximum ==>
              ReceivePacket(rx, Wire(Number(log, i, 0)), log[i].pieces[0], maximum, full).Taken?
  {
    var q, data := Wire(Number(log, i, 0)), log[i].pieces[0];
    ids' := ids;
    hide Joined, Used, Contains, Dispatch, WithinReach, AllSendable;
    if i < |rx.delivered| {
      LateIsRefused(log, rx, newest, i, 0);
    } else {
      AheadIsJudged(log, rx, newest, i, 0);
      var place := Scan(rx.waiting, rx.position, q);
      if place.Slot? {
        var ids2 := NewPacketArrives(log, rx, ids, newest, i, place.index);
        if |data| <= maximum && Accepts(q, rx.position) && !full { ids' := ids2; }
      } else {
        ScanFindsMessage(log, rx, ids, newest, i);
        assert Waits(log, rx.waiting[place.index], ids[place.index], |rx.delivered|, newest);
        assert HasPiece(rx.waiting[place.index], 0);
        assert Got(rx, ids, i, 0);
      }
    }
  }

  lemma SinglePiece(pieces: seq<seq<Byte>>)
    requires |pieces| == 1
    ensures Joined(pieces) == pieces[0]
  {
    assert Joined(pieces[..0]) == [];
  }

  /** Filling fragment `j` of waiting message `ids[p]`, with the dispatch that may follow. */
  lemma FillArrives(log: seq<Message>, rx: Receiver, ids: seq<nat>, newest: nat, p: nat, j: nat, maximum: nat)
      returns (ids': seq<nat>)
    requires AllSendable(log) && Placed(log, rx, ids, newest) && WithinReach(log, rx, newest) && Settled(rx)
    requires p < |ids| && |log[ids[p]].pieces| > 1 && j < |log[ids[p]].pieces|
    requires FragmentOf(log, ids[p], j).Sound(maximum) && BelongsTo(FragmentOf(log, ids[p], j), rx.waiting[p])
    ensures var rx' := FillAt(rx, p, FragmentOf(log, ids[p], j), maximum);
            Absorbed(log, rx, ids, rx', ids', newest, ids[p], j) && Got(rx', ids', ids[p], j)
  {
    var x, f := rx.waiting[p], FragmentOf(log, ids[p], j);
    var i := ids[p];
    assert Waits(log, x, i, |rx.delivered|, newest);
    ids' := ids;
    if x.marks[j] {
      assert HasPiece(x, j);
    } else {
      FillKeeps(x, log[i].pieces, f, maximum);
      var y := Filled(x, f, maximum);
      ReplaceKeeps(log, rx, ids, newest, p, y, j);
      var filled := rx.(waiting := rx.waiting[p := y]);
      if x.remaining == 1 {
        ids' := DispatchKeeps(log, filled, ids, newest);
        assert Got(filled, ids, i, j);
      } else {
        assert Settled(filled);
      }
    }
  }

  /** A fragment of a message not seen before makes room for the message, then fills itself in. */
  lemma FirstFragmentArrives(log: seq<Message>, rx: Receiver, ids: seq<nat>, newest: nat, i: nat, j: nat,
                             p: nat, maximum: nat)
      returns (ids': seq<nat>)
    requires Arrival(log, rx, newest, i, j) && Placed(log, rx, ids, newest) && Settled(rx)
    requires |log[i].pieces| > 1 && |rx.delivered| <= i && FragmentOf(log, i, j).Sound(maximum)
    requires Scan(rx.waiting, rx.position, FragmentOf(log, i, j).start) == Slot(p)
    ensures var rx' := OpenAndFill(rx, p, FragmentOf(log, i, j), maximum);
            Absorbed(log, rx, ids, rx', ids', newest, i, j) && Got(rx', ids', i, j)
  {
    var f := FragmentOf(log, i, j);
    var longer := Opened(rx, p, f);
    OpenKeeps(log, rx, ids, newest, i, j, p);
    hide Placed;
    ids' := FillArrives(log, longer, Inserted(ids, p, i), newest, p, j, maximum);
  }

  /** Making room for a message changes nothing that is held. */
  lemma OpenKeeps(log: seq<Message>, rx: Receiver, ids: seq<nat>, newest: nat, i: nat, j: nat, p: nat)
    requires Arrival(log, rx, newest, i, j) && Placed(log, rx, ids, newest) && Settled(rx)
    requires |log[i].pieces| > 1 && |rx.delivered| <= i
    requires Scan(rx.waiting, rx.position, FragmentOf(log, i, j).start) == Slot(p)
    ensures var longer, ids' := Opened(rx, p, FragmentOf(log, i, j)), Inserted(ids, p, i);
            && Placed(log, longer, ids', newest) && Settled(longer) && Dispatch(longer) == longer
            && SameGot(log, rx, ids, longer, ids')
  {
    var f := FragmentOf(log, i, j);
    var x := InCommand(f.start, f.count, f.count, Unmarked(f.count), Blank(f.total));
    ScanFindsMessage(log, rx, ids, newest, i);
    MissingAll(f.count);
    InsertKeeps(log, rx, ids, newest, p, i, x);
  }

  /** The fields a fragment is sent with pass the receiver's checks. */
  lemma FragmentIsSound(log: seq<Message>, i: nat, j: nat, maximum: nat)
    requires AllSendable(log) && i < |log| && j < |log[i].pieces| && |log[i].pieces| > 1
    requires |Joined(log[i].pieces)| <= maximum
    ensures FragmentOf(log, i, j).Sound(maximum) && 0 < |log[i].pieces[j]| <= maximum
  {
    PieceFits(log[i].pieces, j);
    JoinedIsLong(log[i].pieces);
  }

  lemma FragmentArrives(log: seq<Message>, rx: Receiver, ids: seq<nat>, newest: nat, i: nat, j: nat,
                        maximum: nat, full: bool)
      returns (ids': seq<nat>)
    requires Arrival(log, rx, newest, i, j) && Placed(log, rx, ids, newest) && Settled(rx)
    requires |log[i].pieces| > 1
    ensures var outcome := ReceiveFragment(rx, FragmentOf(log, i, j), maximum, full);
            outcome.Taken? ==>
              && Absorbed(log, rx, ids, outcome.rx, ids', newest, i, j)
              && (Got(outcome.rx, ids', i, j) || Silent(log, rx, outcome.rx, i, j))
    ensures !full && |Joined(log[i].pieces)| <= maximum ==>
              ReceiveFragment(rx, FragmentOf(log, i, j), maximum, full).Taken?
  {
    var f := FragmentOf(log, i, j);
    ids' := ids;
    if |Joined(log[i].pieces)| <= maximum { FragmentIsSound(log, i, j, maximum); }
    if i < |rx.delivered| {
      LateIsRefused(log, rx, newest, i, j);
    } else {
      AheadIsJudged(log, rx, newest, i, j);
      ScanFindsMessage(log, rx, ids, newest, i);
      var place := Scan(rx.waiting, rx.position, f.start);
      if f.Sound(maximum) && Accepts(f.start, rx.position) && 0 < |f.data| <= maximum {
        if place.Slot? {
          var ids2 := FirstFragmentArrives(log, rx, ids, newest, i, j, place.index, maximum);
          if !full { ids' := ids2; }
        } else {
          assert Waits(log, rx.waiting[place.index], i, |rx.delivered|, newest);
          assert BelongsTo(f, rx.waiting[place.index]);
          ids' := FillArrives(log, rx, ids, newest, place.index, j, maximum);
        }
      }
    }
  }
}
