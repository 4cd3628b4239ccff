/** Sequenced unreliable packets are handed over at most once, in sending order, and only under
    the reliable position they were sent under, over every run in which no arrival is put in a
    wrong place. */
module UnreliableOrder {
  import opened Lists
  import opened Windows
  import opened UnreliableQueue
  import opened UnreliableChannel

  // ---------------------------------------------------------------- what the window arithmetic tells

  lemma OvertakenIsRefused(number: nat, position: nat)
    requires number < position <= number + 36864
    ensures !Accepts(Wire(number), Wire(position)) && Wire(number) != Wire(position)
  {
    BehindIsComplement(number, position);
    assert position / WINDOW_SIZE - number / WINDOW_SIZE <= 9;
    if Wire(number) == Wire(position) {
      NoAlias(number, position);
    }
  }

  lemma AwaitedIsAccepted(number: nat, position: nat)
    requires position <= number && number / WINDOW_SIZE <= position / WINDOW_SIZE + 6
    ensures Accepts(Wire(number), Wire(position)) && number < position + MODULUS
    ensures Wire(number) == Wire(position) <==> number == position
  {
    assert number < position + 7 * WINDOW_SIZE;
    AheadIsDistance(number, position);
    if Wire(number) == Wire(position) {
      NoAlias(number, position);
    }
  }

  /** How the pass sees a waiting command: overtaken, current, or to come. */
  lemma Kind(s: System, x: Arrival)
    requires Tracked(s, x)
    ensures var at, r := Wire(s.position), Origin(s, x).reliable;
            && (x.Stops(at) <==> r > s.position)
            && (x.Current(at) <==> r == s.position)
  {
    var r := Origin(s, x).reliable;
    if r < s.position {
      OvertakenIsRefused(r, s.position);
    } else {
      AwaitedIsAccepted(r, s.position);
    }
  }

  /** Packets are sent in the order of their numbers. */
  lemma SentOrder(s: System, k: nat, l: nat)
    requires SenderOk(s) && k < |s.sent| && l < |s.sent|
    ensures k < l <==> SentBefore(s.sent[k], s.sent[l])
  {
  }

  // ---------------------------------------------------------------- the pass

  /** The list as a pass may find it. */
  ghost predicate Ready(s: System) {
    && SenderOk(s) && DeliveredOk(s) && Ascending(s)
    && forall i :: 0 <= i < |s.q| ==> Bare(s.q[i]) || Tracked(s, s.q[i])
  }

  predicate Complete(x: Arrival, at: Word16) { x.Current(at) && x.remaining == 0 }

  /** The command just queued was not overtaken; if it is an incomplete current one, nothing
      that waits is complete. */
  ghost predicate MaySpare(s: System, queued: int) {
    forall x :: x in s.q && !x.unsequenced && x.id == queued ==>
      && Known(s, x) && Origin(s, x).reliable >= s.position
      && (Origin(s, x).reliable == s.position && x.remaining > 0 ==>
            forall j :: 0 <= j < |s.q| ==> !Complete(s.q[j], Wire(s.position)))
  }

  ghost predicate CompleteAscend(t: seq<Arrival>, at: Word16, number: Word16) {
    && (forall i :: 0 <= i < |t| && Complete(t[i], at) ==> number < t[i].unreliable)
    && forall i, j :: 0 <= i < j < |t| && Complete(t[i], at) && Complete(t[j], at) ==> t[i].unreliable < t[j].unreliable
  }

  /** The number the pass reaches is the last complete command's, the greatest of them. */
  lemma {:induction false} LatestIsGreatest(t: seq<Arrival>, at: Word16, number: Word16) returns (m: int)
    requires CompleteAscend(t, at, number)
    ensures number <= Latest(t, at, number)
    ensures forall i :: 0 <= i < |t| && Complete(t[i], at) ==> t[i].unreliable <= Latest(t, at, number)
    ensures m == -1 ==> Latest(t, at, number) == number
    ensures m != -1 ==> 0 <= m < |t| && Complete(t[m], at) && Latest(t, at, number) == t[m].unreliable
  {
    if t == [] {
      m := -1;
    } else if Complete(t[|t| - 1], at) {
      m := |t| - 1;
    } else {
      m := LatestIsGreatest(t[..|t| - 1], at, number);
    }
  }

  lemma ReadyCompleteAscend(s: System, k: nat)
    requires Ready(s) && k <= |s.q|
    ensures CompleteAscend(s.q[..k], Wire(s.position), s.number)
  {
    var at := Wire(s.position);
    forall i | 0 <= i < k && Complete(s.q[i], at)
      ensures Origin(s, s.q[i]).reliable == s.position
    {
      Kind(s, s.q[i]);
    }
  }

  /** What keeps waiting from the cut on is not overtaken, and what of it is current is
      incomplete and beyond the number reached. */
  lemma TailFresh(s: System, queued: int, i: nat)
    requires Ready(s) && Cut(s.q, Wire(s.position)) <= i < |s.q| && !s.q[i].unsequenced
    ensures Fresh(Passed(s, queued), s.q[i])
  {
    hide Dispatch, StopIndex, Trailing, Cut, Latest;
    var at := Wire(s.position);
    var k, c, x := StopIndex(s.q, at), Cut(s.q, at), s.q[i];
    var t := s.q[..k];
    CutIsIncomplete(s.q, at);
    LatestReached(s.q, at, s.number, queued);
    if i < k {
      Kind(s, x);
      ReadyCompleteAscend(s, k);
      var m := LatestIsGreatest(t, at, s.number);
      if m != -1 {
        Kind(s, s.q[m]);
        assert m < i;
        assert SentBefore(Origin(s, s.q[m]), Origin(s, x));
      }
    } else {
      Kind(s, s.q[k]);
      if k < i {
        assert SentBefore(Origin(s, s.q[k]), Origin(s, x));
      }
    }
  }

  lemma CutIsIncomplete(q: seq<Arrival>, at: Word16)
    ensures forall j :: Cut(q, at) <= j < StopIndex(q, at) ==> q[j].Incomplete(at)
  {
    hide Staying, Going;
    var k, c := StopIndex(q, at), Cut(q, at);
    TrailingIsSuffix(q[..k], at, k - c);
    assert forall j :: c <= j < k ==> q[j] == q[..k][j];
  }

  /** The command just queued, if it was spared. */
  lemma SparedFresh(s: System, queued: int, i: nat)
    requires Ready(s) && MaySpare(s, queued)
    requires i < Cut(s.q, Wire(s.position)) && !s.q[i].Goes(Wire(s.position)) && s.q[i].id == queued
    ensures Fresh(Passed(s, queued), s.q[i])
  {
    hide Dispatch, Trailing, Cut, Latest;
    var at := Wire(s.position);
    var k, x := StopIndex(s.q, at), s.q[i];
    LatestReached(s.q, at, s.number, queued);
    Kind(s, x);
    ReadyCompleteAscend(s, k);
    var m := LatestIsGreatest(s.q[..k], at, s.number);
  }

  lemma PassFresh(s: System, queued: int)
    requires Ready(s) && MaySpare(s, queued)
    ensures var s' := Passed(s, queued);
            forall i :: 0 <= i < |s'.q| ==> Bare(s'.q[i]) || Fresh(s', s'.q[i])
  {
    hide Dispatch, StopIndex, Trailing, Cut, Spared, Staying, Going, Freed;
    var at := Wire(s.position);
    var s', c := Passed(s, queued), Cut(s.q, at);
    DispatchCuts(s.q, at, s.number, queued);
    GoingMembers(s.q[..c], at);
    FreedMembers(Staying(s.q[..c], at), queued);
    forall i | 0 <= i < |s'.q|
      ensures Bare(s'.q[i]) || Fresh(s', s'.q[i])
    {
      var x := s'.q[i];
      if x in Spared(Staying(s.q[..c], at), queued) {
        var j :| 0 <= j < c && s.q[j] == x;
        SparedFresh(s, queued, j);
      } else {
        var j :| c <= j < |s.q| && s.q[j] == x;
        if !x.unsequenced { TailFresh(s, queued, j); }
      }
    }
  }

  lemma PassAscends(s: System, queued: int)
    requires Ready(s) && MaySpare(s, queued)
    ensures Ascending(Passed(s, queued))
  {
    hide Dispatch, Within;
    var s' := Passed(s, queued);
    DispatchKeepsOrder(s.q, Wire(s.position), s.number, queued);
    forall i, j | 0 <= i < j < |s'.q| && Tracked(s', s'.q[i]) && Tracked(s', s'.q[j])
      ensures s.truth[s'.q[i].id] < s.truth[s'.q[j].id]
    {
      var i', j' := WithinOrder(s'.q, s.q, i, j);
    }
  }

  // ---------------------------------------------------------------- what is handed over

  /** The commands handed over, in order, as deliveries. */
  lemma {:induction false} HandedAre(items: seq<Arrival>, truth: seq<nat>, position: nat, a: nat)
    requires a < |Handed(items, truth, position)|
    ensures var d := Handed(items, truth, position)[a];
            && d.position == position
            && exists i ::
            0 <= i < |items| && !items[i].unsequenced && items[i].id < |truth| && d.index == truth[items[i].id]
  {
    var front, x := items[..|items| - 1], items[|items| - 1];
    if a < |Handed(front, truth, position)| {
      HandedAre(front, truth, position, a);
      var i :| 0 <= i < |front| && !front[i].unsequenced && front[i].id < |truth|
               && Handed(front, truth, position)[a].index == truth[front[i].id];
      assert items[i] == front[i];
    } else {
      assert items[|items| - 1] == x;
    }
  }

  lemma {:induction false} HandedOrder(items: seq<Arrival>, truth: seq<nat>, position: nat, a: nat, b: nat)
    returns (i: nat, j: nat)
    requires a < b < |Handed(items, truth, position)|
    ensures i < j < |items| && !items[i].unsequenced && !items[j].unsequenced && items[i].id < |truth|
            && items[j].id < |truth|
    ensures Handed(items, truth, position)[a].index == truth[items[i].id]
    ensures Handed(items, truth, position)[b].index == truth[items[j].id]
  {
    var front := items[..|items| - 1];
    if b < |Handed(front, truth, position)| {
      i, j := HandedOrder(front, truth, position, a, b);
    } else {
      HandedAre(front, truth, position, a);
      i :| 0 <= i < |front| && !front[i].unsequenced && front[i].id < |truth|
           && Handed(front, truth, position)[a].index == truth[front[i].id];
      assert items[i] == front[i];
      j := |items| - 1;
    }
  }

  /** A command handed over is a complete current one of the list, before the pass's end. */
  lemma GoneIsComplete(s: System, queued: int, i: nat) returns (m: nat)
    requires Ready(s)
    requires var r := Dispatch(s.q, Wire(s.position), s.number, queued).delivered; i < |r| && !r[i].unsequenced
    ensures m < StopIndex(s.q, Wire(s.position)) <= |s.q|
    ensures s.q[m] == Dispatch(s.q, Wire(s.position), s.number, queued).delivered[i]
    ensures Complete(s.q[m], Wire(s.position)) && Tracked(s, s.q[m]) && Origin(s, s.q[m]).reliable == s.position
  {
    hide Dispatch, StopIndex, Trailing, Spared, Staying, Going, Freed;
    var at := Wire(s.position);
    var c := Cut(s.q, at);
    DispatchCuts(s.q, at, s.number, queued);
    GoingMembers(s.q[..c], at);
    var x := Dispatch(s.q, at, s.number, queued).delivered[i];
    assert x in Going(s.q[..c], at);
    m :| 0 <= m < c && s.q[m] == x;
    Kind(s, x);
  }

  lemma DeliveryIsCurrent(s: System, queued: int, a: nat)
    requires Ready(s)
    requires var r := Dispatch(s.q, Wire(s.position), s.number, queued); a < |Handed(r.delivered, s.truth, s.position)|
    ensures var r := Dispatch(s.q, Wire(s.position), s.number, queued);
            var d := Handed(r.delivered, s.truth, s.position)[a];
            && d.position == s.position && d.index < |s.sent| && s.sent[d.index].reliable == s.position
            && s.number < s.sent[d.index].unreliable <= r.unreliable
  {
    hide Dispatch, StopIndex, Latest, Handed;
    var at := Wire(s.position);
    var r, k := Dispatch(s.q, at, s.number, queued), StopIndex(s.q, at);
    HandedAre(r.delivered, s.truth, s.position, a);
    var i :| 0 <= i < |r.delivered| && !r.delivered[i].unsequenced && r.delivered[i].id < |s.truth|
             && Handed(r.delivered, s.truth, s.position)[a].index == s.truth[r.delivered[i].id];
    var m := GoneIsComplete(s, queued, i);
    ReadyCompleteAscend(s, k);
    var top := LatestIsGreatest(s.q[..k], at, s.number);
    LatestReached(s.q, at, s.number, queued);
    assert s.q[..k][m] == s.q[m];
  }

  lemma DeliveriesAscend(s: System, queued: int, a: nat, b: nat)
    requires Ready(s)
    requires var r := Dispatch(s.q, Wire(s.position), s.number, queued);
             a < b < |Handed(r.delivered, s.truth, s.position)|
    ensures var r := Dispatch(s.q, Wire(s.position), s.number, queued);
            Handed(r.delivered, s.truth, s.position)[a].index < Handed(r.delivered, s.truth, s.position)[b].index
  {
    hide Dispatch, StopIndex, Handed, Within;
    var r := Dispatch(s.q, Wire(s.position), s.number, queued);
    var i, j := HandedOrder(r.delivered, s.truth, s.position, a, b);
    var m := GoneIsComplete(s, queued, i);
    var n := GoneIsComplete(s, queued, j);
    DispatchKeepsOrder(s.q, Wire(s.position), s.number, queued);
    var i', j' := WithinOrder(r.delivered, s.q, i, j);
  }

  /** What was handed over before the pass was sent before what it hands over. */
  lemma DeliveriesFollow(s: System, d: Delivery, e: Delivery)
    requires Ready(s) && d in s.delivered
    requires e.index < |s.sent| && s.sent[e.index].reliable == s.position && s.number < s.sent[e.index].unreliable
    ensures d.index < e.index
  {
    var a :| 0 <= a < |s.delivered| && s.delivered[a] == d;
    SentOrder(s, d.index, e.index);
  }

  lemma PassDelivers(s: System, queued: int)
    requires Ready(s) && MaySpare(s, queued)
    ensures DeliveredOk(Passed(s, queued))
  {
    hide Dispatch, Handed, Latest, StopIndex;
    var at := Wire(s.position);
    var r, s', k := Dispatch(s.q, at, s.number, queued), Passed(s, queued), StopIndex(s.q, at);
    var more, n := Handed(r.delivered, s.truth, s.position), |s.delivered|;
    ReadyCompleteAscend(s, k);
    var top := LatestIsGreatest(s.q[..k], at, s.number);
    LatestReached(s.q, at, s.number, queued);
    forall a | 0 <= a < |more|
      ensures more[a].position == s.position && more[a].index < |s.sent| && s.sent[more[a].index].reliable == s.position
      ensures s.number < s.sent[more[a].index].unreliable <= r.unreliable
    {
      DeliveryIsCurrent(s, queued, a);
    }
    forall a, b | 0 <= a < b < |s'.delivered|
      ensures s'.delivered[a].index < s'.delivered[b].index
    {
      if b >= n {
        if a >= n {
          DeliveriesAscend(s, queued, a - n, b - n);
        } else {
          DeliveriesFollow(s, s.delivered[a], more[b - n]);
        }
      }
    }
  }

  lemma PassKeeps(s: System, queued: int)
    requires Ready(s) && MaySpare(s, queued)
    ensures Inv(Passed(s, queued))
  {
    hide Dispatch, Handed;
    PassFresh(s, queued);
    PassAscends(s, queued);
    PassDelivers(s, queued);
  }

  // ---------------------------------------------------------------- an arrival finds its place

  /** An arrival the receiver takes is not overtaken; and if it was sent in turn, it is within the
      seven windows. */
  lemma TakenIsAwaited(s: System, k: nat)
    requires k < |s.sent| && Timely(s, k) && Accepts(Wire(s.sent[k].reliable), Wire(s.position))
    ensures s.position <= s.sent[k].reliable
    ensures s.sent[k].reliable < s.position + MODULUS
            ==> s.sent[k].reliable / WINDOW_SIZE <= s.position / WINDOW_SIZE + 6
  {
    var r := s.sent[k].reliable;
    if r < s.position {
      OvertakenIsRefused(r, s.position);
    } else if r < s.position + MODULUS {
      AheadIsDistance(r, s.position);
    }
  }

  /** The comparison the scan makes tells which packet was sent first. */
  lemma ScanCompares(s: System, k: nat, x: Arrival)
    requires SenderOk(s) && Fresh(s, x) && k < |s.sent|
    requires s.position <= s.sent[k].reliable < s.position + MODULUS
    ensures var at, r, u, l := Wire(s.position), Wire(s.sent[k].reliable), s.sent[k].unreliable, s.truth[x.id];
            && (r >= at && x.reliable < at ==> k < l)
            && (r < at && x.reliable >= at ==> l < k)
            && ((r >= at) == (x.reliable >= at) ==>
                  && (x.reliable < r ==> l < k) && (x.reliable > r ==> k < l)
                  && (x.reliable == r ==> (x.unreliable < u <==> l < k) && (x.unreliable == u <==> l == k)))
  {
    AwaitedIsAccepted(Origin(s, x).reliable, s.position);
    CompareAround(s.sent[k].reliable, Origin(s, x).reliable, s.position);
    SentOrder(s, k, s.truth[x.id]);
    SentOrder(s, s.truth[x.id], k);
  }

  /** In true numbers: what precedes a packet was sent before it. */
  lemma PrecedesMeansBefore(s: System, k: nat, x: Arrival)
    requires SenderOk(s) && Fresh(s, x) && k < |s.sent|
    requires s.position <= s.sent[k].reliable < s.position + MODULUS
    requires Precedes(x, Wire(s.sent[k].reliable), s.sent[k].unreliable, Wire(s.position))
    ensures s.truth[x.id] < k
  {
    AwaitedIsAccepted(Origin(s, x).reliable, s.position);
    AheadIsDistance(Origin(s, x).reliable, s.position);
    AheadIsDistance(s.sent[k].reliable, s.position);
    SentOrder(s, s.truth[x.id], k);
  }

  /** The scan stops at a waiting unsequenced command unless it passes all of them. */
  lemma BareStops(q: seq<Arrival>, at: Word16, r: Word16, u: Word16)
    requires q != [] && Bare(q[|q| - 1]) && u > 0
    ensures Scan(q, at, r, u) == if PassesUnsequenced(r, at) then Scan(q[..|q| - 1], at, r, u) else Slot(|q|)
  {
  }

  /** The scan puts packet `k` where it belongs in sending order. */
  lemma {:induction false} ScanFindsPlace(s: System, k: nat, n: nat)
    requires Inv(s) && k < |s.sent| && n <= |s.q| && PacketWellPlaced(s, k)
    requires s.position <= s.sent[k].reliable < s.position + MODULUS
    ensures match Scan(s.q[..n], Wire(s.position), Wire(s.sent[k].reliable), s.sent[k].unreliable)
            case Duplicate(i) => i < n && !s.q[i].unsequenced && s.truth[s.q[i].id] == k
            case Slot(p) =>
              && p <= n
              && (forall i :: 0 <= i < p && !s.q[i].unsequenced ==> s.truth[s.q[i].id] < k)
              && forall i :: p <= i < n && !s.q[i].unsequenced ==> s.truth[s.q[i].id] > k
  {
    hide SenderOk, DeliveredOk, Scan, PacketWellPlaced, PassesUnsequenced;
    if n == 0 {
      assert Scan([], Wire(s.position), Wire(s.sent[k].reliable), s.sent[k].unreliable)
             == Slot(0) by { ScanOfNone(s, k); }
    } else {
      var x := s.q[n - 1];
      if x.unsequenced {
        UnsequencedScan(s, k, n);
        if PassesUnsequenced(Wire(s.sent[k].reliable), Wire(s.position)) {
          ScanFindsPlace(s, k, n - 1);
        }
      } else {
        ScanStep(s, k, n);
        assert Fresh(s, x);
        if k < s.truth[x.id] {
          ScanFindsPlace(s, k, n - 1);
        }
      }
    }
  }

  lemma ScanOfNone(s: System, k: nat)
    requires k < |s.sent|
    ensures Scan([], Wire(s.position), Wire(s.sent[k].reliable), s.sent[k].unreliable) == Slot(0)
  {
  }

  /** One step of the scan, in terms of which packet was sent first. */
  lemma ScanStep(s: System, k: nat, n: nat)
    requires Inv(s) && k < |s.sent| && 0 < n <= |s.q| && s.position <= s.sent[k].reliable < s.position + MODULUS
    ensures var at, r, u, x := Wire(s.position), Wire(s.sent[k].reliable), s.sent[k].unreliable, s.q[n - 1];
            var place := Scan(s.q[..n], at, r, u);
            if x.unsequenced then place == if PassesUnsequenced(r, at) then Scan(s.q[..n - 1], at, r, u) else Slot(n)
            else && x.id < |s.truth|
                 && place == if k < s.truth[x.id] then Scan(s.q[..n - 1], at, r, u)
                             else if k == s.truth[x.id] then Duplicate(n - 1) else Slot(n)
  {
    hide DeliveredOk;
    var x := s.q[n - 1];
    assert s.q[..n][..n - 1] == s.q[..n - 1];
    if x.unsequenced {
      BareStops(s.q[..n], Wire(s.position), Wire(s.sent[k].reliable), s.sent[k].unreliable);
    } else {
      assert Fresh(s, x);
      ScanCompares(s, k, x);
    }
  }

  lemma UnsequencedScan(s: System, k: nat, n: nat)
    requires Inv(s) && k < |s.sent| && 0 < n <= |s.q| && PacketWellPlaced(s, k) && s.q[n - 1].unsequenced
    requires s.position <= s.sent[k].reliable < s.position + MODULUS
    ensures var at, r, u := Wire(s.position), Wire(s.sent[k].reliable), s.sent[k].unreliable;
            if PassesUnsequenced(r, at) then Scan(s.q[..n], at, r, u) == Scan(s.q[..n - 1], at, r, u)
            else && Scan(s.q[..n], at, r, u) == Slot(n)
                 && forall i :: 0 <= i < n && !s.q[i].unsequenced ==> s.truth[s.q[i].id] < k
  {
    var at, r, u := Wire(s.position), Wire(s.sent[k].reliable), s.sent[k].unreliable;
    ScanStep(s, k, n);
    if !PassesUnsequenced(r, at) {
      forall i | 0 <= i < n && !s.q[i].unsequenced
        ensures s.truth[s.q[i].id] < k
      {
        assert Fresh(s, s.q[i]) && i < n - 1;
        PrecedesMeansBefore(s, k, s.q[i]);
      }
    }
  }

  /** A packet that may be queued at `index`: awaited, not known to be handed over, in order. */
  ghost predicate Fits(s: System, k: nat, index: nat) {
    && k < |s.sent| && index <= |s.q|
    && s.position <= s.sent[k].reliable && s.sent[k].reliable / WINDOW_SIZE <= s.position / WINDOW_SIZE + 6
    && (s.sent[k].reliable == s.position ==> s.sent[k].unreliable > s.number)
    && (forall i :: 0 <= i < index && Known(s, s.q[i]) && !s.q[i].unsequenced ==> s.truth[s.q[i].id] < k)
    && forall i :: index <= i < |s.q| && Known(s, s.q[i]) && !s.q[i].unsequenced ==> s.truth[s.q[i].id] > k
  }

  function Longer(s: System, k: nat, index: nat): System
    requires k < |s.sent| && index <= |s.q|
  {
    var x := Arrival(|s.truth|, false, Wire(s.sent[k].reliable), s.sent[k].unreliable, s.sent[k].fragments);
    s.(q := Inserted(s.q, index, x), truth := s.truth + [k])
  }

  /** Element `i` of the longer list, by where it was: the new command, or an old one. */
  lemma LongerElement(s: System, k: nat, index: nat, i: nat)
    requires Inv(s) && Fits(s, k, index) && i <= |s.q|
    ensures var s1 := Longer(s, k, index);
            Bare(s1.q[i]) || (&& Tracked(s1, s1.q[i]) && Origin(s1, s1.q[i]).reliable >= s.position)
    ensures var x := Longer(s, k, index).q[i];
            && (i != index ==> !Complete(x, Wire(s.position)))
            && (i != index && !x.unsequenced ==> x.id < |s.truth|)
            && (i == index ==> !x.unsequenced && x.id == |s.truth|)
  {
    if i != index {
      var known := s.q[if i < index then i else i - 1];
      assert Longer(s, k, index).q[i] == known;
      if !known.unsequenced {
        assert Fresh(s, known);
        Kind(s, known);
      }
    }
  }

  lemma LongerAscends(s: System, k: nat, index: nat)
    requires Inv(s) && Fits(s, k, index)
    ensures Ascending(Longer(s, k, index))
  {
    var s1 := Longer(s, k, index);
    forall i, j | 0 <= i < j < |s1.q| && Tracked(s1, s1.q[i]) && Tracked(s1, s1.q[j])
      ensures s1.truth[s1.q[i].id] < s1.truth[s1.q[j].id]
    {
      LongerKey(s, k, index, i);
      LongerKey(s, k, index, j);
    }
  }

  lemma LongerKey(s: System, k: nat, index: nat, i: nat)
    requires Inv(s) && Fits(s, k, index) && i <= |s.q| && !Longer(s, k, index).q[i].unsequenced
    ensures var s1 := Longer(s, k, index);
            && s1.q[i].id < |s1.truth|
            && if i == index then s1.truth[s1.q[i].id] == k
               else var j := if i < index then i else i - 1;
                    Tracked(s, s.q[j]) && s1.q[i] == s.q[j] && s1.truth[s1.q[i].id] == s.truth[s.q[j].id]
  {
    if i != index {
      var known := s.q[if i < index then i else i - 1];
      assert Longer(s, k, index).q[i] == known && Fresh(s, known);
    }
  }

  lemma QueuedKeeps(s: System, k: nat, index: nat)
    requires Inv(s) && Fits(s, k, index)
    ensures Inv(Queued(s, index, k))
  {
    hide Dispatch, Handed, Tracked, Complete, Passed, Ascending;
    var s1 := Longer(s, k, index);
    LongerAscends(s, k, index);
    forall i | 0 <= i < |s1.q|
      ensures Bare(s1.q[i]) || (Tracked(s1, s1.q[i]) && Known(s1, s1.q[i])
              && Origin(s1, s1.q[i]).reliable >= s.position)
      ensures i != index ==> !Complete(s1.q[i], Wire(s.position))
      ensures i != index && !s1.q[i].unsequenced ==> s1.q[i].id < |s.truth|
      ensures i == index ==> !s1.q[i].unsequenced
    {
      LongerElement(s, k, index, i);
      if !Bare(s1.q[i]) { TrackedIsKnown(s1, s1.q[i]); }
    }
    assert s1.q[index].remaining > 0
           ==> !Complete(s1.q[index], Wire(s.position)) by { IncompleteIsNot(s1.q[index], Wire(s.position)); }
    PassKeeps(s1, |s.truth|);
  }

  lemma TrackedIsKnown(s: System, x: Arrival)
    requires Tracked(s, x)
    ensures Known(s, x) && !x.unsequenced
  {
  }

  lemma IncompleteIsNot(x: Arrival, at: Word16)
    ensures x.remaining > 0 ==> !Complete(x, at)
  {
  }

  lemma FilledKeeps(s: System, index: nat, seen: bool)
    requires Inv(s) && index < |s.q|
    ensures Inv(Filled(s, index, seen))
  {
    hide Dispatch, Handed;
    var x := s.q[index];
    if !seen && x.remaining > 0 {
      assert Fresh(s, x);
      var filled := s.(q := s.q[index := x.(remaining := x.remaining - 1)]);
      forall i | 0 <= i < |filled.q|
        ensures Bare(filled.q[i]) || (Tracked(filled, filled.q[i])
                && filled.truth[filled.q[i].id] == s.truth[s.q[i].id])
        ensures Bare(filled.q[i]) || (i != index || x.remaining > 1 ==> Fresh(filled, filled.q[i]))
      {
        assert Bare(s.q[i]) || Fresh(s, s.q[i]);
      }
      if x.remaining == 1 {
        PassKeeps(filled, -1);
      }
    }
  }

  lemma ArriveKeeps(s: System, k: nat, seen: bool)
    requires Inv(s) && k < |s.sent| && Timely(s, k) && PacketWellPlaced(s, k)
    requires s.sent[k].reliable < s.position + MODULUS
    ensures Inv(Arrive(s, k, seen))
  {
    hide Dispatch, Handed, Queued, Filled;
    var r, u, at := Wire(s.sent[k].reliable), s.sent[k].unreliable, Wire(s.position);
    if Accepts(r, at) && !(r == at && u <= s.number) {
      TakenIsAwaited(s, k);
      AwaitedIsAccepted(s.sent[k].reliable, s.position);
      assert s.q[..|s.q|] == s.q;
      ScanFindsPlace(s, k, |s.q|);
      var place := Scan(s.q, at, r, u);
      if place.Duplicate? {
        FilledKeeps(s, place.index, seen);
      } else {
        QueuedKeeps(s, k, place.index);
        var opened' := Queued(s, place.index, k);
        var i := Find(opened'.q, |s.truth|);
        if i < |opened'.q| {
          FilledKeeps(opened', i, false);
        }
      }
    }
  }

  lemma AdvanceKeeps(s: System, distance: nat)
    requires Inv(s) && Enabled(s, Advance(distance))
    ensures Inv(After(s, Advance(distance)))
  {
    hide Dispatch, Handed;
    var moved := s.(position := s.position + distance, number := 0);
    forall i | 0 <= i < |moved.q|
      ensures Bare(moved.q[i]) || Tracked(moved, moved.q[i])
    {
      assert Bare(s.q[i]) || Fresh(s, s.q[i]);
    }
    if s.q != [] {
      PassKeeps(moved, -1);
    }
  }

  lemma UnsequencedKeeps(s: System)
    requires Inv(s) && Enabled(s, ArriveUnsequenced)
    ensures Inv(After(s, ArriveUnsequenced))
  {
    hide Dispatch, Handed;
    var x := Arrival(|s.truth|, true, 0, 0, 0);
    var s1 := s.(q := s.q + [x], truth := s.truth + [0]);
    forall i | 0 <= i < |s.q|
      ensures Bare(s1.q[i]) || (Tracked(s1, s1.q[i]) && s1.truth[s1.q[i].id] == s.truth[s.q[i].id])
    {
      assert Bare(s.q[i]) || Fresh(s, s.q[i]);
    }
    PassKeeps(s1, |s.truth|);
  }

  lemma SubmitKeeps(s: System, step: Step)
    requires Inv(s) && Enabled(s, step) && (step.SubmitReliable? || step.SubmitUnreliable?)
    ensures Inv(After(s, step))
  {
    var s' := After(s, step);
    forall i | 0 <= i < |s.q|
      ensures Bare(s'.q[i]) || Fresh(s', s'.q[i])
    {
      assert Bare(s.q[i]) || Fresh(s, s.q[i]);
    }
  }

  lemma InTurnKeeps(s: System, step: Step)
    requires InTurn(s) && Enabled(s, step) && SentInTurn(s, step)
    ensures InTurn(After(s, step))
  {
    hide Dispatch, Handed, Arrive;
    match step
    case ArrivePacket(k) => ArriveLeavesSender(s, k, false);
    case ArriveFragment(k, seen) => ArriveLeavesSender(s, k, seen);
    case _ =>
  }

  lemma StepKeeps(s: System, step: Step)
    requires Inv(s) && InTurn(s) && Enabled(s, step) && WellPlaced(s, step) && SentInTurn(s, step)
    ensures Inv(After(s, step)) && InTurn(After(s, step))
  {
    InTurnKeeps(s, step);
    hide Inv, Arrive, Passed;
    match step
    case SubmitReliable(_) => SubmitKeeps(s, step);
    case SubmitUnreliable(_) => SubmitKeeps(s, step);
    case Advance(distance) => AdvanceKeeps(s, distance);
    case ArrivePacket(k) => ArriveKeeps(s, k, false);
    case ArriveFragment(k, seen) => ArriveKeeps(s, k, seen);
    case ArriveUnsequenced => UnsequencedKeeps(s);
  }

  /** Every arrival up to state `n` was well placed. */
  ghost predicate AllWellPlaced(states: seq<System>, steps: seq<Step>, n: nat)
    requires Run(states, steps)
  {
    forall i :: 0 <= i < n && i < |steps| ==> WellPlaced(states[i], steps[i])
  }

  /** Every packet submitted up to state `n` was sent in turn. */
  ghost predicate AllInTurn(states: seq<System>, steps: seq<Step>, n: nat)
    requires Run(states, steps)
  {
    forall i :: 0 <= i < n && i < |steps| ==> SentInTurn(states[i], steps[i])
  }

  lemma {:induction false} RunKeeps(states: seq<System>, steps: seq<Step>, n: nat)
    requires Run(states, steps) && n < |states|
    requires AllWellPlaced(states, steps, n) && AllInTurn(states, steps, n)
    ensures Inv(states[n]) && InTurn(states[n])
  {
    if n > 0 {
      RunKeeps(states, steps, n - 1);
      StepKeeps(states[n - 1], steps[n - 1]);
    }
  }

  // ---------------------------------------------------------------- the theorems

  /** In every state reached with packets sent in turn and well-placed arrivals, what has been
      handed over was handed over in sending order, each packet at most once, and under the
      reliable position it was sent under. */
  lemma DeliveredInSendingOrder(states: seq<System>, steps: seq<Step>, n: nat)
    requires Run(states, steps) && n < |states|
    requires AllWellPlaced(states, steps, n) && AllInTurn(states, steps, n)
    ensures var s := states[n];
            && (forall a, b :: 0 <= a < b < |s.delivered| ==> s.delivered[a].index < s.delivered[b].index)
            && forall a :: 0 <= a < |s.delivered| ==>
                 s.delivered[a].index < |s.sent| && s.sent[s.delivered[a].index].reliable == s.delivered[a].position
  {
    RunKeeps(states, steps, n);
  }

  lemma ArriveLeavesSender(s: System, k: nat, seen: bool)
    requires k < |s.sent|
    ensures var s' := Arrive(s, k, seen);
            s'.sent == s.sent && s'.reliable == s.reliable && s'.unreliable == s.unreliable && s'.position == s.position
  {
    hide Dispatch, Handed, Scan, Find;
  }

  lemma SenderKeeps(s: System, step: Step)
    requires SenderOk(s) && Enabled(s, step)
    ensures SenderOk(After(s, step))
  {
    hide Dispatch, Handed, Arrive;
    match step
    case ArrivePacket(k) => ArriveLeavesSender(s, k, false);
    case ArriveFragment(k, seen) => ArriveLeavesSender(s, k, seen);
    case _ =>
  }

  lemma {:induction false} RunKeepsSender(states: seq<System>, steps: seq<Step>, n: nat)
    requires Run(states, steps) && n < |states|
    ensures SenderOk(states[n])
  {
    hide SenderOk, After;
    if n > 0 {
      RunKeepsSender(states, steps, n - 1);
      SenderKeeps(states[n - 1], steps[n - 1]);
    } else {
      assert SenderOk(states[0]) by { NothingSent(states[0]); }
    }
  }

  lemma NothingSent(s: System)
    requires Initial(s)
    ensures SenderOk(s)
  {
  }

  /** The sender's pairs of numbers ascend, so that none is ever used twice: before the 16-bit
      unreliable number could wrap, a packet goes reliably. */
  lemma SentNumbersAscend(states: seq<System>, steps: seq<Step>, n: nat, k: nat, l: nat)
    requires Run(states, steps) && n < |states| && k < l < |states[n].sent|
    ensures SentBefore(states[n].sent[k], states[n].sent[l]) && states[n].sent[k] != states[n].sent[l]
  {
    RunKeepsSender(states, steps, n);
  }
}
