/** That unreliable packets do get through: just what an arrival, or the receiver's advance, hands over,
    in every state reached with packets sent in turn and well-placed arrivals. */
module UnreliableArrival {
  import opened Lists
  import opened Windows
  import opened UnreliableQueue
  import opened UnreliableChannel
  import opened UnreliableOrder
  import opened UnreliableMisled

  /** The command at `i` carries packet `k`. */
  predicate Waits(s: System, k: nat, i: nat) {
    i < |s.q| && !s.q[i].unsequenced && s.q[i].id < |s.truth| && s.truth[s.q[i].id] == k
  }

  /** It is all there, and was sent under the receiver's position. */
  predicate Whole(s: System, i: nat) { i < |s.q| && Complete(s.q[i], Wire(s.position)) }

  // ---------------------------------------------------------------- what a pass hands over

  /** Nothing before a current command stops the pass. */
  lemma NoneStopsBefore(s: System, i: nat)
    requires Ready(s) && Whole(s, i)
    ensures i < StopIndex(s.q, Wire(s.position)) <= |s.q|
  {
    hide StopIndex, Tracked, SenderOk, DeliveredOk;
    var at := Wire(s.position);
    var c := StopIndex(s.q, at);
    if c <= i {
      Kind(s, s.q[i]);
      assert c < i && Tracked(s, s.q[c]);
      Kind(s, s.q[c]);
      TrackedIsKnown(s, s.q[c]);
      TrackedIsKnown(s, s.q[i]);
      SentOrder(s, s.truth[s.q[c].id], s.truth[s.q[i].id]);
    }
  }

  /** A complete current command is handed over. */
  lemma WholeIsHanded(s: System, queued: int, i: nat) returns (a: nat)
    requires Ready(s) && Whole(s, i)
    ensures |s.delivered| <= a < |Passed(s, queued).delivered| && s.q[i].id < |s.truth|
    ensures Passed(s, queued).delivered[a].index == s.truth[s.q[i].id]
  {
    hide StopIndex, Tracked, Going, Handed, Ready;
    var at := Wire(s.position);
    NoneStopsBefore(s, i);
    WholeIsTracked(s, i);
    var c := StopIndex(s.q, at);
    assert s.q[..c][i] == s.q[i];
    var j := GoingPlace(s.q[..c], at, i);
    a := HandedPlace(Going(s.q[..c], at), s.truth, s.position, j);
    a := a + |s.delivered|;
  }

  lemma WholeIsTracked(s: System, i: nat)
    requires Ready(s) && Whole(s, i)
    ensures Tracked(s, s.q[i]) && !s.q[i].unsequenced && s.q[i].id < |s.truth|
            && Origin(s, s.q[i]).reliable == s.position
  {
    Kind(s, s.q[i]);
  }

  /** And nothing else is. */
  lemma HandedIsWhole(s: System, queued: int, a: nat) returns (i: nat)
    requires Ready(s) && |s.delivered| <= a < |Passed(s, queued).delivered|
    ensures Whole(s, i) && Waits(s, Passed(s, queued).delivered[a].index, i)
    ensures Passed(s, queued).delivered[a].position == s.position
  {
    hide Dispatch, Handed, Ready, Tracked;
    var r := Dispatch(s.q, Wire(s.position), s.number, queued).delivered;
    HandedAre(r, s.truth, s.position, a - |s.delivered|);
    DeliveryIsCurrent(s, queued, a - |s.delivered|);
    var j :| 0 <= j < |r| && !r[j].unsequenced && r[j].id < |s.truth|
             && Handed(r, s.truth, s.position)[a - |s.delivered|].index == s.truth[r[j].id];
    i := GoneIsComplete(s, queued, j);
  }

  /** A pass over a list with no complete current command but those of packet `k`. */
  lemma PassHandsJust(s: System, queued: int, k: nat)
    requires Ready(s) && MaySpare(s, queued)
    requires forall i :: 0 <= i < |s.q| && Whole(s, i) ==> Waits(s, k, i)
    ensures Passed(s, queued).delivered
            == s.delivered + if exists i :: 0 <= i < |s.q| && Whole(s, i) then [Delivery(k, s.position)] else []
  {
    hide Dispatch, Handed, Ready, Waits, Whole;
    PassDelivers(s, queued);
    var s', n := Passed(s, queued), |s.delivered|;
    forall a | n <= a < |s'.delivered|
      ensures s'.delivered[a] == Delivery(k, s.position)
    {
      var i := HandedIsWhole(s, queued, a);
      WholeIsThere(s, i);
      OneIndex(s, k, s'.delivered[a].index, i);
    }
    AtMostOne(s'.delivered, n, Delivery(k, s.position));
    if i :| 0 <= i < |s.q| && Whole(s, i) {
      var a := WholeIsHanded(s, queued, i);
    } else if n < |s'.delivered| {
      var i := HandedIsWhole(s, queued, n);
      WholeIsThere(s, i);
      assert false;
    }
  }

  lemma WholeIsThere(s: System, i: nat)
    requires Whole(s, i)
    ensures i < |s.q|
  {
  }

  lemma OneIndex(s: System, k: nat, l: nat, i: nat)
    requires Waits(s, k, i) && Waits(s, l, i)
    ensures k == l
  {
  }

  lemma AtMostOne(d: seq<Delivery>, n: nat, x: Delivery)
    requires n <= |d| && (forall a :: n <= a < |d| ==> d[a] == x)
    requires forall a, b :: 0 <= a < b < |d| ==> d[a].index < d[b].index
    ensures |d| <= n + 1 && d == d[..n] + if |d| > n then [x] else []
  {
    assert |d| > n + 1 ==> d[n].index < d[n + 1].index;
  }

  // ---------------------------------------------------------------- identities

  /** The next id is new. */
  ghost predicate IdsKnown(s: System) {
    forall i :: 0 <= i < |s.q| ==> s.q[i].id < |s.truth|
  }

  lemma PassKeepsIds(s: System, queued: int)
    requires IdsKnown(s)
    ensures IdsKnown(Passed(s, queued)) && Passed(s, queued).truth == s.truth
    ensures forall x :: x in Passed(s, queued).q ==> x in s.q
  {
    hide Dispatch, Handed;
    var r := Dispatch(s.q, Wire(s.position), s.number, queued);
    DispatchPartitions(s.q, Wire(s.position), s.number, queued);
    forall x | x in r.waiting
      ensures x in s.q
    {
      assert x in multiset(r.waiting) && x in multiset(s.q);
    }
    forall i | 0 <= i < |r.waiting|
      ensures r.waiting[i].id < |s.truth|
    {
      assert r.waiting[i] in r.waiting;
    }
  }

  lemma LongerIds(s: System, k: nat, index: nat)
    requires IdsKnown(s) && k < |s.sent| && index <= |s.q|
    ensures IdsKnown(Longer(s, k, index)) && Longer(s, k, index).q[index].id == |s.truth|
    ensures forall i :: 0 <= i <= |s.q| && i != index ==> Longer(s, k, index).q[i].id < |s.truth|
  {
    var q := Longer(s, k, index).q;
    forall i | 0 <= i <= |s.q| && i != index
      ensures q[i].id < |s.truth|
    {
      assert q[i] == s.q[if i < index then i else i - 1];
    }
  }

  lemma FilledKeepsIds(s: System, index: nat, seen: bool)
    requires IdsKnown(s) && index < |s.q|
    ensures IdsKnown(Filled(s, index, seen))
  {
    hide Passed;
    if !seen && s.q[index].remaining > 0 {
      var filled := s.(q := s.q[index := s.q[index].(remaining := s.q[index].remaining - 1)]);
      PassKeepsIds(filled, -1);
    }
  }

  lemma ArriveKeepsIds(s: System, k: nat, seen: bool)
    requires IdsKnown(s) && k < |s.sent|
    ensures IdsKnown(Arrive(s, k, seen))
  {
    hide Passed, Filled, Longer, IdsKnown;
    var place := Scan(s.q, Wire(s.position), Wire(s.sent[k].reliable), s.sent[k].unreliable);
    if place.Duplicate? {
      FilledKeepsIds(s, place.index, seen);
    } else {
      QueuedIs(s, k, place.index);
      LongerIds(s, k, place.index);
      PassKeepsIds(Longer(s, k, place.index), |s.truth|);
      var opened' := Queued(s, place.index, k);
      var i := Find(opened'.q, |s.truth|);
      if i < |opened'.q| { FilledKeepsIds(opened', i, false); }
    }
  }

  lemma QueuedIs(s: System, k: nat, index: nat)
    requires k < |s.sent| && index <= |s.q|
    ensures Queued(s, index, k) == Passed(Longer(s, k, index), |s.truth|)
  {
  }

  lemma StepKeepsIds(s: System, step: Step)
    requires IdsKnown(s) && Enabled(s, step)
    ensures IdsKnown(After(s, step))
  {
    hide Passed, Arrive, Enabled;
    match step
    case SubmitReliable(_) =>
    case SubmitUnreliable(_) =>
    case Advance(distance) => PassKeepsIds(s.(position := s.position + distance, number := 0), -1);
    case ArrivePacket(k) =>
      assert k < |s.sent| by { PacketIsSent(s, step); }
      ArriveKeepsIds(s, k, false);
    case ArriveFragment(k, seen) =>
      assert k < |s.sent| by { PacketIsSent(s, step); }
      ArriveKeepsIds(s, k, seen);
    case ArriveUnsequenced =>
      PassKeepsIds(s.(q := s.q + [Arrival(|s.truth|, true, 0, 0, 0)], truth := s.truth + [0]), |s.truth|);
  }

  lemma PacketIsSent(s: System, step: Step)
    requires Enabled(s, step)
    ensures step.ArrivePacket? ==> step.k < |s.sent|
    ensures step.ArriveFragment? ==> step.k < |s.sent|
  {
  }

  lemma {:induction false} RunKeepsIds(states: seq<System>, steps: seq<Step>, n: nat)
    requires Run(states, steps) && n < |states|
    ensures IdsKnown(states[n])
  {
    hide After, Enabled;
    if n > 0 {
      RunKeepsIds(states, steps, n - 1);
      StepKeepsIds(states[n - 1], steps[n - 1]);
    }
  }

  // ---------------------------------------------------------------- what an arrival hands over

  /** What arrives of packet `k` completes it: it is whole, or all of one piece, or one of its fragments,
      not `seen` before, that was the last one missing. */
  ghost predicate Completes(s: System, k: nat, seen: bool)
    requires k < |s.sent|
  {
    if exists i :: 0 <= i < |s.q| && Waits(s, k, i)
    then !seen && s.sent[k].fragments > 0 && exists i :: 0 <= i < |s.q| && Waits(s, k, i) && s.q[i].remaining == 1
    else s.sent[k].fragments <= 1
  }

  /** It is due: sent under the receiver's position, and not overtaken by a later packet. */
  ghost predicate Due(s: System, k: nat, seen: bool)
    requires k < |s.sent|
  {
    s.sent[k].reliable == s.position && s.sent[k].unreliable > s.number && Completes(s, k, seen)
  }

  /** Waiting commands carry different packets. */
  lemma OneCarries(s: System, k: nat, i: nat, j: nat)
    requires Inv(s) && Waits(s, k, i) && Waits(s, k, j)
    ensures i == j
  {
    hide Tracked, SenderOk, DeliveredOk;
    assert Fresh(s, s.q[i]) && Fresh(s, s.q[j]);
  }

  /** No waiting command is complete and current between steps. */
  lemma NoneWhole(s: System, i: nat)
    requires Inv(s) && i < |s.q|
    ensures !Whole(s, i)
  {
    hide SenderOk, DeliveredOk, Ascending;
    if !s.q[i].unsequenced {
      assert Fresh(s, s.q[i]);
      Kind(s, s.q[i]);
    }
  }

  /** A fragment of a waiting packet. */
  lemma FilledHands(s: System, k: nat, i: nat, seen: bool)
    requires Inv(s) && Waits(s, k, i) && k < |s.sent|
    ensures Filled(s, i, seen).delivered == s.delivered
            + if !seen && s.q[i].remaining == 1 && s.sent[k].reliable == s.position then [Delivery(k, s.position)]
                else []
  {
    hide Passed, SenderOk, DeliveredOk;
    var x := s.q[i];
    assert Fresh(s, x);
    if !seen && x.remaining == 1 {
      var filled := s.(q := s.q[i := x.(remaining := 0)]);
      FilledIsReady(s, i);
      Kind(filled, filled.q[i]);
      forall j | 0 <= j < |filled.q| && Whole(filled, j)
        ensures j == i
      {
        if j != i { NoneWhole(s, j); }
      }
      assert Whole(filled, i) <==> s.sent[k].reliable == s.position;
      assert Waits(filled, k, i) && Filled(s, i, seen) == Passed(filled, -1);
      PassHandsJust(filled, -1, k);
    }
  }

  lemma FilledIsReady(s: System, i: nat)
    requires Inv(s) && i < |s.q| && !s.q[i].unsequenced && s.q[i].remaining == 1
    ensures var filled := s.(q := s.q[i := s.q[i].(remaining := 0)]);
            Ready(filled) && MaySpare(filled, -1) && Tracked(filled, filled.q[i])
            && Origin(filled, filled.q[i]) == Origin(s, s.q[i])
  {
    var filled := s.(q := s.q[i := s.q[i].(remaining := 0)]);
    assert Fresh(s, s.q[i]);
    forall j | 0 <= j < |filled.q|
      ensures Bare(filled.q[j]) || (Tracked(filled, filled.q[j]) && filled.truth[filled.q[j].id] == s.truth[s.q[j].id])
    {
      assert Bare(s.q[j]) || Fresh(s, s.q[j]);
    }
  }

  /** A packet, or the first fragment of one, is queued. */
  lemma QueuedHands(s: System, k: nat, index: nat)
    requires Inv(s) && Fits(s, k, index)
    ensures Queued(s, index, k).delivered == s.delivered
            + if s.sent[k].fragments == 0 && s.sent[k].reliable == s.position then [Delivery(k, s.position)] else []
  {
    hide Passed;
    var s1 := Longer(s, k, index);
    LongerIsReady(s, k, index);
    QueuedIs(s, k, index);
    assert s1.q[index] == Arrival(|s.truth|, false, Wire(s.sent[k].reliable), s.sent[k].unreliable,
           s.sent[k].fragments);
    LongerElement(s, k, index, index);
    Kind(s1, s1.q[index]);
    forall i | 0 <= i < |s1.q| && Whole(s1, i)
      ensures i == index
    {
      LongerElement(s, k, index, i);
    }
    assert Whole(s1, index) <==> s.sent[k].fragments == 0 && s.sent[k].reliable == s.position;
    assert Waits(s1, k, index);
    PassHandsJust(s1, |s.truth|, k);
  }

  lemma LongerIsReady(s: System, k: nat, index: nat)
    requires Inv(s) && Fits(s, k, index)
    ensures Ready(Longer(s, k, index)) && MaySpare(Longer(s, k, index), |s.truth|)
  {
    hide Tracked, Complete, Ascending;
    var s1 := Longer(s, k, index);
    LongerAscends(s, k, index);
    forall i | 0 <= i < |s1.q|
      ensures Bare(s1.q[i]) || (Tracked(s1, s1.q[i]) && Known(s1, s1.q[i])
              && Origin(s1, s1.q[i]).reliable >= s.position)
      ensures i != index ==> !Complete(s1.q[i], Wire(s.position))
      ensures i != index && !s1.q[i].unsequenced ==> s1.q[i].id < |s.truth|
      ensures i == index ==> !s1.q[i].unsequenced
    {
      LongerElement(s, k, index, i);
      if !Bare(s1.q[i]) { TrackedIsKnown(s1, s1.q[i]); }
    }
    assert s1.q[index].remaining > 0
           ==> !Complete(s1.q[index], Wire(s.position)) by { IncompleteIsNot(s1.q[index], Wire(s.position)); }
  }

  /** The first fragment of a packet waits where the receiver then looks for it. */
  lemma NewIsFound(s: System, k: nat, index: nat)
    requires IdsKnown(s) && k < |s.sent| && index <= |s.q| && s.sent[k].fragments > 0
    ensures var t := Queued(s, index, k);
            var i := Find(t.q, |s.truth|);
            && i < |t.q| && Waits(t, k, i) && t.q[i].remaining == s.sent[k].fragments
            && t.sent == s.sent && t.position == s.position
  {
    hide Dispatch, Handed;
    var s1 := Longer(s, k, index);
    var x := s1.q[index];
    var r := Dispatch(s1.q, Wire(s.position), s.number, |s.truth|);
    LongerIds(s, k, index);
    DispatchPartitions(s1.q, Wire(s.position), s.number, |s.truth|);
    assert x == Arrival(|s.truth|, false, Wire(s.sent[k].reliable), s.sent[k].unreliable, s.sent[k].fragments);
    IncompleteIsNotHanded(s1.q, Wire(s.position), s.number, |s.truth|, x);
    assert x in multiset(s1.q) && x !in multiset(r.delivered) && x !in multiset(r.freed);
    assert x in multiset(r.waiting);
    var i := Find(r.waiting, |s.truth|);
    assert r.waiting[i] in multiset(r.waiting) && r.waiting[i] in multiset(s1.q);
    var j :| 0 <= j < |s1.q| && s1.q[j] == r.waiting[i];
  }

  lemma IncompleteIsNotHanded(q: seq<Arrival>, at: Word16, number: Word16, queued: int, x: Arrival)
    requires !x.unsequenced && x.remaining > 0
    ensures x !in Dispatch(q, at, number, queued).delivered
  {
    hide Going;
    GoingMembers(q[..StopIndex(q, at)], at);
  }

  /** An arrival hands over its packet if that is due, and nothing else. */
  lemma ArriveHands(s: System, k: nat, seen: bool)
    requires Inv(s) && IdsKnown(s) && k < |s.sent| && Timely(s, k) && PacketWellPlaced(s, k)
    requires s.sent[k].reliable < s.position + MODULUS
    ensures Arrive(s, k, seen).delivered == s.delivered + if Due(s, k, seen) then [Delivery(k, s.position)] else []
  {
    hide Inv, IdsKnown, PacketWellPlaced, Waits, Queued, Filled, Scan;
    var r, u, at := Wire(s.sent[k].reliable), s.sent[k].unreliable, Wire(s.position);
    AwaitedIsAccepted(s.position, s.position);
    if Accepts(r, at) && !(r == at && u <= s.number) {
      TakenIsAwaited(s, k);
      AwaitedIsAccepted(s.sent[k].reliable, s.position);
      ArrivalFindsPlace(s, k);
      var place := Scan(s.q, at, r, u);
      if place.Duplicate? {
        assert Waits(s, k, place.index);
        forall j | 0 <= j < |s.q| && Waits(s, k, j)
          ensures j == place.index
        {
          OneCarries(s, k, j, place.index);
        }
        if s.sent[k].fragments > 0 { FilledHands(s, k, place.index, seen); }
      } else {
        QueuedHands(s, k, place.index);
        if s.sent[k].fragments > 0 {
          var t := Queued(s, place.index, k);
          QueuedKeeps(s, k, place.index);
          NewIsFound(s, k, place.index);
          FilledHands(t, k, Find(t.q, |s.truth|), false);
        }
      }
    }
  }

  lemma ArrivalFindsPlace(s: System, k: nat)
    requires Inv(s) && k < |s.sent| && Timely(s, k) && PacketWellPlaced(s, k)
    requires s.position <= s.sent[k].reliable < s.position + MODULUS
    requires s.sent[k].reliable / WINDOW_SIZE <= s.position / WINDOW_SIZE + 6
    requires s.sent[k].reliable == s.position ==> s.sent[k].unreliable > s.number
    ensures var place := Scan(s.q, Wire(s.position), Wire(s.sent[k].reliable), s.sent[k].unreliable);
            if place.Duplicate? then Waits(s, k, place.index)
            else Fits(s, k, place.index) && forall i :: 0 <= i < |s.q| ==> !Waits(s, k, i)
  {
    hide Scan, PacketWellPlaced, SenderOk, DeliveredOk, Ascending, Tracked;
    assert s.q[..|s.q|] == s.q;
    ScanFindsPlace(s, k, |s.q|);
    var place := Scan(s.q, Wire(s.position), Wire(s.sent[k].reliable), s.sent[k].unreliable);
    if place.Duplicate? {
      assert Fresh(s, s.q[place.index]);
      TrackedIsKnown(s, s.q[place.index]);
    }
  }

  // ---------------------------------------------------------------- what an advance hands over

  /** When the receiver advances, just those waiting packets are handed over, in sending order, that were
      sent under the position reached and are complete. */
  lemma AdvanceHandsOver(s: System, distance: nat, k: nat)
    requires Inv(s) && Enabled(s, Advance(distance)) && k < |s.sent|
    ensures var s' := After(s, Advance(distance));
            && s.delivered <= s'.delivered
            && (Delivery(k, s.position + distance) in s'.delivered[|s.delivered|..]
                <==> s.sent[k].reliable == s.position + distance
                     && exists i :: 0 <= i < |s.q| && Waits(s, k, i) && s.q[i].remaining == 0)
            && forall a :: |s.delivered| <= a < |s'.delivered| ==> s'.delivered[a].position == s.position + distance
  {
    hide Dispatch, Handed, Ready, Whole;
    var moved := s.(position := s.position + distance, number := 0);
    var s' := After(s, Advance(distance));
    MovedIsReady(s, distance);
    if s.q != [] {
      assert s' == Passed(moved, -1);
      forall a | |s.delivered| <= a < |s'.delivered|
        ensures s'.delivered[a].position == s.position + distance
        ensures s'.delivered[a].index == k
                ==> s.sent[k].reliable == s.position + distance
                    && exists i :: 0 <= i < |s.q| && Waits(s, k, i) && s.q[i].remaining == 0
      {
        var i := HandedIsWhole(moved, -1, a);
        WholeIsTracked(moved, i);
        assert s'.delivered[a].index == k ==> Waits(s, k, i) && s.q[i].remaining == 0 by { WholeIs(moved, i); }
      }
      if s.sent[k].reliable == s.position + distance {
        if i :| 0 <= i < |s.q| && Waits(s, k, i) && s.q[i].remaining == 0 {
          MovedIsWhole(s, distance, k, i);
          var a := WholeIsHanded(moved, -1, i);
          assert s'.delivered[a] == s'.delivered[|s.delivered|..][a - |s.delivered|];
        }
      }
    }
  }

  lemma WholeIs(s: System, i: nat)
    requires Whole(s, i)
    ensures i < |s.q| && s.q[i].remaining == 0
  {
  }

  lemma MovedIsReady(s: System, distance: nat)
    requires Inv(s) && Enabled(s, Advance(distance))
    ensures var moved := s.(position := s.position + distance, number := 0);
            Ready(moved) && forall i :: 0 <= i < |s.q| && !s.q[i].unsequenced ==> Tracked(moved, s.q[i])
  {
    var moved := s.(position := s.position + distance, number := 0);
    forall i | 0 <= i < |moved.q|
      ensures Bare(moved.q[i]) || Tracked(moved, moved.q[i])
    {
      assert Bare(s.q[i]) || Fresh(s, s.q[i]);
    }
  }

  lemma MovedIsWhole(s: System, distance: nat, k: nat, i: nat)
    requires Inv(s) && Enabled(s, Advance(distance)) && k < |s.sent| && s.sent[k].reliable == s.position + distance
    requires Waits(s, k, i) && s.q[i].remaining == 0
    ensures Whole(s.(position := s.position + distance, number := 0), i)
  {
    var moved := s.(position := s.position + distance, number := 0);
    MovedIsReady(s, distance);
    Kind(moved, s.q[i]);
  }

  // ---------------------------------------------------------------- over runs

  /** In every state reached with packets sent in turn and well-placed arrivals: the arrival of packet `k`,
      itself well placed, hands over that packet if it is due, and else nothing. */
  lemma ArrivalHandsOver(states: seq<System>, steps: seq<Step>, n: nat, k: nat, seen: bool)
    requires Run(states, steps) && n < |steps| && AllWellPlaced(states, steps, n + 1) && AllInTurn(states, steps, n)
    requires steps[n] == ArriveFragment(k, seen) || (steps[n] == ArrivePacket(k) && !seen)
    ensures k < |states[n].sent|
    ensures states[n + 1].delivered
            == states[n].delivered + if Due(states[n], k, seen) then [Delivery(k, states[n].position)] else []
  {
    RunKeeps(states, steps, n);
    RunKeepsIds(states, steps, n);
    PacketIsSent(states[n], steps[n]);
    assert WellPlaced(states[n], steps[n]);
    ArriveHands(states[n], k, seen);
  }

  /** And its advance hands over what is complete and was sent under the position reached. */
  lemma AdvanceHandsOverInRun(states: seq<System>, steps: seq<Step>, n: nat, k: nat)
    requires Run(states, steps) && n < |steps| && AllWellPlaced(states, steps, n) && AllInTurn(states, steps, n)
    requires steps[n].Advance? && k < |states[n].sent|
    ensures var s, s' := states[n], states[n + 1];
            && s.delivered <= s'.delivered
            && (Delivery(k, s'.position) in s'.delivered[|s.delivered|..]
                <==> s.sent[k].reliable == s'.position
                     && exists i :: 0 <= i < |s.q| && Waits(s, k, i) && s.q[i].remaining == 0)
  {
    RunKeeps(states, steps, n);
    hide Inv, Dispatch, Handed;
    AdvanceHandsOver(states[n], steps[n].distance, k);
  }
}
