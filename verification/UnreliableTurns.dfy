/** What becomes of a packet sent a whole turn of reliable numbers, or more, ahead of the receiver.

    Reliable numbers are given out when a command is queued, queued reliable commands may wait for
    windows while unreliable ones pass them, and the receiver only sees numbers modulo 65536. */
module UnreliableTurns {
  import opened Lists
  import opened Windows
  import opened UnreliableQueue
  import opened UnreliableChannel
  import opened UnreliableOrder
  import opened UnreliableMisled

  // ---------------------------------------------------------------- true in every run

  predicate Congruent(s: System, d: Delivery) {
    d.index < |s.sent| && Wire(s.sent[d.index].reliable) == Wire(d.position)
  }

  /** A waiting sequenced command carries its packet's number. */
  predicate Carries(s: System, x: Arrival) {
    !x.unsequenced ==> Known(s, x) && x.reliable == Wire(Origin(s, x).reliable)
  }

  ghost predicate Numbered(s: System) {
    && (forall i :: 0 <= i < |s.q| ==> Carries(s, s.q[i]))
    && forall a :: 0 <= a < |s.delivered| ==> Congruent(s, s.delivered[a])
  }

  /** What a pass hands over was sent under a number that looks like the position. */
  lemma HandsCongruent(s: System, queued: int, a: nat)
    requires Numbered(s) && |s.delivered| <= a < |Passed(s, queued).delivered|
    ensures Congruent(s, Passed(s, queued).delivered[a]) && Passed(s, queued).delivered[a].position == s.position
  {
    hide Dispatch, StopIndex, Handed, Going, Staying, Trailing, Spared, Freed;
    var at := Wire(s.position);
    var items := Dispatch(s.q, at, s.number, queued).delivered;
    HandedAre(items, s.truth, s.position, a - |s.delivered|);
    var i :| 0 <= i < |items| && !items[i].unsequenced && items[i].id < |s.truth|
             && Passed(s, queued).delivered[a].index == s.truth[items[i].id];
    DispatchCuts(s.q, at, s.number, queued);
    GoingMembers(s.q[..Cut(s.q, at)], at);
    assert items[i] in Going(s.q[..Cut(s.q, at)], at);
    assert Carries(s, items[i]);
  }

  lemma PassKeepsNumbered(s: System, queued: int)
    requires Numbered(s)
    ensures Numbered(Passed(s, queued))
  {
    hide Dispatch, Handed, Within;
    var s' := Passed(s, queued);
    DispatchKeepsOrder(s.q, Wire(s.position), s.number, queued);
    forall i | 0 <= i < |s'.q|
      ensures Carries(s', s'.q[i])
    {
      var j := WithinPlace(s'.q, s.q, i);
    }
    forall a | 0 <= a < |s'.delivered|
      ensures Congruent(s', s'.delivered[a])
    {
      if a >= |s.delivered| {
        HandsCongruent(s, queued, a);
      } else {
        assert s'.delivered[a] == s.delivered[a];
      }
    }
  }

  lemma LongerKeepsNumbered(s: System, k: nat, index: nat)
    requires Numbered(s) && k < |s.sent| && index <= |s.q|
    ensures Numbered(Longer(s, k, index))
  {
    var t := Longer(s, k, index);
    forall i | 0 <= i < |t.q|
      ensures Carries(t, t.q[i])
    {
      if i != index {
        var known := s.q[if i < index then i else i - 1];
        assert t.q[i] == known && Carries(s, known);
      }
    }
    assert forall a :: 0 <= a < |s.delivered| ==> Congruent(s, s.delivered[a]);
  }

  lemma QueuedKeepsNumbered(s: System, k: nat, index: nat)
    requires Numbered(s) && k < |s.sent| && index <= |s.q|
    ensures Numbered(Queued(s, index, k))
    ensures Queued(s, index, k).delivered == Passed(Longer(s, k, index), |s.truth|).delivered
  {
    hide Dispatch, Numbered, Passed;
    LongerKeepsNumbered(s, k, index);
    PassKeepsNumbered(Longer(s, k, index), |s.truth|);
    QueuedIsPassed(s, k, index);
  }

  function OneLess(s: System, index: nat): System
    requires index < |s.q| && s.q[index].remaining > 0
  {
    s.(q := s.q[index := s.q[index].(remaining := s.q[index].remaining - 1)])
  }

  lemma OneLessKeepsNumbered(s: System, index: nat)
    requires Numbered(s) && index < |s.q| && s.q[index].remaining > 0
    ensures Numbered(OneLess(s, index))
  {
    var t := OneLess(s, index);
    forall i | 0 <= i < |t.q|
      ensures Carries(t, t.q[i])
    {
      assert Carries(s, s.q[i]);
    }
    assert forall a :: 0 <= a < |s.delivered| ==> Congruent(s, s.delivered[a]);
  }

  lemma FilledKeepsNumbered(s: System, index: nat, seen: bool)
    requires Numbered(s) && index < |s.q|
    ensures Numbered(Filled(s, index, seen))
  {
    hide Dispatch, Numbered, Passed;
    if !seen && s.q[index].remaining > 0 {
      OneLessKeepsNumbered(s, index);
      PassKeepsNumbered(OneLess(s, index), -1);
    }
  }

  lemma ArriveKeepsNumbered(s: System, k: nat, seen: bool)
    requires Numbered(s) && k < |s.sent|
    ensures Numbered(Arrive(s, k, seen))
  {
    hide Dispatch, Numbered, Queued, Filled;
    var r, u, at := Wire(s.sent[k].reliable), s.sent[k].unreliable, Wire(s.position);
    if Accepts(r, at) && !(r == at && u <= s.number) {
      var place := Scan(s.q, at, r, u);
      if place.Duplicate? {
        FilledKeepsNumbered(s, place.index, seen);
      } else {
        QueuedKeepsNumbered(s, k, place.index);
        var opened' := Queued(s, place.index, k);
        var i := Find(opened'.q, |s.truth|);
        if i < |opened'.q| {
          FilledKeepsNumbered(opened', i, false);
        }
      }
    }
  }

  /** The same commands wait and the same was handed over; only what was sent may have grown. */
  lemma SameIsNumbered(s: System, t: System)
    requires Numbered(s) && t.q == s.q && t.truth == s.truth && t.delivered == s.delivered && s.sent <= t.sent
    ensures Numbered(t)
  {
    assert forall i :: 0 <= i < |s.q| ==> Carries(s, s.q[i]);
    assert forall a :: 0 <= a < |s.delivered| ==> Congruent(s, s.delivered[a]);
  }

  lemma UnsequencedKeepsNumbered(s: System)
    requires Numbered(s)
    ensures Numbered(After(s, ArriveUnsequenced))
  {
    hide Dispatch, Passed;
    var t := s.(q := s.q + [Arrival(|s.truth|, true, 0, 0, 0)], truth := s.truth + [0]);
    forall i | 0 <= i < |t.q|
      ensures Carries(t, t.q[i])
    {
      assert i < |s.q| ==> Carries(s, s.q[i]);
    }
    assert forall a :: 0 <= a < |s.delivered| ==> Congruent(s, s.delivered[a]);
    PassKeepsNumbered(t, |s.truth|);
  }

  lemma StepKeepsNumbered(s: System, step: Step)
    requires Numbered(s) && Enabled(s, step)
    ensures Numbered(After(s, step))
  {
    hide Dispatch, Numbered, Passed, Arrive;
    match step
    case ArrivePacket(k) => ArriveKeepsNumbered(s, k, false);
    case ArriveFragment(k, seen) => ArriveKeepsNumbered(s, k, seen);
    case ArriveUnsequenced => UnsequencedKeepsNumbered(s);
    case Advance(distance) =>
      var moved := s.(position := s.position + distance, number := 0);
      SameIsNumbered(s, moved);
      PassKeepsNumbered(moved, -1);
    case _ => SameIsNumbered(s, After(s, step));
  }

  lemma {:induction false} RunKeepsNumbered(states: seq<System>, steps: seq<Step>, n: nat)
    requires Run(states, steps) && n < |states|
    ensures Numbered(states[n])
  {
    hide After, Enabled, Congruent, Carries;
    if n > 0 {
      RunKeepsNumbered(states, steps, n - 1);
      assert Numbered(states[n - 1]);
      StepKeepsNumbered(states[n - 1], steps[n - 1]);
    }
  }

  /** In every run, with no condition on it, what is handed over was sent under its position or a
      whole number of turns away from it; so under its own exactly if both are within one turn. */
  lemma HandedUnderOwnPositionIff(states: seq<System>, steps: seq<Step>, n: nat, a: nat)
    requires Run(states, steps) && n < |states| && a < |states[n].delivered|
    ensures var s, d := states[n], states[n].delivered[a];
            && d.index < |s.sent|
            && (d.position == s.sent[d.index].reliable
                <==> d.position - MODULUS < s.sent[d.index].reliable < d.position + MODULUS)
  {
    hide Run;
    RunKeepsNumbered(states, steps, n);
    var s, d := states[n], states[n].delivered[a];
    assert Congruent(s, d);
    if d.position - MODULUS < s.sent[d.index].reliable < d.position + MODULUS {
      NoAlias(s.sent[d.index].reliable, d.position);
    }
  }

  // ---------------------------------------------------------------- one arrival

  /** An arrival that is not too late and is taken is seen at its true distance from the position
      exactly if it was sent less than a turn ahead of it. */
  lemma SeenWhereItIsIff(s: System, k: nat)
    requires k < |s.sent| && Timely(s, k) && Accepts(Wire(s.sent[k].reliable), Wire(s.position))
    ensures Ahead(Wire(s.sent[k].reliable), Wire(s.position)) == s.sent[k].reliable - s.position
            <==> s.sent[k].reliable < s.position + MODULUS
  {
    TakenIsAwaited(s, k);
    if s.sent[k].reliable < s.position + MODULUS {
      AheadIsDistance(s.sent[k].reliable, s.position);
    }
  }

  lemma ArrivalHandsCongruent(s: System, k: nat, seen: bool, a: nat)
    requires Numbered(s) && k < |s.sent| && |s.delivered| <= a < |Arrive(s, k, seen).delivered|
    ensures Congruent(s, Arrive(s, k, seen).delivered[a]) && Arrive(s, k, seen).delivered[a].position == s.position
  {
    hide Dispatch, Passed, Numbered, Handed;
    ArriveKeepsNumbered(s, k, seen);
    ArriveLeavesSender(s, k, seen);
    var s' := Arrive(s, k, seen);
    assert Congruent(s', s'.delivered[a]) by { NumberedAt(s', a); }
    ArrivalHandsHere(s, k, seen, a);
  }

  lemma NumberedAt(s: System, a: nat)
    requires Numbered(s) && a < |s.delivered|
    ensures Congruent(s, s.delivered[a])
  {
  }

  lemma PassHandsHere(s: System, queued: int, a: nat)
    requires |s.delivered| <= a < |Passed(s, queued).delivered|
    ensures Passed(s, queued).delivered[a].position == s.position
  {
    hide Dispatch, Handed;
    HandedAre(Dispatch(s.q, Wire(s.position), s.number, queued).delivered, s.truth, s.position, a - |s.delivered|);
  }

  lemma FilledHandsHere(s: System, index: nat, seen: bool, a: nat)
    requires index < |s.q| && |s.delivered| <= a < |Filled(s, index, seen).delivered|
    ensures Filled(s, index, seen).delivered[a].position == s.position
  {
    hide Dispatch, Passed;
    PassHandsHere(OneLess(s, index), -1, a);
  }

  lemma QueuedHandsHere(s: System, index: nat, k: nat)
    requires k < |s.sent| && index <= |s.q|
    ensures var t := Queued(s, index, k); |s.delivered| <= |t.delivered| && t.position == s.position
    ensures forall a :: |s.delivered| <= a < |Queued(s, index, k).delivered| ==>
                          Queued(s, index, k).delivered[a].position == s.position
  {
    hide Dispatch, Handed;
    forall a | |s.delivered| <= a < |Queued(s, index, k).delivered|
      ensures Queued(s, index, k).delivered[a].position == s.position
    {
      PassHandsHere(Longer(s, k, index), |s.truth|, a);
    }
  }

  lemma FilledOnlyAdds(s: System, index: nat, seen: bool)
    requires index < |s.q|
    ensures s.delivered <= Filled(s, index, seen).delivered
  {
    hide Dispatch, Handed;
  }

  lemma ArrivalHandsHere(s: System, k: nat, seen: bool, a: nat)
    requires k < |s.sent| && |s.delivered| <= a < |Arrive(s, k, seen).delivered|
    ensures Arrive(s, k, seen).delivered[a].position == s.position
  {
    hide Dispatch, Queued, Filled;
    var r, u, at := Wire(s.sent[k].reliable), s.sent[k].unreliable, Wire(s.position);
    var place := Scan(s.q, at, r, u);
    if place.Duplicate? {
      FilledHandsHere(s, place.index, seen, a);
    } else {
      QueuedHandsHere(s, place.index, k);
      var opened' := Queued(s, place.index, k);
      var i := Find(opened'.q, |s.truth|);
      if s.sent[k].fragments > 0 && i < |opened'.q| {
        FilledOnlyAdds(opened', i, false);
        if a >= |opened'.delivered| { FilledHandsHere(opened', i, false, a); }
      }
    }
  }

  /** In a state of any run, whatever waits: if the arrival of packet `k` hands it over, it does so
      under the packet's own position exactly if that is less than a turn ahead. */
  lemma ArrivalHandsUnderOwnIff(s: System, k: nat, seen: bool, a: nat)
    requires Numbered(s) && k < |s.sent| && Timely(s, k)
    requires |s.delivered| <= a < |Arrive(s, k, seen).delivered| && Arrive(s, k, seen).delivered[a].index == k
    ensures Arrive(s, k, seen).delivered[a].position == s.sent[k].reliable
            <==> s.sent[k].reliable < s.position + MODULUS
  {
    hide Arrive, Numbered;
    ArrivalHandsCongruent(s, k, seen, a);
    if s.sent[k].reliable < s.position {
      OvertakenIsRefused(s.sent[k].reliable, s.position);
    } else if s.sent[k].reliable < s.position + MODULUS {
      NoAlias(s.sent[k].reliable, s.position);
    }
  }

  // ---------------------------------------------------------------- a run in which it happens

  const FAR := System(65536, 1, [Sent(65536, 1, 0)], 0, 0, [], [], [])

  lemma FarIsHandedOver()
    ensures After(FAR, ArrivePacket(0)) == FAR.(number := 1, truth := [0], delivered := [Delivery(0, 0)])
  {
    var x := Arrival(0, false, 0, 1, 0);
    assert Wire(65536) == 0;
    assert Scan([], 0, 0, 1) == Slot(0) && Inserted([], 0, x) == [x];
    AllGoAtOnce([x], 0, 0, 0);
    assert [x][..0] == [] && Handed([], [0], 0) == [];
    assert Handed([x], [0], 0) == [Delivery(0, 0)];
    hide Dispatch, Scan;
    assert [] + [0] == [0] && [] + [Delivery(0, 0)] == [Delivery(0, 0)];
  }

  lemma FarIsSent()
    ensures var s0, s1 := System(0, 0, [], 0, 0, [], [], []), System(65536, 0, [], 0, 0, [], [], []);
            && Initial(s0) && Enabled(s0, SubmitReliable(65536)) && After(s0, SubmitReliable(65536)) == s1
            && Enabled(s1, SubmitUnreliable(0)) && After(s1, SubmitUnreliable(0)) == FAR
            && !SentInTurn(s1, SubmitUnreliable(0))
  {
    assert [] + [Sent(65536, 1, 0)] == [Sent(65536, 1, 0)];
  }

  lemma FarIsWellPlaced()
    ensures Enabled(FAR, ArrivePacket(0)) && WellPlaced(FAR, ArrivePacket(0))
    ensures WellPlaced(System(0, 0, [], 0, 0, [], [], []), SubmitReliable(65536))
    ensures WellPlaced(System(65536, 0, [], 0, 0, [], [], []), SubmitUnreliable(0))
  {
  }

  /** The law fails: after 65536 reliable commands were queued an unreliable packet is sent, passes
      them, and is handed over at once, though none of them has been. The arrival is well placed
      and in time. */
  lemma FarIsHandedOverAtOnce() returns (states: seq<System>, steps: seq<Step>)
    ensures Run(states, steps) && |steps| == 3
    ensures steps == [SubmitReliable(65536), SubmitUnreliable(0), ArrivePacket(0)]
    ensures states[3].delivered == [Delivery(0, 0)] && states[3].sent == [Sent(65536, 1, 0)]
    ensures AllWellPlaced(states, steps, 3) && !SentInTurn(states[1], steps[1])
  {
    FarIsSent();
    FarIsHandedOver();
    FarIsWellPlaced();
    hide Initial, Enabled, After, WellPlaced, SentInTurn;
    states := [System(0, 0, [], 0, 0, [], [], []), System(65536, 0, [], 0, 0, [], [], []), FAR,
               FAR.(number := 1, truth := [0], delivered := [Delivery(0, 0)])];
    steps := [SubmitReliable(65536), SubmitUnreliable(0), ArrivePacket(0)];
  }
}
