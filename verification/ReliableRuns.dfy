/** Runs of the reliable channel that get through: which packets some run delivers. */
module ReliableRuns {
  import opened Windows
  import S = ReliableSender
  import R = ReliableReceiver
  import opened ReliableChannel
  import opened ReceiverProofs
  import opened ReceiverInvariant
  import opened ReliableDelivery

  // ---------------------------------------------------------------- reachable states

  ghost predicate Reaches(states: seq<System>, steps: seq<Step>, s: System) {
    Run(states, steps) && AllRecent(states, steps, |steps|) && states[|steps|] == s
  }

  /** Some run in which all data is recent ends in `s`. */
  ghost predicate Reachable(s: System) {
    exists states, steps :: Reaches(states, steps, s)
  }

  lemma ReachableIsOk(s: System) returns (ids: seq<nat>)
    requires Reachable(s)
    ensures Ok(s, ids)
  {
    var states, steps :| Reaches(states, steps, s);
    ids := RunKeeps(states, steps, |steps|);
  }

  lemma InitialIsReachable(s: System)
    requires Initial(s)
    ensures Reachable(s)
  {
    assert Reaches([s], [], s);
  }

  lemma Onward(s: System, step: Step)
    requires Reachable(s) && Enabled(s, step) && Recent(s, step)
    ensures Reachable(After(s, step))
  {
    hide After, Enabled, Recent, Initial;
    var states, steps :| Reaches(states, steps, s);
    assert Reaches(states + [After(s, step)], steps + [step], After(s, step));
  }

  // ---------------------------------------------------------------- packets that can be delivered

  /** Every message is one the program accepts, fits the receiver's limit, and reaches at most
      seven windows past the window of the position at its turn. */
  predicate Good(log: seq<Message>, maximum: nat) {
    forall i :: 0 <= i < |log| ==> log[i].Sendable() && ReachesEnd(log, i) && |Joined(log[i].pieces)| <= maximum
  }

  predicate Unsent(q: seq<S.OutCommand>, c: nat) {
    forall i :: 0 <= i < |q| ==> q[i].channel == c && q[i].attempts == 0
  }

  ghost predicate Held(s: System, ids: seq<nat>)
    requires s.channel < |s.sender.channels|
  {
    forall i, j :: Piece(s, i, j) && Number(s.log, i, j) <= Newest(s) ==> Got(s.rx, ids, i, j)
  }

  ghost predicate AllSent(s: System)
    requires s.channel < |s.sender.channels|
  {
    forall n :: 1 <= n <= Newest(s) ==> n in s.data
  }

  /** Number `keep`, once sent, stays outstanding, and the last number lies at most six windows
      past it; 0 stands for none. */
  ghost predicate Keeping(s: System, keep: nat)
    requires s.channel < |s.sender.channels|
  {
    && (1 <= keep <= Newest(s) ==> keep in S.Outstanding(s.sender, s.channel))
    && (keep > 0 ==> Used(s.log, |s.log|) / WINDOW_SIZE <= keep / WINDOW_SIZE + 6)
  }

  /** All that was sent has arrived. */
  ghost predicate Driven(s: System, ids: seq<nat>, keep: nat) {
    && Ok(s, ids) && Good(s.log, s.maximum) && Held(s, ids) && AllSent(s) && Keeping(s, keep)
    && Unsent(s.sender.queue, s.channel)
  }

  /** And all that the receiver acknowledges has been acknowledged, but for `keep`. */
  ghost predicate Few(s: System, keep: nat)
    requires s.channel < |s.sender.channels| && |s.rx.delivered| <= |s.log|
  {
    forall n :: n in S.Outstanding(s.sender, s.channel) ==>
      n == keep || n / WINDOW_SIZE >= Position(s) / WINDOW_SIZE + 7
  }

  /** The next number belongs to the message the receiver waits for. */
  lemma NextMessage(s: System, ids: seq<nat>, keep: nat) returns (d: nat)
    requires Driven(s, ids, keep)
    ensures d == |s.rx.delivered| <= |s.log| && Used(s.log, d) <= Newest(s) <= Used(s.log, |s.log|)
    ensures d < |s.log| ==> Used(s.log, d) <= Newest(s) < Used(s.log, d + 1) <= Used(s.log, d) + 8 * WINDOW_SIZE
    ensures d < |s.log| ==> Used(s.log, d + 1) / WINDOW_SIZE <= Used(s.log, d) / WINDOW_SIZE + 7
    ensures d == |s.log| <==> Newest(s) == Used(s.log, |s.log|)
  {
    d := |s.rx.delivered|;
    NewestIsUsed(s, ids);
    DrivenParts(s, ids, keep);
    DeliveredIsTransmitted(s, ids);
    if d < |s.log| {
      assert ReachesEnd(s.log, d);
      hide Ok, Got, Keeping, AllSent, Good, Unsent;
      var j := NextMissing(s, ids);
      assert Piece(s, d, j);
      UsedGrows(s.log, d + 1, |s.log|);
    }
  }

  lemma DrivenParts(s: System, ids: seq<nat>, keep: nat)
    requires Driven(s, ids, keep)
    ensures s.channel < |s.sender.channels| && Held(s, ids) && AllSent(s) && Keeping(s, keep)
  {
  }

  lemma NewestIsUsed(s: System, ids: seq<nat>)
    requires Ok(s, ids)
    ensures s.channel < |s.sender.channels| && 0 <= Newest(s) <= Used(s.log, |s.log|) && |s.rx.delivered| <= |s.log|
  {
  }

  lemma NextMissing(s: System, ids: seq<nat>) returns (j: nat)
    requires Ok(s, ids) && |s.rx.delivered| < |s.log|
    ensures j < |s.log[|s.rx.delivered|].pieces| && !Got(s.rx, ids, |s.rx.delivered|, j)
  {
    j := NextIsIncomplete(s, ids);
  }

  // ---------------------------------------------------------------- sending the next number

  lemma HeadIsNext(s: System, ids: seq<nat>)
    requires Ok(s, ids) && Unsent(s.sender.queue, s.channel) && Newest(s) < Used(s.log, |s.log|)
    ensures s.sender.queue != [] && s.sender.queue[0].number == Newest(s) + 1
    ensures s.sender.queue[0].stored == Wire(Newest(s) + 1)
  {
    assert s.sender.queue != [];
    S.FreshHead(s.sender, s.channel);
  }

  lemma {:induction false} InWindowWitness(q: seq<S.OutCommand>, c: nat, v: nat) returns (n: nat)
    requires S.InWindow(q, c, v) > 0 && S.Numbered(q)
    ensures n in S.Attempted(q, c) && WindowOf(Wire(n)) == v
  {
    if q[0].AttemptedOn(c) && q[0].WindowIndex() == v {
      n := q[0].number;
    } else {
      n := InWindowWitness(q[1..], c, v);
    }
  }

  /** A window in use has something outstanding in it. */
  lemma UsedWindowWitness(s: S.Sender, c: nat, v: nat) returns (n: nat)
    requires S.Orderly(s) && c < |s.channels| && S.ChannelOk(s, c) && v < WINDOWS && s.channels[c].used[v]
    ensures n in S.Outstanding(s, c) && WindowOf(Wire(n)) == v
  {
    if S.InWindow(s.queue, c, v) > 0 {
      n := InWindowWitness(s.queue, c, v);
    } else {
      n := InWindowWitness(s.sent, c, v);
    }
  }

  lemma {:induction false} InWindowIsPart(q: seq<S.OutCommand>, c: nat, v: nat)
    ensures S.InWindow(q, c, v) <= |S.Attempted(q, c)|
  {
    if q != [] {
      InWindowIsPart(q[1..], c, v);
    }
  }

  /** With one number outstanding at most, no counter is above one. */
  lemma CountsAreFew(s: S.Sender, c: nat, v: nat, keep: nat)
    requires S.Orderly(s) && c < |s.channels| && S.ChannelOk(s, c) && v < WINDOWS
    requires forall n :: n in S.Outstanding(s, c) ==> n == keep
    ensures s.channels[c].counts[v] <= 1
  {
    InWindowIsPart(s.queue, c, v);
    InWindowIsPart(s.sent, c, v);
    var all := S.Outstanding(s, c);
    assert all[keep] <= 1;
    assert all - multiset{keep} == multiset{} by {
      assert forall n :: n in all - multiset{keep} ==> n in all;
    }
    assert |all| <= |multiset{keep}| + |all - multiset{keep}|;
  }

  /** The window of `keep` is one of the six before the window of `next`. */
  lemma KeptIsBefore(keep: nat, next: nat)
    requires keep / WINDOW_SIZE < next / WINDOW_SIZE <= keep / WINDOW_SIZE + 6
    ensures !InEntryMask(WindowOf(Wire(next)), WindowOf(Wire(keep)))
  {
    Split(keep);
    Split(next);
    var back := next / WINDOW_SIZE - keep / WINDOW_SIZE;
    var turns := next / MODULUS - keep / MODULUS;
    assert WindowOf(Wire(keep)) == WindowOf(Wire(next)) + turns * WINDOWS - back;
    assert turns == 0 || turns == 1;
    EntryMaskIsTenWindows(WindowOf(Wire(next)), WindowOf(Wire(keep)));
    assert WindowOf(Wire(keep)) == Before(WindowOf(Wire(next)), back);
  }

  lemma DrivenIsOk(s: System, ids: seq<nat>, keep: nat)
    requires Driven(s, ids, keep)
    ensures s.channel < |s.sender.channels|
    ensures Ok(s, ids) && Good(s.log, s.maximum) && Unsent(s.sender.queue, s.channel)
    ensures |s.rx.delivered| <= |s.log| && S.Orderly(s.sender) && S.ChannelOk(s.sender, s.channel) && 0 <= Newest(s)
    ensures keep > 0 ==> Used(s.log, |s.log|) / WINDOW_SIZE <= keep / WINDOW_SIZE + 6
    ensures forall n :: n in S.Outstanding(s.sender, s.channel) ==>
              1 <= n <= Newest(s) && Newest(s) / WINDOW_SIZE <= n / WINDOW_SIZE + 6
  {
  }

  /** When a window is entered, nothing but `keep` is outstanding. */
  lemma OnlyKept(s: System, ids: seq<nat>, keep: nat)
    requires Driven(s, ids, keep) && Few(s, keep) && (Newest(s) + 1) % WINDOW_SIZE == 0
    requires Newest(s) < Used(s.log, |s.log|)
    ensures forall n :: n in S.Outstanding(s.sender, s.channel) ==>
              n == keep && n / WINDOW_SIZE < (Newest(s) + 1) / WINDOW_SIZE <= keep / WINDOW_SIZE + 6
  {
    hide Driven, Ok, Good, S.Outstanding, S.Orderly, S.ChannelOk, Used, Unsent;
    DrivenIsOk(s, ids, keep);
    var d := NextMessage(s, ids, keep);
    UsedGrows(s.log, d + 1, |s.log|);
    EntryIsNear(Newest(s), Used(s.log, d), Used(s.log, d + 1));
    forall n | n in S.Outstanding(s.sender, s.channel)
      ensures n == keep && n / WINDOW_SIZE < (Newest(s) + 1) / WINDOW_SIZE <= keep / WINDOW_SIZE + 6
    {
      EntryIsAbove(n, Newest(s) + 1, Used(s.log, |s.log|));
    }
  }

  lemma EntryIsNear(newest: nat, r: nat, end: nat)
    requires (newest + 1) % WINDOW_SIZE == 0 && newest < end && end / WINDOW_SIZE <= r / WINDOW_SIZE + 7
    ensures newest / WINDOW_SIZE < r / WINDOW_SIZE + 7
  {
  }

  lemma EntryIsAbove(n: nat, next: nat, end: nat)
    requires n < next <= end && next % WINDOW_SIZE == 0
    ensures n / WINDOW_SIZE < next / WINDOW_SIZE <= end / WINDOW_SIZE
  {
  }

  /** So it can be entered. */
  lemma EntersNext(s: System, ids: seq<nat>, keep: nat)
    requires Driven(s, ids, keep) && Few(s, keep) && Newest(s) < Used(s.log, |s.log|)
    ensures s.sender.queue != [] && S.Shaped(s.sender) && S.Admits(s.sender, s.sender.queue[0])
  {
    hide Driven, Few, Ok, Good, S.Outstanding, S.ChannelOk, Used, InEntryMask;
    DrivenIsOk(s, ids, keep);
    HeadIsNext(s, ids);
    if Wire(Newest(s) + 1) % WINDOW_SIZE == 0 {
      WindowStart(Newest(s) + 1);
      OnlyKept(s, ids, keep);
      MayEnterNext(s.sender, s.channel, keep, Newest(s) + 1);
    }
  }

  lemma WindowStart(n: nat)
    requires Wire(n) % WINDOW_SIZE == 0
    ensures n % WINDOW_SIZE == 0
  {
    Split(n);
  }

  lemma MayEnterNext(s: S.Sender, c: nat, keep: nat, next: nat)
    requires S.Orderly(s) && c < |s.channels| && S.ChannelOk(s, c)
    requires forall n :: n in S.Outstanding(s, c) ==>
               n == keep && n / WINDOW_SIZE < next / WINDOW_SIZE <= keep / WINDOW_SIZE + 6
    ensures S.MayEnter(s.channels[c], WindowOf(Wire(next)))
  {
    hide S.Outstanding, S.ChannelOk, InEntryMask;
    var w := WindowOf(Wire(next));
    CountsAreFew(s, c, Before(w, 1), keep);
    forall v | 0 <= v < WINDOWS && InEntryMask(w, v)
      ensures !s.channels[c].used[v]
    {
      if s.channels[c].used[v] {
        var n := UsedWindowWitness(s, c, v);
        KeptIsBefore(keep, next);
        assert false;
      }
    }
  }

  lemma SentStaysUnsent(s: System, now: nat, timeout: nat)
    requires S.Shaped(s.sender) && s.sender.queue != [] && Unsent(s.sender.queue, s.channel)
    ensures Unsent(S.SendHead(s.sender, now, timeout).queue, s.channel)
  {
  }

  /** The next number is sent. */
  lemma SendNext(s: System, ids: seq<nat>, keep: nat) returns (s': System)
    requires Reachable(s) && Driven(s, ids, keep) && Few(s, keep) && Newest(s) < Used(s.log, |s.log|)
    ensures Reachable(s') && Ok(s', ids) && Newest(s') == Newest(s) + 1
    ensures s' == s.(sender := s'.sender, data := s.data + {Newest(s')}) && Unsent(s'.sender.queue, s.channel)
    ensures S.Outstanding(s'.sender, s.channel) == S.Outstanding(s.sender, s.channel) + multiset{Newest(s')}
  {
    hide Driven, Few, Ok, Good, S.Outstanding, S.ChannelOk, S.Orderly, Used, S.SendHead, S.Admits, Run, Reachable;
    DrivenIsOk(s, ids, keep);
    EntersNext(s, ids, keep);
    HeadIsNext(s, ids);
    TransmitFacts(s, ids, 0, 1);
    TransmitKeeps(s, ids, 0, 1);
    Onward(s, Transmit(0, 1));
    SentStaysUnsent(s, 0, 1);
    s' := After(s, Transmit(0, 1));
  }

  /** All pieces up to the newest sent are held. */
  lemma HeldNext(s: System, ids: seq<nat>, s': System, ids': seq<nat>, i: nat, j: nat)
    requires s.channel < |s.sender.channels| && s'.channel < |s'.sender.channels| && s'.log == s.log
    requires Held(s, ids) && Newest(s') == Newest(s) + 1
    requires Piece(s, i, j) && Number(s.log, i, j) == Newest(s') && Got(s'.rx, ids', i, j)
    requires forall a, b :: Piece(s, a, b) && Got(s.rx, ids, a, b) ==> Got(s'.rx, ids', a, b)
    ensures Held(s', ids')
  {
    hide Got;
    forall a, b | Piece(s', a, b) && Number(s'.log, a, b) <= Newest(s')
      ensures Got(s'.rx, ids', a, b)
    {
      if Number(s.log, a, b) == Newest(s') {
        NumberUnique(s.log, i, j, a, b);
      } else {
        assert Piece(s, a, b);
      }
    }
  }

  lemma SentNextIsDriven(s: System, ids: seq<nat>, keep: nat, s': System, ids': seq<nat>, i: nat, j: nat)
    requires Driven(s, ids, keep) && Ok(s', ids') && Newest(s') == Newest(s) + 1
    requires s' == s.(sender := s'.sender, data := s.data + {Newest(s')}, rx := s'.rx, acks := s'.acks)
    requires Unsent(s'.sender.queue, s.channel)
    requires S.Outstanding(s'.sender, s.channel) == S.Outstanding(s.sender, s.channel) + multiset{Newest(s')}
    requires Piece(s, i, j) && Number(s.log, i, j) == Newest(s') && Got(s'.rx, ids', i, j)
    requires forall a, b :: Piece(s, a, b) && Got(s.rx, ids, a, b) ==> Got(s'.rx, ids', a, b)
    ensures Driven(s', ids', keep)
  {
    hide Ok, Good, Held, S.Outstanding, Got, Used, Unsent;
    DrivenIsOk(s, ids, keep);
    DrivenParts(s, ids, keep);
    OkIsShaped(s', ids');
    assert Held(s', ids') by { HeldNext(s, ids, s', ids', i, j); }
  }

  /** The message the receiver waits for is neither refused nor ignored. */
  lemma CurrentIsTaken(s: System, ids: seq<nat>, j: nat) returns (ids': seq<nat>)
    requires Ok(s, ids) && Good(s.log, s.maximum) && |s.rx.delivered| < |s.log|
    requires Piece(s, |s.rx.delivered|, j) && Number(s.log, |s.rx.delivered|, j) in s.data
    ensures Enabled(s, DeliverData(|s.rx.delivered|, j, false)) && Recent(s, DeliverData(|s.rx.delivered|, j, false))
    ensures var s', d := After(s, DeliverData(|s.rx.delivered|, j, false)), |s.rx.delivered|;
            && Ok(s', ids') && Got(s'.rx, ids', d, j) && s' == s.(rx := s'.rx, acks := s'.acks)
            && forall a, b :: Piece(s, a, b) && Got(s.rx, ids, a, b) ==> Got(s'.rx, ids', a, b)
  {
    hide Ok, Got, Arrive, Good, ReachesEnd, Joined;
    var d := |s.rx.delivered|;
    OkIsShaped(s, ids);
    assert |Joined(s.log[d].pieces)| <= s.maximum by { GoodFits(s.log, s.maximum, d); }
    RoomMeansTaken(s, ids, d, j);
    ids' := DataKeeps(s, ids, d, j, false);
    NextIsAccepted(Position(s));
  }

  lemma GoodFits(log: seq<Message>, maximum: nat, i: nat)
    requires Good(log, maximum) && i < |log|
    ensures |Joined(log[i].pieces)| <= maximum
  {
  }

  lemma NextIsAccepted(r: nat)
    ensures Accepts(Wire(r + 1), Wire(r))
  {
    AheadIsDistance(r + 1, r);
  }

  lemma OkIsShaped(s: System, ids: seq<nat>)
    requires Ok(s, ids)
    ensures s.channel < |s.sender.channels| && S.Shaped(s.sender) && |s.rx.delivered| <= |s.log|
    ensures s.rx.position == Wire(Position(s))
  {
  }

  /** It is sent and arrives. */
  lemma SendAndArrive(s: System, ids: seq<nat>, keep: nat) returns (s': System, ids': seq<nat>)
    requires Reachable(s) && Driven(s, ids, keep) && Few(s, keep) && Newest(s) < Used(s.log, |s.log|)
    ensures Reachable(s') && Driven(s', ids', keep) && Newest(s') == Newest(s) + 1
    ensures s'.log == s.log && s'.maximum == s.maximum
    ensures |s'.rx.delivered| <= |s'.log| && Position(s') / WINDOW_SIZE <= Position(s) / WINDOW_SIZE + 7
    ensures forall n :: n in S.Outstanding(s'.sender, s'.channel) ==> n == keep || n > Position(s)
  {
    hide Driven, Few, Ok, Good, S.Outstanding, Used, Run, Reachable, After, Got, Enabled, Recent, Unsent;
    DrivenIsOk(s, ids, keep);
    var d := NextMessage(s, ids, keep);
    var s1 := SendNext(s, ids, keep);
    OkIsShaped(s1, ids);
    var j := Newest(s) - Used(s.log, d);
    assert Piece(s1, d, j) && Number(s1.log, d, j) == Newest(s1) by { UsedStep(s.log, d); }
    ids' := CurrentIsTaken(s1, ids, j);
    Onward(s1, DeliverData(d, j, false));
    s' := After(s1, DeliverData(d, j, false));
    SentNextIsDriven(s, ids, keep, s', ids', d, j);
    DrivenIsOk(s', ids', keep);
    OkIsShaped(s', ids');
    DeliveredIsTransmitted(s', ids');
    assert forall n ::
           n in S.Outstanding(s.sender, s.channel) ==> n == keep || n > Position(s) by { FewIsAbove(s, keep); }
  }

  lemma UsedStep(log: seq<Message>, d: nat)
    requires d < |log|
    ensures Used(log, d + 1) == Used(log, d) + |log[d].pieces|
  {
  }

  lemma FewIsAbove(s: System, keep: nat)
    requires s.channel < |s.sender.channels| && |s.rx.delivered| <= |s.log| && Few(s, keep)
    ensures forall n :: n in S.Outstanding(s.sender, s.channel) ==> n == keep || n > Position(s)
  {
  }

  // ---------------------------------------------------------------- acknowledging what arrived

  /** Every number in use is some piece's. */
  lemma {:induction false} Locate(log: seq<Message>, upto: nat, n: nat) returns (i: nat, j: nat)
    requires upto <= |log| && 1 <= n <= Used(log, upto)
    ensures i < upto && j < |log[i].pieces| && Number(log, i, j) == n
  {
    if n > Used(log, upto - 1) {
      i, j := upto - 1, n - Used(log, upto - 1) - 1;
    } else {
      i, j := Locate(log, upto - 1, n);
    }
  }

  /** The receiver acknowledges a repetition of what is outstanding, unless it is too far ahead. */
  lemma NearIsAcknowledged(n: nat, r: nat, newest: nat)
    requires n <= newest && r <= newest && newest / WINDOW_SIZE <= n / WINDOW_SIZE + 6
    requires n / WINDOW_SIZE <= r / WINDOW_SIZE + 6
    ensures Acknowledges(Wire(n), Wire(r)) && newest < n + MODULUS
  {
    if n <= r {
      OutstandingIsClose(n, r, newest);
    } else {
      AheadIsDistance(n, r);
    }
  }

  /** Once all that was sent is held, a repetition does not take the position on. */
  lemma HeldStays(s: System, ids: seq<nat>, keep: nat, s': System, ids': seq<nat>)
    requires Driven(s, ids, keep) && Ok(s', ids') && s' == s.(rx := s'.rx, acks := s'.acks)
    requires |s.rx.delivered| <= |s'.rx.delivered|
    ensures |s'.rx.delivered| == |s.rx.delivered| && s'.rx.position == s.rx.position
  {
    hide S.Orderly, S.ChannelOk, S.Outstanding, Got, Good, Placed;
    var d := NextMessage(s, ids, keep);
    DeliveredIsTransmitted(s', ids');
    OkIsShaped(s, ids);
    OkIsShaped(s', ids');
    if d < |s'.rx.delivered| { UsedGrows(s.log, d + 1, |s'.rx.delivered|); }
  }

  /** A repetition of `n`, as the step the network takes. */
  lemma RepeatArrives(s: System, ids: seq<nat>, keep: nat, i: nat, j: nat) returns (s': System, ids': seq<nat>)
    requires Reachable(s) && Driven(s, ids, keep) && Piece(s, i, j)
    requires |s.rx.delivered| <= |s.log| && DataIsRecent(s, i)
    requires Number(s.log, i, j) in S.Outstanding(s.sender, s.channel)
    requires Number(s.log, i, j) / WINDOW_SIZE <= Position(s) / WINDOW_SIZE + 6
    ensures Reachable(s') && Driven(s', ids', keep) && s' == s.(rx := s'.rx, acks := s.acks + {Number(s.log, i, j)})
    ensures |s'.rx.delivered| == |s.rx.delivered|
  {
    hide Ok, Good, Held, Got, S.Outstanding, Used, Run, Reachable, Arrive, Unsent, S.Orderly, S.ChannelOk;
    var step := DeliverData(i, j, false);
    DrivenIsOk(s, ids, keep);
    OutstandingIsInTime(s, ids, i, j);
    OkIsShaped(s, ids);
    RoomMeansTaken(s, ids, i, j);
    ids' := DataKeeps(s, ids, i, j, false);
    s' := After(s, step);
    Onward(s, step);
    HeldStays(s, ids, keep, s', ids');
    NearIsAcknowledged(Number(s.log, i, j), Position(s), Newest(s));
    assert Held(s', ids') by { StillHeld(s, ids, s', ids'); }
  }

  lemma StillHeld(s: System, ids: seq<nat>, s': System, ids': seq<nat>)
    requires s.channel < |s.sender.channels| && Held(s, ids) && s' == s.(rx := s'.rx, acks := s'.acks)
    requires forall a, b :: Piece(s, a, b) && Got(s.rx, ids, a, b) ==> Got(s'.rx, ids', a, b)
    ensures Held(s', ids')
  {
    hide Got;
    forall a, b | Piece(s', a, b) && Number(s'.log, a, b) <= Newest(s')
      ensures Got(s'.rx, ids', a, b)
    {
      assert Piece(s, a, b);
    }
  }

  lemma AckLeavesUnsent(s: S.Sender, stored: Word16, c: nat)
    requires S.Shaped(s) && Unsent(s.queue, c)
    ensures Unsent(S.Acknowledge(s, stored, c).queue, c)
  {
    hide S.Settled;
  }

  /** An acknowledgement of something other than `keep` arrives. */
  lemma AckArrives(s: System, ids: seq<nat>, keep: nat, n: nat) returns (s': System)
    requires Reachable(s) && Driven(s, ids, keep) && n in s.acks && n != keep
    requires n in S.Outstanding(s.sender, s.channel)
    ensures Reachable(s') && Driven(s', ids, keep) && s' == s.(sender := s'.sender) && Newest(s') == Newest(s)
    ensures S.Outstanding(s'.sender, s.channel) == S.Outstanding(s.sender, s.channel) - multiset{n}
  {
    hide Ok, Good, Got, S.Outstanding, Used, Run, Reachable, Unsent, S.Orderly, S.ChannelOk, S.Acknowledge;
    var step := DeliverAck(n);
    DrivenIsOk(s, ids, keep);
    OkIsShaped(s, ids);
    AckKeeps(s, ids, n);
    S.AcknowledgeExact(s.sender, n, s.channel);
    AckKeepsLast(s.sender, Wire(n), s.channel);
    AckLeavesUnsent(s.sender, Wire(n), s.channel);
    Onward(s, step);
    s' := After(s, step);
  }

  /** What is outstanding, `keep` aside, belongs to messages from `a` on, and the position lies at
      most seven windows past the start of those. */
  ghost predicate Above(s: System, keep: nat, a: nat)
    requires s.channel < |s.sender.channels| && |s.rx.delivered| <= |s.log|
  {
    && a <= |s.log| && Position(s) / WINDOW_SIZE <= Used(s.log, a) / WINDOW_SIZE + 7
    && forall n :: n in S.Outstanding(s.sender, s.channel) ==> n == keep || n > Used(s.log, a)
  }

  lemma AboveIsRecent(s: System, keep: nat, a: nat, i: nat, j: nat)
    requires s.channel < |s.sender.channels| && |s.rx.delivered| <= |s.log| && Above(s, keep, a)
    requires Piece(s, i, j) && Number(s.log, i, j) > Used(s.log, a)
    ensures DataIsRecent(s, i)
  {
    if i < a {
      UsedGrows(s.log, i, a);
      assert false;
    } else {
      UsedGrows(s.log, a, i);
      SameOrLaterWindow(Used(s.log, a), Number(s.log, i, 0));
      assert Position(s) / WINDOW_SIZE <= Number(s.log, i, 0) / WINDOW_SIZE + 7;
    }
  }

  lemma SameOrLaterWindow(a: nat, b: nat)
    requires a <= b
    ensures a / WINDOW_SIZE <= b / WINDOW_SIZE
  {
  }

  /** Everything but `keep` that the receiver would acknowledge is repeated and acknowledged. */
  lemma {:induction false} Flush(s: System, ids: seq<nat>, keep: nat, a: nat) returns (s': System, ids': seq<nat>)
    requires Reachable(s) && Driven(s, ids, keep) && |s.rx.delivered| <= |s.log| && Above(s, keep, a)
    ensures Reachable(s') && Driven(s', ids', keep) && Newest(s') == Newest(s)
    ensures |s'.rx.delivered| <= |s'.log| && Few(s', keep) && s'.log == s.log && s'.maximum == s.maximum
    decreases |S.Outstanding(s.sender, s.channel)|
  {
    hide Driven, S.Outstanding, Used, Run, Reachable, Ok, Good, S.Orderly, S.ChannelOk;
    DrivenIsOk(s, ids, keep);
    var waiting := S.Outstanding(s.sender, s.channel);
    if n: nat :| n in waiting && n != keep && n / WINDOW_SIZE <= Position(s) / WINDOW_SIZE + 6 {
      var d := NextMessage(s, ids, keep);
      var i, j := Locate(s.log, |s.log|, n);
      assert Piece(s, i, j);
      AboveIsRecent(s, keep, a, i, j);
      var s1, ids1 := RepeatArrives(s, ids, keep, i, j);
      var s2 := AckArrives(s1, ids1, keep, n);
      DrivenIsOk(s2, ids1, keep);
      assert |waiting - multiset{n}| < |waiting|;
      s', ids' := Flush(s2, ids1, keep, a);
    } else {
      s', ids' := s, ids;
      assert forall n :: n in waiting ==> n == keep || n / WINDOW_SIZE >= Position(s) / WINDOW_SIZE + 7;
    }
  }

  // ---------------------------------------------------------------- to the end

  /** One more number: sent, received, acknowledged. */
  lemma OneMore(s: System, ids: seq<nat>, keep: nat) returns (s': System, ids': seq<nat>)
    requires Reachable(s) && Driven(s, ids, keep) && Few(s, keep) && Newest(s) < Used(s.log, |s.log|)
    ensures Reachable(s') && Driven(s', ids', keep) && Newest(s') == Newest(s) + 1
    ensures |s'.rx.delivered| <= |s'.log| && Few(s', keep) && s'.log == s.log && s'.maximum == s.maximum
  {
    hide Driven, Few, S.Outstanding, Used, Run, Reachable, Ok, Good, S.Orderly, S.ChannelOk;
    DrivenIsOk(s, ids, keep);
    var s1, ids1 := SendAndArrive(s, ids, keep);
    DrivenIsOk(s1, ids1, keep);
    s', ids' := Flush(s1, ids1, keep, |s.rx.delivered|);
    DrivenIsOk(s', ids', keep);
  }

  lemma {:induction false} DriveToEnd(s: System, ids: seq<nat>, keep: nat) returns (s': System, ids': seq<nat>)
    requires Reachable(s) && Driven(s, ids, keep) && Few(s, keep)
    ensures Reachable(s') && Driven(s', ids', keep) && Newest(s') == Used(s'.log, |s'.log|)
    ensures |s'.rx.delivered| <= |s'.log| && Few(s', keep)
    ensures s'.log == s.log && s'.maximum == s.maximum
    decreases Used(s.log, |s.log|) - Newest(s)
  {
    hide Driven, Few, S.Outstanding, Used, Run, Reachable, Ok, Good, S.Orderly, S.ChannelOk;
    DrivenIsOk(s, ids, keep);
    var d := NextMessage(s, ids, keep);
    if Newest(s) < Used(s.log, |s.log|) {
      var s1, ids1 := OneMore(s, ids, keep);
      DrivenIsOk(s1, ids1, keep);
      s', ids' := DriveToEnd(s1, ids1, keep);
    } else {
      s', ids' := s, ids;
    }
  }

  // ---------------------------------------------------------------- the start

  function Blanks(message: Message): (loads: seq<S.Load>)
    ensures Carry(loads, message)
  {
    seq(|message.pieces|, j requires 0 <= j < |message.pieces| =>
        S.Load(0, true, 0, |message.pieces[j]|, 0, 0, false, 0))
  }

  lemma {:induction false} EnqueuedUnsent(s: S.Sender, c: nat, loads: seq<S.Load>)
    requires c < |s.channels| && Unsent(s.queue, c) && forall j :: 0 <= j < |loads| ==> loads[j].packet
    ensures Unsent(EnqueueAll(s, c, loads).queue, c)
    decreases loads
  {
    if loads != [] {
      EnqueuedUnsent(S.Enqueue(s, c, loads[0]), c, loads[1..]);
    }
  }

  /** Everything is submitted and nothing sent. */
  ghost predicate Submitted(s: System, log: seq<Message>, maximum: nat) {
    && s.log == log && s.maximum == maximum && Ok(s, []) && Newest(s) == 0
    && Unsent(s.sender.queue, s.channel) && S.Outstanding(s.sender, s.channel) == multiset{}
    && s.rx == R.Receiver(0, [], [])
  }

  function Start(maximum: nat): System {
    System(0, maximum, [], S.Sender([S.Channel(0, seq(WINDOWS, _ => 0), seq(WINDOWS, _ => false))], 0, [], [], [], 0),
           {}, {}, R.Receiver(0, [], []))
  }

  lemma {:induction false} SubmitAll(log: seq<Message>, maximum: nat) returns (s: System)
    requires AllSendable(log)
    ensures Reachable(s) && Submitted(s, log, maximum)
  {
    hide Submitted, Reachable;
    if log == [] {
      s := Start(maximum);
      StartIsSubmitted(maximum);
    } else {
      var last := log[|log| - 1];
      var s0 := SubmitAll(log[..|log| - 1], maximum);
      assert log == log[..|log| - 1] + [last];
      s := SubmitOne(s0, log[..|log| - 1], maximum, last);
    }
  }

  lemma StartIsSubmitted(maximum: nat)
    ensures Reachable(Start(maximum)) && Submitted(Start(maximum), [], maximum)
  {
    hide Ok, Reachable;
    InitialOk(Start(maximum));
    InitialIsReachable(Start(maximum));
  }

  lemma SubmitOne(s: System, log: seq<Message>, maximum: nat, message: Message) returns (s': System)
    requires Reachable(s) && Submitted(s, log, maximum) && message.Sendable()
    ensures Reachable(s') && Submitted(s', log + [message], maximum)
  {
    hide Ok, Run, Reachable, S.Outstanding, S.Orderly, S.ChannelOk, EnqueueAll, Unsent;
    var step := Submit(message, Blanks(message));
    OkIsShaped(s, []);
    OkIsOrderly(s, []);
    SubmitKeeps(s, [], message, Blanks(message));
    EnqueueAllKeeps(s.sender, s.channel, Blanks(message));
    EnqueuedUnsent(s.sender, s.channel, Blanks(message));
    Onward(s, step);
    s' := After(s, step);
  }

  lemma OkIsOrderly(s: System, ids: seq<nat>)
    requires Ok(s, ids)
    ensures s.channel < |s.sender.channels| && S.Orderly(s.sender) && S.ChannelOk(s.sender, s.channel)
  {
  }

  lemma SubmittedIsDriven(s: System, log: seq<Message>, maximum: nat, keep: nat)
    requires Submitted(s, log, maximum) && Good(log, maximum)
    requires keep > 0 ==> Used(log, |log|) / WINDOW_SIZE <= keep / WINDOW_SIZE + 6
    ensures Driven(s, [], keep) && Few(s, keep)
  {
    hide Ok, S.Outstanding, Got, Good;
  }

  // ---------------------------------------------------------------- which packets get through

  /** With everything sent and held, everything is delivered. */
  lemma AllIsDelivered(s: System, ids: seq<nat>, keep: nat)
    requires Driven(s, ids, keep) && Newest(s) == Used(s.log, |s.log|)
    ensures s.rx.delivered == Bodies(s.log) && s.rx.waiting == []
  {
    hide Driven, Ok, Used, Bodies;
    var d := NextMessage(s, ids, keep);
    DrivenIsOk(s, ids, keep);
    OkIsPlaced(s, ids);
    PlacedToTheEnd(s.log, s.rx, ids, Newest(s));
  }

  lemma OkIsPlaced(s: System, ids: seq<nat>)
    requires Ok(s, ids)
    ensures s.channel < |s.sender.channels| && 0 <= Newest(s) && Placed(s.log, s.rx, ids, Newest(s))
  {
  }

  lemma PlacedToTheEnd(log: seq<Message>, rx: R.Receiver, ids: seq<nat>, newest: nat)
    requires Placed(log, rx, ids, newest) && |rx.delivered| == |log|
    ensures rx.delivered == Bodies(log) && rx.waiting == []
  {
    assert rx.waiting != [] ==> Waits(log, rx.waiting[0], ids[0], |rx.delivered|, newest);
  }

  /** A run that gets them all through, with `keep` never acknowledged. */
  lemma GoodIsDelivered(log: seq<Message>, maximum: nat, keep: nat) returns (s: System, ids: seq<nat>)
    requires Good(log, maximum)
    requires keep > 0 ==> Used(log, |log|) / WINDOW_SIZE <= keep / WINDOW_SIZE + 6
    ensures Reachable(s) && Driven(s, ids, keep) && s.log == log && s.maximum == maximum
    ensures Newest(s) == Used(log, |log|) && s.rx.delivered == Bodies(log) && s.rx.waiting == [] && Few(s, keep)
  {
    hide Driven, Few, Used, Run, Reachable, Submitted, Ok;
    var s0 := SubmitAll(log, maximum);
    SubmittedIsDriven(s0, log, maximum, keep);
    assert s0.log == log && s0.maximum == maximum by { SubmittedLog(s0, log, maximum); }
    s, ids := DriveToEnd(s0, [], keep);
    AllIsDelivered(s, ids, keep);
  }

  lemma SubmittedLog(s: System, log: seq<Message>, maximum: nat)
    requires Submitted(s, log, maximum)
    ensures s.log == log && s.maximum == maximum
  {
  }

  ghost predicate DeliversAll(s: System, log: seq<Message>, maximum: nat) {
    Reachable(s) && s.log == log && s.maximum == maximum && s.rx.delivered == Bodies(log)
  }

  lemma DeliveredIsGood(s: System, log: seq<Message>, maximum: nat)
    requires DeliversAll(s, log, maximum)
    ensures Good(log, maximum)
  {
    var ids := ReachableIsOk(s);
    hide S.Orderly, S.ChannelOk, EndsAgree, Run, Reachable, Joined;
    forall i | 0 <= i < |log|
      ensures log[i].Sendable() && ReachesEnd(log, i) && |Joined(log[i].pieces)| <= maximum
    {
      assert |s.rx.delivered[i]| <= maximum;
      assert ReachesEnd(s.log, i);
    }
  }

  /** Exactly which packets can be delivered: some run submits them and delivers them all if and
      only if the program accepts each, each fits the receiver's limit, and the last number of each
      lies at most seven windows past the window of the position at its turn. */
  lemma DeliverableIff(log: seq<Message>, maximum: nat)
    ensures (exists s :: DeliversAll(s, log, maximum)) <==> Good(log, maximum)
  {
    hide Good, Reachable;
    if Good(log, maximum) {
      var s, ids := GoodIsDelivered(log, maximum, 0);
      assert DeliversAll(s, log, maximum);
    }
    if s :| DeliversAll(s, log, maximum) {
      DeliveredIsGood(s, log, maximum);
    }
  }

  /** A packet of 32768 fragments is accepted, and never delivered in any undisturbed run. */
  lemma TooLongIsAccepted(message: Message, maximum: nat) returns (s: System)
    requires message.Sendable() && |message.pieces| >= 8 * WINDOW_SIZE
    ensures Reachable(s) && s.log == [message] && s.maximum == maximum && !ReachesEnd(s.log, 0)
  {
    s := SubmitAll([message], maximum);
    SubmittedLog(s, [message], maximum);
    VeryLongIsTooLong([message], 0);
  }
}
