/** Reliable delivery over whole runs: what is dispatched is a prefix of what was sent. */
module ReliableDelivery {
  import opened Windows
  import S = ReliableSender
  import R = ReliableReceiver
  import opened ReliableChannel
  import opened ReliableReach
  import opened ReceiverProofs
  import opened ReceiverInvariant

  function Newest(s: System): int
    requires s.channel < |s.sender.channels|
  {
    S.Newest(s.sender, s.channel)
  }

  predicate Piece(s: System, i: int, j: int) { 0 <= i < |s.log| && 0 <= j < |s.log[i].pieces| }

  /** The sender's books agree with the log. */
  ghost predicate SenderOk(s: System) {
    && s.channel < |s.sender.channels|
    && S.Orderly(s.sender) && S.ChannelOk(s.sender, s.channel)
    && AllSendable(s.log)
    && s.sender.channels[s.channel].last == Used(s.log, |s.log|)
  }

  /** The receiver's books agree with the log. */
  ghost predicate ReceiverOk(s: System, ids: seq<nat>)
    requires s.channel < |s.sender.channels|
  {
    0 <= Newest(s) && Placed(s.log, s.rx, ids, Newest(s)) && Settled(s.rx) && WithinMaximum(s.rx, s.maximum)
  }

  /** The two ends agree: only what was transmitted is held, only what is held is acknowledged,
      and the sender still keeps whatever it transmitted that the receiver does not hold. */
  ghost predicate EndsAgree(s: System, ids: seq<nat>)
    requires s.channel < |s.sender.channels|
  {
    && (forall n :: n in s.data ==> 1 <= n <= Newest(s))
    && s.acks <= s.data
    && (forall i, j :: Piece(s, i, j) && Got(s.rx, ids, i, j) ==> Number(s.log, i, j) <= Newest(s))
    && (forall i, j :: Piece(s, i, j) && Number(s.log, i, j) in s.acks ==> Got(s.rx, ids, i, j))
    && (forall i, j :: Piece(s, i, j) && Number(s.log, i, j) <= Newest(s) && !Got(s.rx, ids, i, j) ==>
          Number(s.log, i, j) in S.Outstanding(s.sender, s.channel))
  }

  /** What is acknowledged, or no longer kept, lies at most six windows past the receiver, and so
      what is sent lies at most seven. */
  ghost predicate Near(s: System)
    requires s.channel < |s.sender.channels| && |s.rx.delivered| <= |s.log|
  {
    var w := Position(s) / WINDOW_SIZE;
    && (forall n :: n in s.acks ==> n / WINDOW_SIZE <= w + 6)
    && (forall n :: 1 <= n <= Newest(s) && n !in S.Outstanding(s.sender, s.channel) ==> n / WINDOW_SIZE <= w + 6)
    && Newest(s) / WINDOW_SIZE <= w + 7
    && forall i :: 0 <= i < |s.rx.delivered| ==> ReachesEnd(s.log, i)
  }

  /** The last number of message `i` lies at most seven windows past the position at its turn. */
  predicate ReachesEnd(log: seq<Message>, i: nat)
    requires i < |log|
  {
    Used(log, i + 1) / WINDOW_SIZE <= Used(log, i) / WINDOW_SIZE + 7
  }

  ghost predicate Ok(s: System, ids: seq<nat>) {
    SenderOk(s) && ReceiverOk(s, ids) && EndsAgree(s, ids) && Near(s)
  }

  // ---------------------------------------------------------------- reach

  /** The next message, if it waits at the head of the list, is missing a piece. */
  lemma HeadIsIncomplete(s: System, ids: seq<nat>) returns (j: nat)
    requires s.channel < |s.sender.channels| && AllSendable(s.log) && ReceiverOk(s, ids)
    requires |ids| > 0 && ids[0] == |s.rx.delivered| < |s.log|
    ensures j < |s.log[ids[0]].pieces| && !HasPiece(s.rx.waiting[0], j)
  {
    var d, x := |s.rx.delivered|, s.rx.waiting[0];
    assert Waits(s.log, x, d, d, Newest(s));
    assert x.stored == Wire(Used(s.log, d) + 1) == (s.rx.position + 1) % MODULUS;
    j := SomeMissing(x.marks);
  }

  /** The next message is missing a piece. */
  lemma NextIsIncomplete(s: System, ids: seq<nat>) returns (j: nat)
    requires s.channel < |s.sender.channels| && AllSendable(s.log) && ReceiverOk(s, ids)
    requires |s.rx.delivered| < |s.log|
    ensures j < |s.log[|s.rx.delivered|].pieces| && !Got(s.rx, ids, |s.rx.delivered|, j)
  {
    j := 0;
    assert |s.log[|s.rx.delivered|].pieces| >= 1;
    if |ids| > 0 && ids[0] == |s.rx.delivered| {
      j := HeadIsIncomplete(s, ids);
    }
    assert forall k :: 0 < k < |ids| ==> ids[k] > ids[0] >= |s.rx.delivered|;
  }

  /** A first transmission stays within reach: it enters a window only when one of the window
      before is no longer outstanding, which the receiver acknowledged. */
  lemma FirstSendIsNear(s: System, ids: seq<nat>)
    requires Ok(s, ids) && s.sender.queue != [] && S.Admits(s.sender, s.sender.queue[0])
    requires s.sender.queue[0].channel == s.channel && s.sender.queue[0].attempts < 1
             && s.sender.queue[0].number == Newest(s) + 1
    ensures (Newest(s) + 1) / WINDOW_SIZE <= Position(s) / WINDOW_SIZE + 7
  {
    var m := Newest(s) + 1;
    if m % WINDOW_SIZE == 0 && m / WINDOW_SIZE > 1 {
      var v := m / WINDOW_SIZE - 1;
      var n := EntersAfterSome(s.sender, s.channel, v);
      assert n / WINDOW_SIZE == v;
    }
  }

  // ---------------------------------------------------------------- steps

  lemma {:induction false} EnqueueAllKeeps(s: S.Sender, c: nat, loads: seq<S.Load>)
    requires (forall j :: 0 <= j < |loads| ==> loads[j].packet) && S.Orderly(s) && c < |s.channels| && S.ChannelOk(s, c)
    ensures var s' := EnqueueAll(s, c, loads);
            && S.Orderly(s') && S.ChannelOk(s', c)
            && S.Newest(s', c) == S.Newest(s, c) && S.Outstanding(s', c) == S.Outstanding(s, c)
            && s'.channels[c].last == s.channels[c].last + |loads|
    decreases loads
  {
    if loads != [] {
      S.EnqueueKeeps(s, c, loads[0], c);
      EnqueueAllKeeps(S.Enqueue(s, c, loads[0]), c, loads[1..]);
    }
  }

  /** A longer log means nothing new to the receiver. */
  lemma LongerLogReceiver(s: System, ids: seq<nat>, message: Message)
    requires s.channel < |s.sender.channels| && ReceiverOk(s, ids)
    ensures Placed(s.log + [message], s.rx, ids, Newest(s))
    ensures forall i :: 0 <= i <= |s.log| ==> Used(s.log + [message], i) == Used(s.log, i)
    ensures forall j :: !Got(s.rx, ids, |s.log|, j)
  {
    var longer := s.log + [message];
    forall i | 0 <= i <= |s.log|
      ensures Used(longer, i) == Used(s.log, i)
    {
      UsedOfLonger(s.log, [message], i);
    }
    assert Bodies(longer)[..|s.rx.delivered|] == Bodies(s.log)[..|s.rx.delivered|];
    forall k | 0 <= k < |ids|
      ensures Waits(longer, s.rx.waiting[k], ids[k], |s.rx.delivered|, Newest(s)) && ids[k] < |s.log|
    {
      assert Waits(s.log, s.rx.waiting[k], ids[k], |s.rx.delivered|, Newest(s));
    }
  }

  lemma PlacedIsShort(log: seq<Message>, rx: R.Receiver, ids: seq<nat>, newest: nat)
    requires Placed(log, rx, ids, newest)
    ensures |rx.delivered| <= |log|
  {
  }

  lemma SubmitKeeps(s: System, ids: seq<nat>, message: Message, loads: seq<S.Load>)
    requires Ok(s, ids) && Enabled(s, Submit(message, loads))
    ensures Ok(After(s, Submit(message, loads)), ids)
  {
    hide S.Orderly, S.ChannelOk, Placed, S.Outstanding, EnqueueAll, WithinMaximum;
    var s' := After(s, Submit(message, loads));
    assert |s.rx.delivered| <= |s.log| by { PlacedIsShort(s.log, s.rx, ids, Newest(s)); }
    EnqueueAllKeeps(s.sender, s.channel, loads);
    LongerLogReceiver(s, ids, message);
    assert SenderOk(s') && ReceiverOk(s', ids) && Newest(s') == Newest(s);
    assert Near(s') by {
      forall i | 0 <= i < |s.rx.delivered|
        ensures ReachesEnd(s'.log, i)
      {
        assert ReachesEnd(s.log, i);
      }
    }
    forall i, j | Piece(s', i, j)
      ensures i < |s.log| ==> Piece(s, i, j) && Number(s'.log, i, j) == Number(s.log, i, j)
      ensures i == |s.log| ==> Number(s'.log, i, j) > Newest(s)
    {
    }
  }

  /** Steps that only touch the sender, leaving what channel `channel` has sent and still waits for. */
  lemma SenderStepKeeps(s: System, ids: seq<nat>, sender: S.Sender)
    requires Ok(s, ids) && |sender.channels| == |s.sender.channels|
    requires S.Orderly(sender) && S.ChannelOk(sender, s.channel)
    requires sender.channels[s.channel].last == s.sender.channels[s.channel].last
    requires S.Newest(sender, s.channel) == Newest(s)
    requires S.Outstanding(sender, s.channel) == S.Outstanding(s.sender, s.channel)
    ensures Ok(s.(sender := sender), ids)
  {
  }

  /** Sending again what is outstanding. */
  lemma ResendAgrees(s: System, ids: seq<nat>, n: nat)
    requires Ok(s, ids) && n in S.Outstanding(s.sender, s.channel)
    ensures Ok(s.(data := s.data + {n}), ids)
  {
  }

  lemma TransmitFacts(s: System, ids: seq<nat>, now: nat, timeout: nat)
    requires Ok(s, ids) && Enabled(s, Transmit(now, timeout))
    ensures var sender', c, x := S.SendHead(s.sender, now, timeout), s.channel, s.sender.queue[0];
            && |sender'.channels| == |s.sender.channels| && S.Orderly(sender') && S.ChannelOk(sender', c)
            && sender'.channels[c].last == s.sender.channels[c].last
            && (if x.channel == c && x.attempts < 1
                then x.number == Newest(s) + 1 && S.Newest(sender', c) == Newest(s) + 1
                     && S.Outstanding(sender', c) == S.Outstanding(s.sender, c) + multiset{Newest(s) + 1}
                else S.Newest(sender', c) == Newest(s) && S.Outstanding(sender', c) == S.Outstanding(s.sender, c)
                     && (x.channel == c ==> x.number in S.Outstanding(s.sender, c)))
  {
    S.SendHeadKeeps(s.sender, now, timeout, s.channel);
    SendKeepsLast(s.sender, now, timeout, s.channel);
    var x := s.sender.queue[0];
    if x.channel == s.channel && x.attempts >= 1 {
      S.AttemptedMember(s.sender.queue, s.channel, 0);
    }
  }

  lemma TransmitKeeps(s: System, ids: seq<nat>, now: nat, timeout: nat)
    requires Ok(s, ids) && Enabled(s, Transmit(now, timeout))
    ensures Ok(After(s, Transmit(now, timeout)), ids)
  {
    hide Ok, S.SendHead, S.Outstanding, S.Orderly, S.ChannelOk;
    TransmitFacts(s, ids, now, timeout);
    var sender', x := S.SendHead(s.sender, now, timeout), s.sender.queue[0];
    if x.channel == s.channel && x.attempts < 1 {
      FirstSendIsNear(s, ids);
      FirstSendAgrees(s, ids, sender');
    } else {
      SenderStepKeeps(s, ids, sender');
      if x.channel == s.channel {
        ResendAgrees(s.(sender := sender'), ids, x.number);
      }
    }
  }

  lemma FirstSendAgrees(s: System, ids: seq<nat>, sender: S.Sender)
    requires Ok(s, ids) && |sender.channels| == |s.sender.channels|
    requires S.Orderly(sender) && S.ChannelOk(sender, s.channel)
    requires sender.channels[s.channel].last == s.sender.channels[s.channel].last
    requires S.Newest(sender, s.channel) == Newest(s) + 1
    requires (Newest(s) + 1) / WINDOW_SIZE <= Position(s) / WINDOW_SIZE + 7
    requires S.Outstanding(sender, s.channel) == S.Outstanding(s.sender, s.channel) + multiset{Newest(s) + 1}
    ensures Ok(s.(sender := sender, data := s.data + {Newest(s) + 1}), ids)
  {
    hide S.Orderly, S.ChannelOk, S.Outstanding, AllSendable, WithinMaximum, Contains;
    var newest := Newest(s);
    forall k | 0 <= k < |ids|
      ensures Waits(s.log, s.rx.waiting[k], ids[k], |s.rx.delivered|, newest + 1)
    {
      assert Waits(s.log, s.rx.waiting[k], ids[k], |s.rx.delivered|, newest);
    }
    assert newest + 1 in S.Outstanding(sender, s.channel);
    assert forall n :: n in S.Outstanding(s.sender, s.channel) ==> n in S.Outstanding(sender, s.channel);
  }

  lemma AckKeepsLast(sender: S.Sender, stored: Word16, c: nat)
    requires S.Shaped(sender) && c < |sender.channels|
    ensures |S.Acknowledge(sender, stored, c).channels| == |sender.channels|
    ensures S.Acknowledge(sender, stored, c).channels[c].last == sender.channels[c].last
  {
  }

  lemma SendKeepsLast(sender: S.Sender, now: nat, timeout: nat, c: nat)
    requires S.Shaped(sender) && c < |sender.channels| && sender.queue != []
    ensures |S.SendHead(sender, now, timeout).channels| == |sender.channels|
    ensures S.SendHead(sender, now, timeout).channels[c].last == sender.channels[c].last
  {
  }

  lemma AckKeeps(s: System, ids: seq<nat>, number: nat)
    requires Ok(s, ids) && Enabled(s, DeliverAck(number))
    ensures Ok(After(s, DeliverAck(number)), ids)
  {
    hide S.Orderly, S.ChannelOk, Placed, S.Outstanding, S.Acknowledge, WithinMaximum, AllSendable;
    var s' := After(s, DeliverAck(number));
    S.AcknowledgeExact(s.sender, number, s.channel);
    AckKeepsLast(s.sender, Wire(number), s.channel);
    forall i, j | Piece(s, i, j) && Number(s.log, i, j) <= Newest(s) && !Got(s.rx, ids, i, j)
      ensures Number(s.log, i, j) in S.Outstanding(s'.sender, s.channel)
    {
      assert Number(s.log, i, j) != number;
    }
  }

  lemma DataKeeps(s: System, ids: seq<nat>, i: nat, j: nat, full: bool) returns (ids': seq<nat>)
    requires Ok(s, ids) && Enabled(s, DeliverData(i, j, full)) && DataIsRecent(s, i)
    ensures Ok(After(s, DeliverData(i, j, full)), ids')
    ensures s.rx.delivered <= After(s, DeliverData(i, j, full)).rx.delivered
    ensures forall a, b ::
            Piece(s, a, b) && Got(s.rx, ids, a, b) ==> Got(After(s, DeliverData(i, j, full)).rx, ids', a, b)
    ensures Arrive(s, i, j, full).Taken? ==>
              Got(Arrive(s, i, j, full).rx, ids', i, j) || Silent(s.log, s.rx, Arrive(s, i, j, full).rx, i, j)
  {
    var s' := After(s, DeliverData(i, j, full));
    ids' := ids;
    if |s.log[i].pieces| == 1 {
      var ids2 := PacketArrives(s.log, s.rx, ids, Newest(s), i, s.maximum, full);
      if Arrive(s, i, j, full).Taken? { ids' := ids2; }
    } else {
      var ids2 := FragmentArrives(s.log, s.rx, ids, Newest(s), i, j, s.maximum, full);
      if Arrive(s, i, j, full).Taken? { ids' := ids2; }
    }
    if Arrive(s, i, j, full).Taken? {
      ArrivalWithinMaximum(s, i, j, full);
      ArrivalAgrees(s, ids, s', ids', i, j);
    }
  }

  lemma ArrivalWithinMaximum(s: System, i: nat, j: nat, full: bool)
    requires i < |s.log| && j < |s.log[i].pieces|
    requires WithinMaximum(s.rx, s.maximum) && Arrive(s, i, j, full).Taken?
    ensures WithinMaximum(Arrive(s, i, j, full).rx, s.maximum)
  {
    if |s.log[i].pieces| == 1 {
      PacketWithinMaximum(s.rx, Wire(Number(s.log, i, 0)), s.log[i].pieces[0], s.maximum, full);
    } else {
      FragmentWithinMaximum(s.rx, FragmentOf(s.log, i, j), s.maximum, full);
    }
  }

  /** What is newly delivered was transmitted, within reach of the position it was held from. */
  lemma DeliveredReachEnd(s: System, ids: seq<nat>, rx: R.Receiver, ids': seq<nat>, i: nat, j: nat, a: nat)
    requires Ok(s, ids) && Piece(s, i, j) && Number(s.log, i, j) in s.data
    requires Absorbed(s.log, s.rx, ids, rx, ids', Newest(s), i, j) && |s.rx.delivered| <= a < |rx.delivered|
    ensures ReachesEnd(s.log, a)
  {
    hide SenderOk, Settled, S.Outstanding;
    hide Waits, WithinReach, Bodies, S.Orderly;
    UsedGrows(s.log, |s.rx.delivered|, a);
    var last := |s.log[a].pieces| - 1;
    assert AllSendable(s.log) by { LogIsSendable(s, ids); }
    assert Piece(s, a, last) && Got(rx, ids', a, last);
    assert Got(s.rx, ids, a, last) || (a == i && last == j);
    assert Number(s.log, a, last) == Used(s.log, a + 1);
  }

  lemma LogIsSendable(s: System, ids: seq<nat>)
    requires Ok(s, ids)
    ensures AllSendable(s.log)
  {
  }

  lemma AcknowledgedIsNear(n: nat, r: nat, newest: nat)
    requires n <= newest && newest / WINDOW_SIZE <= r / WINDOW_SIZE + 7 && Acknowledges(Wire(n), Wire(r))
    ensures n / WINDOW_SIZE <= r / WINDOW_SIZE + 6
  {
    if n >= r {
      AheadIsDistance(n, r);
    }
  }

  lemma ArrivalIsNear(s: System, ids: seq<nat>, s': System, ids': seq<nat>, i: nat, j: nat)
    requires Ok(s, ids) && Piece(s, i, j) && Number(s.log, i, j) in s.data
    requires s' == s.(rx := s'.rx, acks := s'.acks)
    requires Absorbed(s.log, s.rx, ids, s'.rx, ids', Newest(s), i, j)
    requires s'.acks == s.acks
          || (s'.acks == s.acks + {Number(s.log, i, j)} && Acknowledges(Wire(Number(s.log, i, j)), s'.rx.position))
    ensures Near(s')
  {
    forall a | |s.rx.delivered| <= a < |s'.rx.delivered|
      ensures ReachesEnd(s.log, a)
    {
      DeliveredReachEnd(s, ids, s'.rx, ids', i, j, a);
    }
    hide SenderOk, Settled, S.Outstanding, Waits, Got;
    var n, d, d' := Number(s.log, i, j), |s.rx.delivered|, |s'.rx.delivered|;
    UsedGrows(s.log, d, d');
    if s'.acks != s.acks {
      AcknowledgedIsNear(n, Position(s'), Newest(s));
    }
  }

  lemma ArrivalAgrees(s: System, ids: seq<nat>, s': System, ids': seq<nat>, i: nat, j: nat)
    requires Ok(s, ids) && Piece(s, i, j) && Number(s.log, i, j) in s.data
    requires s' == s.(rx := s'.rx, acks := s'.acks)
    requires Absorbed(s.log, s.rx, ids, s'.rx, ids', Newest(s), i, j)
    requires WithinMaximum(s'.rx, s.maximum)
    requires s'.acks == s.acks
          || (s'.acks == s.acks + {Number(s.log, i, j)} && Got(s'.rx, ids', i, j)
             && Acknowledges(Wire(Number(s.log, i, j)), s'.rx.position))
    ensures Ok(s', ids')
  {
    ArrivalIsNear(s, ids, s', ids', i, j);
    hide Near;
    forall a, b | Piece(s, a, b) && Number(s.log, a, b) in s'.acks
      ensures Got(s'.rx, ids', a, b)
    {
      if Number(s.log, a, b) !in s.acks {
        NumberUnique(s.log, a, b, i, j);
      }
    }
  }

  /** Steps that only concern the sender and leave channel `channel` as it is. */
  predicate ElsewhereOnly(step: Step) {
    step.SubmitElsewhere? || step.SubmitControl? || step.SubmitUnreliable? || step.TransmitOther?
    || step.TimeOut? || step.DeliverAckElsewhere?
  }

  lemma ElsewhereChannels(s: System, step: Step)
    requires Enabled(s, step) && ElsewhereOnly(step)
    ensures var channels, c := After(s, step).sender.channels, s.channel;
            && |channels| == |s.sender.channels| && channels[c].last == s.sender.channels[c].last
  {
  }

  lemma ElsewhereSender(s: System, step: Step)
    requires Enabled(s, step) && ElsewhereOnly(step) && S.Orderly(s.sender) && S.ChannelOk(s.sender, s.channel)
    ensures var sender, c := After(s, step).sender, s.channel;
            && |sender.channels| == |s.sender.channels| && S.Orderly(sender) && S.ChannelOk(sender, c)
            && sender.channels[c].last == s.sender.channels[c].last
            && S.Newest(sender, c) == Newest(s) && S.Outstanding(sender, c) == S.Outstanding(s.sender, c)
  {
    ElsewhereChannels(s, step);
    hide S.Orderly, S.ChannelOk, S.Acknowledge, S.Requeue, S.SendOther, S.Enqueue;
    match step {
      case SubmitElsewhere(other, load) => S.EnqueueKeeps(s.sender, other, load, s.channel);
      case SubmitControl(load) => S.EnqueueControlKeeps(s.sender, load, s.channel);
      case SubmitUnreliable(x) => S.EnqueueUnreliableKeeps(s.sender, x, s.channel);
      case TransmitOther(now, timeout) => S.SendOtherKeeps(s.sender, now, timeout, s.channel);
      case TimeOut(expired, backoff) => S.RequeueKeeps(s.sender, expired, backoff, s.channel);
      case DeliverAckElsewhere(other, stored) => S.AcknowledgeElsewhere(s.sender, stored, other, s.channel);
      case _ =>
    }
  }

  lemma ElsewhereKeeps(s: System, ids: seq<nat>, step: Step)
    requires Ok(s, ids) && Enabled(s, step) && ElsewhereOnly(step)
    ensures Ok(After(s, step), ids)
  {
    hide EndsAgree, ReceiverOk, Near, AllSendable, S.ChannelOk, S.Newest, S.Outstanding, S.Acknowledge;
    ElsewhereSender(s, step);
    ElsewhereIsSender(s, step);
    SenderStepKeeps(s, ids, After(s, step).sender);
  }

  lemma ElsewhereIsSender(s: System, step: Step)
    requires Enabled(s, step) && ElsewhereOnly(step)
    ensures After(s, step) == s.(sender := After(s, step).sender)
  {
  }

  /** Every step keeps the invariant, if no data arrives that is not recent. */
  lemma StepKeeps(s: System, ids: seq<nat>, step: Step) returns (ids': seq<nat>)
    requires Ok(s, ids) && Enabled(s, step) && Recent(s, step)
    ensures Ok(After(s, step), ids')
  {
    ids' := ids;
    if ElsewhereOnly(step) {
      ElsewhereKeeps(s, ids, step);
    } else {
      hide Ok, After;
      match step {
        case Submit(message, loads) => SubmitKeeps(s, ids, message, loads);
        case Transmit(now, timeout) => TransmitKeeps(s, ids, now, timeout);
        case DeliverData(i, j, full) => ids' := DataKeeps(s, ids, i, j, full);
        case DeliverAck(number) => AckKeeps(s, ids, number);
        case _ =>
      }
    }
  }

  lemma InitialOk(s: System)
    requires Initial(s)
    ensures Ok(s, [])
  {
    assert S.Fresh(s.sender.queue, s.channel) == S.Upward(1, 0);
  }

  /** Short packets are recent whenever they are in time. */
  lemma ShortIsRecent(s: System, i: nat, j: nat)
    requires |s.rx.delivered| <= |s.log| && i < |s.log| && j < |s.log[i].pieces| <= 3 * WINDOW_SIZE + 1
    requires DataInTime(s, i, j)
    ensures DataIsRecent(s, i)
  {
    assert Number(s.log, i, j) <= Number(s.log, i, 0) + 3 * WINDOW_SIZE;
  }

  lemma LogGrows(s: System, step: Step)
    requires Enabled(s, step)
    ensures s.log <= After(s, step).log
  {
  }

  lemma UndisturbedBefore(states: seq<System>, steps: seq<Step>, k: nat)
    requires Run(states, steps) && 0 < k < |states| && Undisturbed(states, steps, k)
    ensures Undisturbed(states, steps, k - 1) && Recent(states[k - 1], steps[k - 1])
  {
    hide After, DataInTime, DataIsRecent;
    var s, step := states[k - 1], steps[k - 1];
    LogGrows(s, step);
    if AllShort(states[k].log) {
      assert forall i :: 0 <= i < |s.log| ==> s.log[i] == states[k].log[i];
      if step.DeliverData? { ShortIsRecent(s, step.i, step.j); }
    }
  }

  /** Every state of every undisturbed run satisfies the invariant. */
  lemma {:induction false} RunKeeps(states: seq<System>, steps: seq<Step>, k: nat) returns (ids: seq<nat>)
    requires Run(states, steps) && k < |states| && Undisturbed(states, steps, k)
    ensures Ok(states[k], ids)
  {
    hide Ok, After, Enabled, Undisturbed, Initial, Recent;
    if k == 0 {
      InitialOk(states[0]);
      ids := [];
    } else {
      UndisturbedBefore(states, steps, k);
      var before := RunKeeps(states, steps, k - 1);
      ids := StepKeeps(states[k - 1], before, steps[k - 1]);
    }
  }

  // ---------------------------------------------------------------- theorems

  /** At every point of every run the packets handed to the application are a prefix of the
      packets sent, byte for byte, in order, each once. */
  lemma DeliveredIsPrefixOfSent(states: seq<System>, steps: seq<Step>, k: nat)
    requires Run(states, steps) && k < |states| && Undisturbed(states, steps, k)
    ensures states[k].rx.delivered <= Bodies(states[k].log)
  {
    var ids := RunKeeps(states, steps, k);
  }

  /** If a sender has nothing queued or in flight on the channel, everything it was ever given
      has been delivered: no packet is dropped as acknowledged too early. */
  lemma NothingOutstandingMeansAllDelivered(states: seq<System>, steps: seq<Step>, k: nat)
    requires Run(states, steps) && k < |states| && Undisturbed(states, steps, k)
    requires var s := states[k];
             forall x :: (x in s.sender.queue || x in s.sender.sent) ==> x.channel != s.channel
    ensures states[k].rx.delivered == Bodies(states[k].log)
  {
    var s := states[k];
    var ids := RunKeeps(states, steps, k);
    NoneOfChannel(s.sender.queue, s.channel);
    NoneOfChannel(s.sender.sent, s.channel);
    if |s.rx.delivered| < |s.log| {
      var j := NextIsIncomplete(s, ids);
      assert Piece(s, |s.rx.delivered|, j);
      UsedGrows(s.log, |s.rx.delivered|, |s.log|);
      assert false;
    }
  }

  lemma {:induction false} NoneOfChannel(q: seq<S.OutCommand>, c: nat)
    requires forall x :: x in q ==> x.channel != c
    ensures S.Fresh(q, c) == [] && S.Attempted(q, c) == multiset{}
  {
    if q != [] {
      assert q[0] in q;
      assert forall x :: x in q[1..] ==> x in q;
      NoneOfChannel(q[1..], c);
    }
  }

  /** An acknowledged command has been stored or delivered, and so has one that the sender no
      longer keeps although it transmitted it. */
  lemma AcknowledgedIsHeld(states: seq<System>, steps: seq<Step>, k: nat, i: nat, j: nat) returns (ids: seq<nat>)
    requires Run(states, steps) && k < |states| && Piece(states[k], i, j) && Undisturbed(states, steps, k)
    requires var s, n := states[k], Number(states[k].log, i, j);
             n in s.acks || (n in s.data && n !in S.Outstanding(s.sender, s.channel))
    ensures Ok(states[k], ids) && Got(states[k].rx, ids, i, j)
  {
    ids := RunKeeps(states, steps, k);
  }

  /** Seven windows back from the newest number sent is never more than seven windows behind
      the receiver, and so never in the silent windows. */
  lemma OutstandingIsClose(n: nat, r: nat, newest: nat)
    requires n <= r <= newest && newest / WINDOW_SIZE <= n / WINDOW_SIZE + 6
    ensures r < n + 7 * WINDOW_SIZE && Acknowledges(Wire(n), Wire(r))
  {
    if n < r {
      BehindIsComplement(n, r);
    }
  }

  /** A delivered packet's commands meet a receiver that stays as it is. */
  lemma DeliveredIsTakenAgain(s: System, ids: seq<nat>, i: nat, j: nat, full: bool)
    requires Ok(s, ids) && Piece(s, i, j) && i < |s.rx.delivered|
    requires Number(s.log, i, j) <= Newest(s) && DataIsRecent(s, i)
    ensures Arrive(s, i, j, full) == R.Taken(s.rx)
  {
    LateIsRefused(s.log, s.rx, Newest(s), i, j);
    PieceFits(s.log[i].pieces, j);
    assert s.rx.delivered[i] == Bodies(s.log)[i];
    if |s.log[i].pieces| == 1 { SinglePiece(s.log[i].pieces); }
  }

  /** A retransmission of a command that is delivered but still unacknowledged is always in time;
      of a packet of up to 12289 fragments it does not disturb the receiver, and is acknowledged
      again. */
  lemma DeliveredIsReacknowledged(states: seq<System>, steps: seq<Step>, k: nat, i: nat, j: nat, full: bool)
    requires Run(states, steps) && k < |states| && Piece(states[k], i, j) && Undisturbed(states, steps, k)
    requires i < |states[k].rx.delivered|
    requires Number(states[k].log, i, j) in S.Outstanding(states[k].sender, states[k].channel)
    requires Number(states[k].log, i, j) in states[k].data
    ensures Enabled(states[k], DeliverData(i, j, full))
    ensures |states[k].log[i].pieces| <= 3 * WINDOW_SIZE + 1 ==>
              var s := states[k];
              After(s, DeliverData(i, j, full)) == s.(acks := s.acks + {Number(s.log, i, j)})
  {
    var ids := RunKeeps(states, steps, k);
    OutstandingIsInTime(states[k], ids, i, j);
    if |states[k].log[i].pieces| <= 3 * WINDOW_SIZE + 1 {
      ShortIsReacknowledged(states[k], ids, i, j, full);
    }
  }

  lemma OutstandingIsInTime(s: System, ids: seq<nat>, i: nat, j: nat)
    requires Ok(s, ids) && Piece(s, i, j) && Number(s.log, i, j) in S.Outstanding(s.sender, s.channel)
    ensures Position(s) / WINDOW_SIZE <= Number(s.log, i, j) / WINDOW_SIZE + 6
    ensures Position(s) <= Newest(s) && Newest(s) / WINDOW_SIZE <= Number(s.log, i, j) / WINDOW_SIZE + 6
  {
    DeliveredIsTransmitted(s, ids);
  }

  lemma ShortIsReacknowledged(s: System, ids: seq<nat>, i: nat, j: nat, full: bool)
    requires Ok(s, ids) && Piece(s, i, j) && i < |s.rx.delivered| && |s.log[i].pieces| <= 3 * WINDOW_SIZE + 1
    requires Number(s.log, i, j) in S.Outstanding(s.sender, s.channel) && Enabled(s, DeliverData(i, j, full))
    ensures After(s, DeliverData(i, j, full)) == s.(acks := s.acks + {Number(s.log, i, j)})
  {
    var n, r := Number(s.log, i, j), Position(s);
    ShortIsRecent(s, i, j);
    UsedGrows(s.log, i, |s.rx.delivered|);
    OutstandingIsInTime(s, ids, i, j);
    DeliveredIsTakenAgain(s, ids, i, j, full);
    OutstandingIsClose(n, r, Newest(s));
  }

  /** A message whose last number lies more than seven windows past the position at its turn is
      never delivered, in any run: of one of 32768 fragments or more that is always so. It is
      accepted, and blocks the channel. */
  lemma TooLongIsNeverDelivered(states: seq<System>, steps: seq<Step>, k: nat, i: nat)
    requires Run(states, steps) && k < |states| && i < |states[k].log| && Undisturbed(states, steps, k)
    requires !ReachesEnd(states[k].log, i)
    ensures |states[k].rx.delivered| <= i
  {
    var ids := RunKeeps(states, steps, k);
  }

  lemma VeryLongIsTooLong(log: seq<Message>, i: nat)
    requires i < |log| && |log[i].pieces| >= 8 * WINDOW_SIZE
    ensures !ReachesEnd(log, i)
  {
    assert Used(log, i + 1) >= Used(log, i) + 8 * WINDOW_SIZE;
  }

  /** With room for it, no command is refused. */
  lemma RoomMeansTaken(s: System, ids: seq<nat>, i: nat, j: nat)
    requires Ok(s, ids) && Enabled(s, DeliverData(i, j, false)) && DataIsRecent(s, i)
    requires |Joined(s.log[i].pieces)| <= s.maximum
    ensures Arrive(s, i, j, false).Taken?
  {
    if |s.log[i].pieces| == 1 {
      SinglePiece(s.log[i].pieces);
    } else {
        var _ := FragmentArrives(s.log, s.rx, ids, Newest(s), i, j, s.maximum, false);
    }
  }

  /** With room for it, an arriving command is held afterwards; or it is too far ahead, changes
      nothing and is not acknowledged. */
  lemma ArrivalIsHeldOrSilent(states: seq<System>, steps: seq<Step>, k: nat, i: nat, j: nat) returns (ids: seq<nat>)
    requires Run(states, steps) && k < |states| && Undisturbed(states, steps, k)
    requires Enabled(states[k], DeliverData(i, j, false)) && DataIsRecent(states[k], i)
    requires |Joined(states[k].log[i].pieces)| <= states[k].maximum
    ensures var s, s' := states[k], After(states[k], DeliverData(i, j, false));
            && Ok(s', ids)
            && (Got(s'.rx, ids, i, j) || (s' == s && !Accepts(Wire(Number(s.log, i, 0)), s.rx.position)))
  {
    var before := RunKeeps(states, steps, k);
    RoomMeansTaken(states[k], before, i, j);
    ids := DataKeeps(states[k], before, i, j, false);
  }

  /** The receiver is never ahead of what was transmitted. */
  lemma DeliveredIsTransmitted(s: System, ids: seq<nat>)
    requires Ok(s, ids)
    ensures Used(s.log, |s.rx.delivered|) <= Newest(s)
  {
    var d := |s.rx.delivered|;
    if d > 0 {
      var last := |s.log[d - 1].pieces| - 1;
      assert Piece(s, d - 1, last) && Got(s.rx, ids, d - 1, last);
    }
  }

  // ---------------------------------------------------------------- the sender alone

  /** What the sender's books need, whatever the receiver holds. */
  ghost predicate Sending(s: System) {
    && s.channel < |s.sender.channels| && S.Orderly(s.sender) && S.ChannelOk(s.sender, s.channel)
    && s.acks <= s.data && forall n :: n in s.data ==> n <= Newest(s)
  }

  lemma SubmitKeepsSending(s: System, message: Message, loads: seq<S.Load>)
    requires Sending(s) && Enabled(s, Submit(message, loads))
    ensures Sending(After(s, Submit(message, loads)))
  {
    hide S.Orderly, S.ChannelOk, S.Outstanding, EnqueueAll, S.Newest;
    EnqueueAllKeeps(s.sender, s.channel, loads);
  }

  lemma TransmitKeepsSending(s: System, now: nat, timeout: nat)
    requires Sending(s) && Enabled(s, Transmit(now, timeout))
    ensures Sending(After(s, Transmit(now, timeout)))
  {
    S.SendHeadKeeps(s.sender, now, timeout, s.channel);
    SendKeepsLast(s.sender, now, timeout, s.channel);
    var x := s.sender.queue[0];
    if x.channel == s.channel && x.attempts >= 1 {
      S.AttemptedMember(s.sender.queue, s.channel, 0);
      assert x.number in S.Outstanding(s.sender, s.channel);
    }
    hide S.Orderly, S.SendHead, S.Outstanding, S.Admits, S.Newest;
  }

  lemma AckKeepsSending(s: System, number: nat)
    requires Sending(s) && Enabled(s, DeliverAck(number))
    ensures Sending(After(s, DeliverAck(number)))
  {
    hide S.Orderly, S.ChannelOk, S.Outstanding, S.Acknowledge, S.Newest;
    S.AcknowledgeExact(s.sender, number, s.channel);
    AckKeepsLast(s.sender, Wire(number), s.channel);
  }

  lemma ElsewhereKeepsSending(s: System, step: Step)
    requires Sending(s) && Enabled(s, step) && ElsewhereOnly(step)
    ensures Sending(After(s, step))
  {
    hide S.ChannelOk, S.Outstanding, S.Acknowledge;
    ElsewhereSender(s, step);
  }

  lemma StepKeepsSending(s: System, step: Step)
    requires Sending(s) && Enabled(s, step)
    ensures Sending(After(s, step))
  {
    if ElsewhereOnly(step) {
      ElsewhereKeepsSending(s, step);
    } else {
      match step {
        case Submit(message, loads) => SubmitKeepsSending(s, message, loads);
        case Transmit(now, timeout) => TransmitKeepsSending(s, now, timeout);
        case DeliverAck(number) => AckKeepsSending(s, number);
        case _ =>
      }
    }
  }

  lemma {:induction false} RunKeepsSending(states: seq<System>, steps: seq<Step>, k: nat)
    requires Run(states, steps) && k < |states|
    ensures Sending(states[k])
  {
    hide Sending, After, Enabled, Initial;
    if k == 0 {
      InitialSending(states[0]);
    } else {
      RunKeepsSending(states, steps, k - 1);
      StepKeepsSending(states[k - 1], steps[k - 1]);
    }
  }

  lemma InitialSending(s: System)
    requires Initial(s)
    ensures Sending(s)
  {
    hide Ok;
    InitialOk(s);
    assert SenderOk(s) by { OkIsSenderOk(s, []); }
  }

  lemma OkIsSenderOk(s: System, ids: seq<nat>)
    requires Ok(s, ids)
    ensures SenderOk(s)
  {
  }

  /** In every state of every run the sender's window counters and bits tell what is outstanding,
      all of which lies in seven windows and shares no 16-bit number; and the data counted as in
      transit is what the commands in flight carry. */
  lemma WindowsAreExact(states: seq<System>, steps: seq<Step>, k: nat, a: nat, b: nat)
    requires Run(states, steps) && k < |states|
    ensures var s := states[k];
            && s.channel < |s.sender.channels| && s.sender.channels[s.channel].Shaped()
            && S.CountsMatch(s.sender.channels[s.channel], s.sender.queue, s.sender.sent, s.channel)
            && S.InSevenWindows(S.Outstanding(s.sender, s.channel), S.Newest(s.sender, s.channel))
            && (a in S.Outstanding(s.sender, s.channel) && b in S.Outstanding(s.sender, s.channel) && Wire(a) == Wire(b)
                ==> a == b)
            && s.sender.inTransit == S.TotalLength(s.sender.sent)
  {
    var s := states[k];
    RunKeepsSending(states, steps, k);
    if a in S.Outstanding(s.sender, s.channel) && b in S.Outstanding(s.sender, s.channel) && Wire(a) == Wire(b) {
      S.OutstandingDistinctOnWire(s.sender, s.channel, a, b);
    }
  }
}
