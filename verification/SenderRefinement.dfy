/** The peer's loops are runs of the channel's step system. */
module SenderRefinement {
  import S = ReliableSender
  import P = SendingPeer
  import opened ReliableChannel

  /** `steps`, each enabled in turn, lead from `s` to `s'`. */
  ghost predicate Leads(s: System, steps: seq<Step>, s': System)
    decreases |steps|
  {
    if steps == [] then s == s'
    else Enabled(s, steps[0]) && Leads(After(s, steps[0]), steps[1..], s')
  }

  /** What enet_protocol_check_outgoing_commands does to the sender, the step system can do. */
  lemma {:induction false} PlaysAreSteps(s: System, sender': S.Sender, moves: seq<P.Move>, now: nat, timeout: nat)
      returns (steps: seq<Step>, s': System)
    requires s.channel < |s.sender.channels| && S.Shaped(s.sender) && |s.rx.delivered| <= |s.log|
    requires P.Plays(s.sender, sender', moves, now, timeout)
    ensures Leads(s, steps, s') && s'.sender == sender' && s'.log == s.log && s'.rx == s.rx && s'.acks == s.acks
    ensures s.data <= s'.data && |steps| == |moves|
    decreases |moves|
  {
    if moves == [] {
      steps, s' := [], s;
    } else {
      var first := if moves[0].FromQueue? then Transmit(now, timeout) else TransmitOther(now, timeout);
      var rest;
      rest, s' := PlaysAreSteps(After(s, first), sender', moves[1..], now, timeout);
      steps := [first] + rest;
    }
  }

  /** So can what a timeout check that keeps the connection and an acknowledgement do. */
  lemma TimeoutAndAckAreSteps(s: System, expired: S.OutCommand -> bool, backoff: nat, number: nat)
    requires s.channel < |s.sender.channels| && S.Shaped(s.sender) && |s.rx.delivered| <= |s.log|
    ensures Leads(s, [TimeOut(expired, backoff)], s.(sender := S.Requeue(s.sender, expired, backoff)))
    ensures number in s.acks && AckIsRecent(s, number) ==>
              Leads(s, [DeliverAck(number)], After(s, DeliverAck(number)))
  {
    hide After, S.Requeue, S.Acknowledge;
    LeadsOne(s, TimeOut(expired, backoff));
    assert After(s, TimeOut(expired, backoff))
           == s.(sender := S.Requeue(s.sender, expired, backoff)) by { TimeOutIs(s, expired, backoff); }
    if number in s.acks && AckIsRecent(s, number) {
      LeadsOne(s, DeliverAck(number));
    }
  }

  lemma TimeOutIs(s: System, expired: S.OutCommand -> bool, backoff: nat)
    requires Enabled(s, TimeOut(expired, backoff))
    ensures After(s, TimeOut(expired, backoff)) == s.(sender := S.Requeue(s.sender, expired, backoff))
  {
    hide S.Requeue;
  }

  lemma LeadsOne(s: System, step: Step)
    requires Enabled(s, step)
    ensures Leads(s, [step], After(s, step))
  {
    hide After;
    assert [step][1..] == [];
  }

  /** A run may be continued by such steps, so every theorem about runs covers the loops. */
  lemma {:induction false} RunContinues(states: seq<System>, steps: seq<Step>, more: seq<Step>, s': System)
      returns (states': seq<System>)
    requires Run(states, steps) && Leads(states[|steps|], more, s')
    ensures Run(states', steps + more) && states'[|steps + more|] == s'
    decreases |more|
  {
    if more == [] {
      states' := states;
      assert steps + more == steps;
    } else {
      var next := After(states[|steps|], more[0]);
      assert steps + [more[0]] + more[1..] == steps + more;
      states' := RunContinues(states + [next], steps + [more[0]], more[1..], s');
    }
  }
}
