/** A reliable channel end to end: a sending peer, a network that may lose, duplicate and
    reorder, and a receiving peer, as a step system.

    The network is two growing sets: every data command and every acknowledgement that was
    ever transmitted can arrive any number of times, in any order, or never. Two staleness
    bounds limit how late: see DataInTime and AckIsRecent. */
module ReliableChannel {
  import opened Windows
  import S = ReliableSender
  import R = ReliableReceiver

  /** What the program accepts. */
  const MAXIMUM_FRAGMENTS: nat := 1024 * 1024

  /** A packet, cut into the pieces its commands carry: one piece travels as a whole packet,
      more as fragments. */
  datatype Message = Message(pieces: seq<seq<R.Byte>>)
  {
    predicate Sendable() {
      && 1 <= |pieces| <= MAXIMUM_FRAGMENTS
      && (|pieces| > 1 ==> forall j :: 0 <= j < |pieces| ==> |pieces[j]| > 0)
    }
  }

  function Joined(pieces: seq<seq<R.Byte>>): seq<R.Byte> {
    if pieces == [] then [] else Joined(pieces[..|pieces| - 1]) + pieces[|pieces| - 1]
  }

  function Bodies(log: seq<Message>): (r: seq<seq<R.Byte>>)
    ensures |r| == |log|
  {
    seq(|log|, i requires 0 <= i < |log| => Joined(log[i].pieces))
  }

  /** One load per piece, as long as the piece. */
  predicate Carry(loads: seq<S.Load>, message: Message) {
    && |loads| == |message.pieces|
    && forall j :: 0 <= j < |loads| ==> loads[j].packet && loads[j].length == |message.pieces[j]|
  }

  /** The sequence numbers the first `count` messages use up. */
  function Used(log: seq<Message>, count: nat): nat
    requires count <= |log|
  {
    if count == 0 then 0 else Used(log, count - 1) + |log[count - 1].pieces|
  }

  /** The true number of piece `j` of message `i`. */
  function Number(log: seq<Message>, i: nat, j: nat): nat
    requires i < |log|
  {
    Used(log, i) + 1 + j
  }

  /** `log` is everything submitted so far on channel `channel`; `data` and `acks` hold the
      true numbers of what has been transmitted. */
  datatype System = System(channel: nat, maximum: nat, log: seq<Message>, sender: S.Sender,
                           data: set<nat>, acks: set<nat>, rx: R.Receiver)

  // ---------------------------------------------------------------- steps

  function EnqueueAll(s: S.Sender, c: nat, loads: seq<S.Load>): (s': S.Sender)
    requires c < |s.channels| && forall j :: 0 <= j < |loads| ==> loads[j].packet
    ensures |s'.channels| == |s.channels|
    decreases loads
  {
    if loads == [] then s else EnqueueAll(S.Enqueue(s, c, loads[0]), c, loads[1..])
  }

  /** The command that carries piece `j` of message `i`, as the receiver handles it. */
  function Arrive(s: System, i: nat, j: nat, full: bool): R.Outcome
    requires i < |s.log| && j < |s.log[i].pieces|
  {
    var pieces := s.log[i].pieces;
    if |pieces| == 1
    then R.ReceivePacket(s.rx, Wire(Number(s.log, i, 0)), pieces[0], s.maximum, full)
    else R.ReceiveFragment(s.rx, FragmentOf(s.log, i, j), s.maximum, full)
  }

  function FragmentOf(log: seq<Message>, i: nat, j: nat): R.Fragment
    requires i < |log| && j < |log[i].pieces|
  {
    var pieces := log[i].pieces;
    R.Fragment(Wire(Number(log, i, 0)), |pieces|, j, |Joined(pieces)|, |Joined(pieces[..j])|, pieces[j])
  }

  /** The true number up to which the receiver has dispatched. */
  function Position(s: System): nat
    requires |s.rx.delivered| <= |s.log|
  {
    Used(s.log, |s.rx.delivered|)
  }

  /** Counted from the first command of its packet, a data command is less than ten windows late. */
  predicate DataIsRecent(s: System, i: nat)
    requires |s.rx.delivered| <= |s.log| && i < |s.log|
  {
    Position(s) / WINDOW_SIZE <= Number(s.log, i, 0) / WINDOW_SIZE + 9
  }

  /** No data command arrives more than six windows late, or, if the count is from the first
      command of its packet, more than nine. What the sender itself sends again meets this. */
  predicate DataInTime(s: System, i: nat, j: nat)
    requires |s.rx.delivered| <= |s.log| && i < |s.log|
  {
    Position(s) / WINDOW_SIZE <= Number(s.log, i, j) / WINDOW_SIZE + 6 || DataIsRecent(s, i)
  }

  /** No acknowledgement arrives 65536 or more numbers behind the newest number sent. */
  predicate AckIsRecent(s: System, number: nat)
    requires s.channel < |s.sender.channels|
  {
    S.Newest(s.sender, s.channel) < number + MODULUS
  }

  datatype Step =
    | Submit(message: Message, loads: seq<S.Load>)
    | SubmitElsewhere(other: nat, load: S.Load)
    | SubmitControl(load: S.Load)
    | SubmitUnreliable(command: S.OutCommand)
    | Transmit(now: nat, timeout: nat)
    | TransmitOther(now: nat, timeout: nat)
    | TimeOut(expired: S.OutCommand -> bool, backoff: nat)
    | DeliverData(i: nat, j: nat, full: bool)
    | DeliverAck(number: nat)
    | DeliverAckElsewhere(other: nat, stored: Word16)

  predicate Enabled(s: System, step: Step) {
    && s.channel < |s.sender.channels| && S.Shaped(s.sender) && |s.rx.delivered| <= |s.log|
    && match step
       case Submit(message, loads) => message.Sendable() && Carry(loads, message)
       case SubmitElsewhere(other, load) => other < |s.sender.channels| && other != s.channel && load.packet
       case Transmit(_, _) => |s.sender.queue| > 0 && S.Admits(s.sender, s.sender.queue[0])
       case SubmitControl(load) => !load.packet && load.length == 0
       case SubmitUnreliable(x) => !x.reliable && x.attempts == 0
       case TransmitOther(_, _) => |s.sender.others| > 0
       case TimeOut(_, _) => true
       case DeliverData(i, j, _) =>
         i < |s.log| && j < |s.log[i].pieces| && Number(s.log, i, j) in s.data && DataInTime(s, i, j)
       case DeliverAck(number) => number in s.acks && AckIsRecent(s, number)
       case DeliverAckElsewhere(other, _) => other != s.channel
  }

  /** One step. A data arrival that the handler accepts is acknowledged, unless its own number
      falls into the silent windows of the position the receiver has reached by then. */
  function After(s: System, step: Step): System
    requires Enabled(s, step)
  {
    match step
    case Submit(message, loads) =>
      s.(log := s.log + [message], sender := EnqueueAll(s.sender, s.channel, loads))
    case SubmitElsewhere(other, load) => s.(sender := S.Enqueue(s.sender, other, load))
    case SubmitControl(load) => s.(sender := S.EnqueueControl(s.sender, load))
    case SubmitUnreliable(x) => s.(sender := S.EnqueueUnreliable(s.sender, x))
    case TransmitOther(now, timeout) => s.(sender := S.SendOther(s.sender, now, timeout))
    case Transmit(now, timeout) =>
      var x := s.sender.queue[0];
      s.(sender := S.SendHead(s.sender, now, timeout),
         data := if x.channel == s.channel then s.data + {x.number} else s.data)
    case TimeOut(expired, backoff) => s.(sender := S.Requeue(s.sender, expired, backoff))
    case DeliverData(i, j, full) =>
      var outcome := Arrive(s, i, j, full);
      if outcome.Refused? then s
      else
        var number := Number(s.log, i, j);
        s.(rx := outcome.rx,
           acks := if Acknowledges(Wire(number), outcome.rx.position) then s.acks + {number} else s.acks)
    case DeliverAck(number) => s.(sender := S.Acknowledge(s.sender, Wire(number), s.channel))
    case DeliverAckElsewhere(other, stored) => s.(sender := S.Acknowledge(s.sender, stored, other))
  }

  predicate Initial(s: System) {
    && s.channel < |s.sender.channels| <= S.CONTROL
    && (forall c :: 0 <= c < |s.sender.channels| ==>
          s.sender.channels[c] == S.Channel(0, seq(WINDOWS, _ => 0), seq(WINDOWS, _ => false)))
    && s.sender.queue == [] && s.sender.others == [] && s.sender.sent == [] && s.sender.inTransit == 0
    && s.log == [] && s.data == {} && s.acks == {}
    && s.rx == R.Receiver(0, [], [])
  }

  /** `states` is a run driven by `steps`. */
  ghost predicate Run(states: seq<System>, steps: seq<Step>) {
    && |states| == |steps| + 1
    && Initial(states[0])
    && forall k :: 0 <= k < |steps| ==> Enabled(states[k], steps[k]) && states[k + 1] == After(states[k], steps[k])
  }

  // ---------------------------------------------------------------- undisturbed runs

  predicate Recent(s: System, step: Step)
    requires Enabled(s, step)
  {
    step.DeliverData? ==> DataIsRecent(s, step.i)
  }

  ghost predicate AllRecent(states: seq<System>, steps: seq<Step>, k: nat)
    requires Run(states, steps)
  {
    forall n :: 0 <= n < k && n < |steps| ==> Recent(states[n], steps[n])
  }

  /** No packet has more than 12289 fragments: so none reaches more than three windows past the
      window it begins in. */
  predicate AllShort(log: seq<Message>) {
    forall i :: 0 <= i < |log| ==> |log[i].pieces| <= 3 * WINDOW_SIZE + 1
  }

  /** Up to state `k` the packets submitted are short, or every data command that arrived was
      recent. Either is enough for all laws; ReliableMistaken shows what happens otherwise. */
  ghost predicate Undisturbed(states: seq<System>, steps: seq<Step>, k: nat)
    requires Run(states, steps) && k < |states|
  {
    AllShort(states[k].log) || AllRecent(states, steps, k)
  }
}
