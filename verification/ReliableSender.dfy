/** The sending half of one peer: the queue of reliable packets that wait, the queue of all
    other commands, the list of reliable commands in flight, and the window bookkeeping of
    each channel.

    The functions here are the specification; class Peer in SendingPeer.dfy is the imperative
    code, proved against them. */
module ReliableSender {
  import opened Windows

  /** The channel of commands that steer the connection and carry no packet. */
  const CONTROL: nat := 255

  /** What a command carries: its kind, the packet it holds, by its number, and the part of it, and
      what decides how it is sent. */
  datatype Load = Load(kind: nat, packet: bool, id: nat, length: nat, offset: nat, unreliable: Word16,
      unthrottled: bool,
                       queueTime: nat)

  /** A queued command. The program stores `stored`; `number` is a history variable, the true
      number behind it. A command that is not `reliable` asks for no acknowledgement. */
  datatype OutCommand = OutCommand(channel: nat, stored: Word16, number: nat, reliable: bool,
                                   attempts: nat, sentTime: nat, timeout: nat, load: Load)
  {
    /** The bytes of the packet that travel with the command. */
    function Length(): nat { load.length }

    predicate HasPacket() { load.packet }

    function WindowIndex(): (w: nat)
      ensures w < WINDOWS
    {
      WindowOf(stored)
    }

    predicate EntersWindow() { attempts < 1 && stored % WINDOW_SIZE == 0 }

    /** Sent at least once on channel `c`. */
    predicate AttemptedOn(c: nat) { channel == c && attempts >= 1 }

    predicate Matches(wanted: Word16, c: nat) { stored == wanted && channel == c }
  }

  /** Per channel: the last number given out, and how many attempted commands each of the
      sixteen windows still waits for. */
  datatype Channel = Channel(last: nat, counts: seq<nat>, used: seq<bool>)
  {
    predicate Shaped() { |counts| == WINDOWS && |used| == WINDOWS }
  }

  /** `queue` is outgoingSendReliableCommands, `others` is outgoingCommands and `sent` is
      sentReliableCommands. */
  datatype Sender = Sender(channels: seq<Channel>, lastControl: nat, queue: seq<OutCommand>, others: seq<OutCommand>,
                           sent: seq<OutCommand>, inTransit: int)

  // ---------------------------------------------------------------- operations

  predicate Shaped(s: Sender) { forall i :: 0 <= i < |s.channels| ==> s.channels[i].Shaped() }

  /** A reliable packet command joins the tail of the queue with the next number of its channel. */
  function Enqueue(s: Sender, c: nat, load: Load): Sender
    requires c < |s.channels| && load.packet
  {
    var number := s.channels[c].last + 1;
    s.(channels := s.channels[c := s.channels[c].(last := number)],
       queue := s.queue + [OutCommand(c, Wire(number), number, true, 0, 0, 0, load)])
  }

  /** A control command joins the tail of the other queue with the next control number. */
  function EnqueueControl(s: Sender, load: Load): Sender
    requires !load.packet && load.length == 0
  {
    var number := s.lastControl + 1;
    s.(lastControl := number,
       others := s.others + [OutCommand(CONTROL, Wire(number), number, true, 0, 0, 0, load)])
  }

  /** So does a command that is never acknowledged. */
  function EnqueueUnreliable(s: Sender, x: OutCommand): Sender {
    s.(others := s.others + [x])
  }

  /** May the window be entered? Asked of the first transmission of a window's first number. */
  predicate MayEnter(channel: Channel, window: nat)
    requires channel.Shaped() && window < WINDOWS
  {
    && channel.counts[Before(window, 1)] < WINDOW_SIZE
    && forall v :: 0 <= v < WINDOWS && InEntryMask(window, v) ==> !channel.used[v]
  }

  predicate Admits(s: Sender, x: OutCommand)
    requires Shaped(s)
  {
    x.channel < |s.channels| && x.EntersWindow() ==> MayEnter(s.channels[x.channel], x.WindowIndex())
  }

  function CountFirstSend(channel: Channel, window: nat): Channel
    requires channel.Shaped() && window < WINDOWS
  {
    channel.(counts := channel.counts[window := channel.counts[window] + 1],
             used := channel.used[window := true])
  }

  /** A first transmission is counted in its window. */
  function Counted(channels: seq<Channel>, x: OutCommand): (r: seq<Channel>)
    requires forall i :: 0 <= i < |channels| ==> channels[i].Shaped()
    ensures |r| == |channels| && forall i :: 0 <= i < |r| ==> r[i].Shaped()
  {
    if x.channel < |channels| && x.attempts < 1
    then channels[x.channel := CountFirstSend(channels[x.channel], x.WindowIndex())]
    else channels
  }

  function Transmitted(x: OutCommand, now: nat, timeout: nat): OutCommand {
    x.(attempts := x.attempts + 1, sentTime := now, timeout := if x.timeout == 0 then timeout else x.timeout)
  }

  /** The head of the queue goes out and moves to the tail of the in-flight list. */
  function SendHead(s: Sender, now: nat, timeout: nat): Sender
    requires Shaped(s) && |s.queue| > 0
  {
    var x := s.queue[0];
    s.(channels := Counted(s.channels, x), queue := s.queue[1..], sent := s.sent + [Transmitted(x, now, timeout)],
       inTransit := s.inTransit + x.Length())
  }

  /** The head of the other queue goes out; it is kept only if it wants an acknowledgement. */
  function SendOther(s: Sender, now: nat, timeout: nat): Sender
    requires |s.others| > 0
  {
    var x := s.others[0];
    if x.reliable
    then s.(others := s.others[1..], sent := s.sent + [Transmitted(x, now, timeout)],
        inTransit := s.inTransit + x.Length())
    else s.(others := s.others[1..])
  }

  /** The in-flight commands with, or without, a packet that `expired` picks, in order. */
  function Picked(sent: seq<OutCommand>, expired: OutCommand -> bool, packet: bool): seq<OutCommand> {
    if sent == [] then []
    else if expired(sent[0]) && sent[0].HasPacket() == packet then [sent[0]] + Picked(sent[1..], expired, packet)
    else Picked(sent[1..], expired, packet)
  }

  /** The in-flight commands `expired` leaves alone. */
  function Kept(sent: seq<OutCommand>, expired: OutCommand -> bool): seq<OutCommand> {
    if sent == [] then []
    else if expired(sent[0]) then Kept(sent[1..], expired)
    else [sent[0]] + Kept(sent[1..], expired)
  }

  function Retimed(q: seq<OutCommand>, timeout: nat): (r: seq<OutCommand>)
    ensures |r| == |q|
  {
    seq(|q|, i requires 0 <= i < |q| => q[i].(timeout := timeout))
  }

  function TotalLength(q: seq<OutCommand>): nat {
    if q == [] then 0 else q[0].Length() + TotalLength(q[1..])
  }

  /** Timed-out commands go back to the front of their queue, keeping their order. */
  function Requeue(s: Sender, expired: OutCommand -> bool, timeout: nat): Sender {
    var back := Picked(s.sent, expired, true);
    s.(queue := Retimed(back, timeout) + s.queue,
       others := Retimed(Picked(s.sent, expired, false), timeout) + s.others,
       sent := Kept(s.sent, expired),
       inTransit := s.inTransit - TotalLength(back))
  }

  /** First match in the in-flight list, or |sent|. */
  function FindSent(sent: seq<OutCommand>, stored: Word16, c: nat): (i: nat)
    ensures i <= |sent|
    ensures i < |sent| ==> sent[i].Matches(stored, c)
    ensures forall j :: 0 <= j < i ==> !sent[j].Matches(stored, c)
  {
    if sent == [] then 0
    else if sent[0].Matches(stored, c) then 0
    else 1 + FindSent(sent[1..], stored, c)
  }

  /** First match among the reliable commands of a waiting queue, giving up at the first of
      them that was never sent. */
  function FindQueued(queue: seq<OutCommand>, stored: Word16, c: nat): (i: nat)
    ensures i <= |queue|
    ensures i < |queue| ==> queue[i].Matches(stored, c) && queue[i].reliable && queue[i].attempts >= 1
  {
    if queue == [] || (queue[0].reliable && queue[0].attempts < 1) then |queue|
    else if queue[0].reliable && queue[0].Matches(stored, c) then 0
    else 1 + FindQueued(queue[1..], stored, c)
  }

  function CountAck(channel: Channel, window: nat): Channel
    requires channel.Shaped() && window < WINDOWS
  {
    if channel.counts[window] == 0 then channel
    else
      var left := channel.counts[window] - 1;
      channel.(counts := channel.counts[window := left],
               used := if left == 0 then channel.used[window := false] else channel.used)
  }

  function Without(q: seq<OutCommand>, i: nat): seq<OutCommand>
    requires i < |q|
  {
    q[..i] + q[i + 1..]
  }

  function Settled(channels: seq<Channel>, stored: Word16, c: nat): (r: seq<Channel>)
    requires forall i :: 0 <= i < |channels| ==> channels[i].Shaped()
    ensures |r| == |channels| && forall i :: 0 <= i < |r| ==> r[i].Shaped()
  {
    if c < |channels| then channels[c := CountAck(channels[c], WindowOf(stored))] else channels
  }

  function TakeSent(s: Sender, i: nat): Sender
    requires Shaped(s) && i < |s.sent|
  {
    var x := s.sent[i];
    s.(channels := Settled(s.channels, x.stored, x.channel), sent := Without(s.sent, i),
       inTransit := if x.HasPacket() then s.inTransit - x.Length() else s.inTransit)
  }

  function TakeOther(s: Sender, i: nat): Sender
    requires Shaped(s) && i < |s.others|
  {
    s.(channels := Settled(s.channels, s.others[i].stored, s.others[i].channel), others := Without(s.others, i))
  }

  function TakeQueued(s: Sender, i: nat): Sender
    requires Shaped(s) && i < |s.queue|
  {
    var x := s.queue[i];
    s.(channels := Settled(s.channels, x.stored, x.channel), queue := Without(s.queue, i))
  }

  /** An acknowledgement of `stored` on channel `c` arrives. */
  function Acknowledge(s: Sender, stored: Word16, c: nat): Sender
    requires Shaped(s)
  {
    var i := FindSent(s.sent, stored, c);
    if i < |s.sent| then TakeSent(s, i)
    else
      var k := FindQueued(s.others, stored, c);
      if k < |s.others| then TakeOther(s, k)
      else
        var j := FindQueued(s.queue, stored, c);
        if j < |s.queue| then TakeQueued(s, j) else s
  }

  // ---------------------------------------------------------------- invariant

  /** Numbers of channel `c` sent at least once, with multiplicity. */
  function Attempted(q: seq<OutCommand>, c: nat): multiset<nat> {
    if q == [] then multiset{}
    else if q[0].AttemptedOn(c) then multiset{q[0].number} + Attempted(q[1..], c)
    else Attempted(q[1..], c)
  }

  /** Numbers of channel `c` never sent so far, in queue order. */
  function Fresh(q: seq<OutCommand>, c: nat): seq<nat> {
    if q == [] then []
    else if q[0].channel == c && q[0].attempts < 1 then [q[0].number] + Fresh(q[1..], c)
    else Fresh(q[1..], c)
  }

  /** How many attempted commands of channel `c` fall into `window`. */
  function InWindow(q: seq<OutCommand>, c: nat, window: nat): nat {
    if q == [] then 0
    else (if q[0].AttemptedOn(c) && q[0].WindowIndex() == window then 1 else 0) + InWindow(q[1..], c, window)
  }

  /** What channel `c` has sent and not seen acknowledged. */
  function Outstanding(s: Sender, c: nat): multiset<nat> {
    Attempted(s.queue, c) + Attempted(s.sent, c)
  }

  /** The newest number of channel `c` that has been sent at all. */
  function Newest(s: Sender, c: nat): int
    requires c < |s.channels|
  {
    s.channels[c].last - |Fresh(s.queue, c)|
  }

  function Upward(from: nat, count: nat): (r: seq<nat>)
    ensures |r| == count
  {
    seq(count, i requires 0 <= i < count => from + i)
  }

  /** Among the reliable commands of a queue, those sent before stand before those that never were. */
  predicate AttemptedFirst(queue: seq<OutCommand>) {
    forall i, j :: 0 <= i < j < |queue| && queue[i].reliable && queue[j].reliable ==>
      (queue[j].attempts >= 1 ==> queue[i].attempts >= 1)
  }

  predicate AllAttempted(sent: seq<OutCommand>) { forall i :: 0 <= i < |sent| ==> sent[i].attempts >= 1 }

  /** At most seven consecutive windows, ending with the window of `newest`, hold the numbers. */
  ghost predicate InSevenWindows(numbers: multiset<nat>, newest: int) {
    forall n :: n in numbers ==>
      1 <= n <= newest && newest / WINDOW_SIZE - 6 <= n / WINDOW_SIZE && numbers[n] == 1
  }

  predicate CountsMatch(channel: Channel, queue: seq<OutCommand>, sent: seq<OutCommand>, c: nat)
    requires channel.Shaped()
  {
    forall w :: 0 <= w < WINDOWS ==>
      channel.counts[w] == InWindow(queue, c, w) + InWindow(sent, c, w) && channel.used[w] == (channel.counts[w] > 0)
  }

  /** The stored numbers are the true ones modulo 2^16. */
  predicate Numbered(q: seq<OutCommand>) { forall i :: 0 <= i < |q| ==> q[i].stored == Wire(q[i].number) }

  /** What has no packet travels on the control channel, which has no windows. */
  predicate WellKinded(q: seq<OutCommand>) {
    forall i :: 0 <= i < |q| ==> (q[i].reliable && !q[i].HasPacket() ==> q[i].channel == CONTROL && q[i].Length() == 0)
  }

  ghost predicate Orderly(s: Sender) {
    && |s.channels| <= CONTROL
    && Shaped(s) && Numbered(s.queue) && Numbered(s.sent)
    && WellKinded(s.others) && WellKinded(s.sent)
    && (forall i :: 0 <= i < |s.others| ==>
          if s.others[i].reliable then !s.others[i].HasPacket() && s.others[i].stored == Wire(s.others[i].number)
          else s.others[i].attempts == 0)
    && (forall i :: 0 <= i < |s.queue| ==> s.queue[i].reliable && s.queue[i].HasPacket())
    && (forall i :: 0 <= i < |s.sent| ==> s.sent[i].reliable)
    && AttemptedFirst(s.queue) && AttemptedFirst(s.others) && AllAttempted(s.sent)
    && s.inTransit == TotalLength(s.sent)
  }

  /** The sender invariant, as seen by channel `c`. */
  ghost predicate ChannelOk(s: Sender, c: nat)
    requires c < |s.channels| && Shaped(s)
  {
    && 0 <= Newest(s, c)
    && Fresh(s.queue, c) == Upward(Newest(s, c) + 1, |Fresh(s.queue, c)|)
    && InSevenWindows(Outstanding(s, c), Newest(s, c))
    && CountsMatch(s.channels[c], s.queue, s.sent, c)
  }

  // ---------------------------------------------------------------- list facts

  lemma {:induction false} AttemptedConcat(a: seq<OutCommand>, b: seq<OutCommand>, c: nat)
    ensures Attempted(a + b, c) == Attempted(a, c) + Attempted(b, c)
  {
    if a == [] {
      assert a + b == b;
    } else {
      AttemptedConcat(a[1..], b, c);
      assert (a + b)[1..] == a[1..] + b;
    }
  }

  lemma {:induction false} FreshConcat(a: seq<OutCommand>, b: seq<OutCommand>, c: nat)
    ensures Fresh(a + b, c) == Fresh(a, c) + Fresh(b, c)
  {
    if a == [] {
      assert a + b == b;
    } else {
      FreshConcat(a[1..], b, c);
      assert (a + b)[0] == a[0] && (a + b)[1..] == a[1..] + b;
      var rest := Fresh(a[1..], c);
      if a[0].channel == c && a[0].attempts < 1 {
        assert [a[0].number] + (rest + Fresh(b, c)) == ([a[0].number] + rest) + Fresh(b, c);
      }
    }
  }

  lemma {:induction false} InWindowConcat(a: seq<OutCommand>, b: seq<OutCommand>, c: nat, w: nat)
    ensures InWindow(a + b, c, w) == InWindow(a, c, w) + InWindow(b, c, w)
  {
    if a == [] {
      assert a + b == b;
    } else {
      InWindowConcat(a[1..], b, c, w);
      assert (a + b)[1..] == a[1..] + b;
    }
  }

  lemma {:induction false} TotalLengthConcat(a: seq<OutCommand>, b: seq<OutCommand>)
    ensures TotalLength(a + b) == TotalLength(a) + TotalLength(b)
  {
    if a == [] {
      assert a + b == b;
    } else {
      TotalLengthConcat(a[1..], b);
      assert (a + b)[1..] == a[1..] + b;
    }
  }

  lemma FactsConcat(a: seq<OutCommand>, b: seq<OutCommand>, c: nat)
    ensures Attempted(a + b, c) == Attempted(a, c) + Attempted(b, c)
    ensures Fresh(a + b, c) == Fresh(a, c) + Fresh(b, c)
    ensures forall w :: InWindow(a + b, c, w) == InWindow(a, c, w) + InWindow(b, c, w)
    ensures TotalLength(a + b) == TotalLength(a) + TotalLength(b)
  {
    AttemptedConcat(a, b, c);
    FreshConcat(a, b, c);
    TotalLengthConcat(a, b);
    forall w { InWindowConcat(a, b, c, w); }
  }

  lemma FactsSingle(x: OutCommand, c: nat)
    ensures Attempted([x], c) == if x.AttemptedOn(c) then multiset{x.number} else multiset{}
    ensures Fresh([x], c) == if x.channel == c && x.attempts < 1 then [x.number] else []
    ensures forall w :: InWindow([x], c, w) == if x.AttemptedOn(c) && x.WindowIndex() == w then 1 else 0
    ensures TotalLength([x]) == x.Length()
  {
    assert [x][1..] == [];
  }

  lemma FactsSplit(q: seq<OutCommand>, i: nat, c: nat)
    requires i < |q|
    ensures Attempted(q, c) == Attempted(Without(q, i), c) + Attempted([q[i]], c)
    ensures q[i].attempts >= 1 ==> Fresh(q, c) == Fresh(Without(q, i), c)
    ensures forall w :: InWindow(q, c, w) == InWindow(Without(q, i), c, w) + InWindow([q[i]], c, w)
    ensures TotalLength(q) == TotalLength(Without(q, i)) + q[i].Length()
  {
    assert q == (q[..i] + [q[i]]) + q[i + 1..];
    FactsConcat(q[..i] + [q[i]], q[i + 1..], c);
    FactsConcat(q[..i], [q[i]], c);
    FactsConcat(q[..i], q[i + 1..], c);
    FactsSingle(q[i], c);
  }

  /** Commands without a packet are nothing to a channel with windows. */
  lemma {:induction false} AttemptedPicked(sent: seq<OutCommand>, expired: OutCommand -> bool, c: nat)
    requires WellKinded(sent) && c != CONTROL && (forall i :: 0 <= i < |sent| ==> sent[i].reliable)
    ensures Attempted(sent, c) == Attempted(Picked(sent, expired, true), c) + Attempted(Kept(sent, expired), c)
  {
    if sent != [] {
      AttemptedPicked(sent[1..], expired, c);
      AttemptedConcat([sent[0]], Picked(sent[1..], expired, true), c);
      AttemptedConcat([sent[0]], Kept(sent[1..], expired), c);
      FactsSingle(sent[0], c);
    }
  }

  lemma {:induction false} InWindowPicked(sent: seq<OutCommand>, expired: OutCommand -> bool, c: nat, w: nat)
    requires WellKinded(sent) && c != CONTROL && (forall i :: 0 <= i < |sent| ==> sent[i].reliable)
    ensures InWindow(sent, c, w) == InWindow(Picked(sent, expired, true), c, w) + InWindow(Kept(sent, expired), c, w)
  {
    if sent != [] {
      InWindowPicked(sent[1..], expired, c, w);
      InWindowConcat([sent[0]], Picked(sent[1..], expired, true), c, w);
      InWindowConcat([sent[0]], Kept(sent[1..], expired), c, w);
      FactsSingle(sent[0], c);
    }
  }

  lemma {:induction false} TotalLengthPicked(sent: seq<OutCommand>, expired: OutCommand -> bool)
    requires WellKinded(sent) && (forall i :: 0 <= i < |sent| ==> sent[i].reliable)
    ensures TotalLength(sent) == TotalLength(Picked(sent, expired, true)) + TotalLength(Kept(sent, expired))
  {
    if sent != [] {
      TotalLengthPicked(sent[1..], expired);
      TotalLengthConcat([sent[0]], Picked(sent[1..], expired, true));
      TotalLengthConcat([sent[0]], Kept(sent[1..], expired));
    }
  }

  predicate FlightShape(q: seq<OutCommand>) {
    AllAttempted(q) && Numbered(q) && WellKinded(q) && forall i :: 0 <= i < |q| ==> q[i].reliable
  }

  lemma {:induction false} ShapePicked(sent: seq<OutCommand>, expired: OutCommand -> bool, packet: bool)
    requires FlightShape(sent)
    ensures FlightShape(Picked(sent, expired, packet))
    ensures forall i ::
            0 <= i < |Picked(sent, expired, packet)| ==> Picked(sent, expired, packet)[i].HasPacket() == packet
    ensures FlightShape(Kept(sent, expired))
  {
    if sent != [] {
      ShapePicked(sent[1..], expired, packet);
    }
  }

  lemma {:induction false} FactsRetimed(q: seq<OutCommand>, timeout: nat, c: nat)
    ensures Attempted(Retimed(q, timeout), c) == Attempted(q, c)
    ensures Fresh(Retimed(q, timeout), c) == Fresh(q, c)
    ensures forall w :: InWindow(Retimed(q, timeout), c, w) == InWindow(q, c, w)
  {
    if q != [] {
      FactsRetimed(q[1..], timeout, c);
      assert Retimed(q, timeout)[1..] == Retimed(q[1..], timeout);
    }
  }

  lemma {:induction false} NoFresh(q: seq<OutCommand>, c: nat)
    requires AllAttempted(q)
    ensures Fresh(q, c) == []
  {
    if q != [] {
      NoFresh(q[1..], c);
    }
  }

  lemma {:induction false} AttemptedWitness(q: seq<OutCommand>, c: nat, n: nat) returns (i: nat)
    requires n in Attempted(q, c)
    ensures i < |q| && q[i].AttemptedOn(c) && q[i].number == n
  {
    if q[0].AttemptedOn(c) && q[0].number == n {
      i := 0;
    } else {
      var j := AttemptedWitness(q[1..], c, n);
      i := j + 1;
    }
  }

  lemma {:induction false} AttemptedMember(q: seq<OutCommand>, c: nat, i: nat)
    requires i < |q| && q[i].AttemptedOn(c)
    ensures q[i].number in Attempted(q, c)
    ensures InWindow(q, c, q[i].WindowIndex()) > 0
  {
    if i > 0 {
      AttemptedMember(q[1..], c, i - 1);
    }
  }

  /** Anything outstanding keeps the counter of its window above zero. */
  lemma OutstandingCounted(s: Sender, c: nat, n: nat)
    requires Orderly(s)
    requires n in Outstanding(s, c)
    ensures InWindow(s.queue, c, WindowOf(Wire(n))) + InWindow(s.sent, c, WindowOf(Wire(n))) > 0
  {
    if n in Attempted(s.queue, c) {
      var i := AttemptedWitness(s.queue, c, n);
      AttemptedMember(s.queue, c, i);
    } else {
      assert n in Attempted(s.sent, c);
      var i := AttemptedWitness(s.sent, c, n);
      AttemptedMember(s.sent, c, i);
    }
  }

  // ---------------------------------------------------------------- preservation

  lemma EnqueueOrderly(s: Sender, d: nat, load: Load)
    requires load.packet && Orderly(s) && d < |s.channels|
    ensures Orderly(Enqueue(s, d, load))
  {
  }

  lemma EnqueueNumbers(s: Sender, d: nat, load: Load, c: nat)
    requires load.packet && d < |s.channels| && c < |s.channels|
    ensures var s' := Enqueue(s, d, load);
            && Outstanding(s', c) == Outstanding(s, c)
            && Fresh(s'.queue, c) == Fresh(s.queue, c) + (if d == c then [s.channels[c].last + 1] else [])
            && forall w :: InWindow(s'.queue, c, w) == InWindow(s.queue, c, w)
  {
    var x := Enqueue(s, d, load).queue[|s.queue|];
    FactsConcat(s.queue, [x], c);
    FactsSingle(x, c);
  }

  lemma EnqueueKeeps(s: Sender, d: nat, load: Load, c: nat)
    requires load.packet && Orderly(s) && c < |s.channels| && d < |s.channels| && ChannelOk(s, c)
    ensures var s' := Enqueue(s, d, load);
            && Orderly(s') && ChannelOk(s', c) && Outstanding(s', c) == Outstanding(s, c)
            && Newest(s', c) == Newest(s, c)
  {
    EnqueueOrderly(s, d, load);
    EnqueueNumbers(s, d, load, c);
    var waiting := Fresh(Enqueue(s, d, load).queue, c);
    assert waiting == Upward(Newest(s, c) + 1, |waiting|);
  }

  lemma EnqueueControlKeeps(s: Sender, load: Load, c: nat)
    requires Orderly(s) && c < |s.channels| && ChannelOk(s, c) && !load.packet && load.length == 0
    ensures Orderly(EnqueueControl(s, load)) && ChannelOk(EnqueueControl(s, load), c)
  {
  }

  lemma EnqueueUnreliableKeeps(s: Sender, x: OutCommand, c: nat)
    requires Orderly(s) && c < |s.channels| && ChannelOk(s, c) && !x.reliable && x.attempts == 0
    ensures Orderly(EnqueueUnreliable(s, x)) && ChannelOk(EnqueueUnreliable(s, x), c)
  {
  }

  lemma SendOtherOrderly(s: Sender, now: nat, timeout: nat)
    requires Orderly(s) && |s.others| > 0
    ensures Orderly(SendOther(s, now, timeout))
    ensures SendOther(s, now, timeout).inTransit == s.inTransit
  {
    TotalLengthConcat(s.sent, [Transmitted(s.others[0], now, timeout)]);
  }

  lemma SendOtherKeeps(s: Sender, now: nat, timeout: nat, c: nat)
    requires Orderly(s) && c < |s.channels| && ChannelOk(s, c) && |s.others| > 0
    ensures var s' := SendOther(s, now, timeout);
            && Orderly(s') && ChannelOk(s', c)
            && Newest(s', c) == Newest(s, c) && Outstanding(s', c) == Outstanding(s, c)
  {
    hide Attempted, InWindow, TotalLength;
    var s', x := SendOther(s, now, timeout), s.others[0];
    if x.reliable {
      var y := Transmitted(x, now, timeout);
      FactsConcat(s.sent, [y], c);
      FactsSingle(y, c);
      assert Outstanding(s', c) == Outstanding(s, c);
    }
  }

  /** What is needed to send a never-sent head: it carries the next number of its channel. */
  lemma FreshHead(s: Sender, c: nat)
    requires Orderly(s) && c < |s.channels| && ChannelOk(s, c)
    requires |s.queue| > 0 && s.queue[0].channel == c && s.queue[0].attempts < 1
    ensures s.queue[0].number == Newest(s, c) + 1
    ensures Fresh(s.queue[1..], c) == Upward(Newest(s, c) + 2, |Fresh(s.queue, c)| - 1)
  {
    var unsent := Fresh(s.queue, c);
    assert unsent[0] == Upward(Newest(s, c) + 1, |unsent|)[0];
    assert Fresh(s.queue[1..], c) == unsent[1..];
  }

  /** The window seven places before a newly entered one is among the ten tested. */
  lemma SeventhWindowIsTested(newest: nat, n: nat)
    requires newest / WINDOW_SIZE - 6 <= n / WINDOW_SIZE < (newest + 1) / WINDOW_SIZE - 6
    ensures Wire(newest + 1) % WINDOW_SIZE == 0
    ensures InEntryMask(WindowOf(Wire(newest + 1)), WindowOf(Wire(n)))
  {
    var w := (newest + 1) / WINDOW_SIZE;
    Split(newest + 1);
    Split(n);
    assert newest + 1 == w * WINDOW_SIZE;
    var v, v' := WindowOf(Wire(n)), WindowOf(Wire(newest + 1));
    var turns := (newest + 1) / MODULUS - n / MODULUS;
    assert turns * WINDOWS + v' - v == 7;
    assert turns == 0 || turns == 1;
  }

  /** Entering a window only when ten windows are clear keeps the span at seven windows. */
  lemma EnteringKeepsSpan(s: Sender, c: nat, n: nat)
    requires Orderly(s) && c < |s.channels| && ChannelOk(s, c)
    requires |s.queue| > 0 && s.queue[0].channel == c && s.queue[0].attempts < 1
    requires Admits(s, s.queue[0])
    requires n in Outstanding(s, c)
    ensures (Newest(s, c) + 1) / WINDOW_SIZE - 6 <= n / WINDOW_SIZE
  {
    FreshHead(s, c);
    if n / WINDOW_SIZE < (Newest(s, c) + 1) / WINDOW_SIZE - 6 {
      SeventhWindowIsTested(Newest(s, c), n);
      OutstandingCounted(s, c, n);
      assert false;
    }
  }

  lemma SendHeadNumbers(s: Sender, now: nat, timeout: nat, c: nat)
    requires Orderly(s) && c < |s.channels| && |s.queue| > 0
    ensures var s', x := SendHead(s, now, timeout), s.queue[0];
            var first := x.channel == c && x.attempts < 1;
            && Outstanding(s', c) == Outstanding(s, c) + (if first then multiset{x.number} else multiset{})
            && Fresh(s.queue, c) == (if first then [x.number] + Fresh(s'.queue, c) else Fresh(s'.queue, c))
            && TotalLength(s'.sent) == TotalLength(s.sent) + x.Length()
  {
    var x, y := s.queue[0], Transmitted(s.queue[0], now, timeout);
    AttemptedConcat(s.sent, [y], c);
    TotalLengthConcat(s.sent, [y]);
    FactsSingle(y, c);
  }

  lemma SendHeadCounts(s: Sender, now: nat, timeout: nat, c: nat)
    requires Orderly(s) && c < |s.channels| && |s.queue| > 0
    requires CountsMatch(s.channels[c], s.queue, s.sent, c)
    ensures var s' := SendHead(s, now, timeout);
            s'.channels[c].Shaped() && CountsMatch(s'.channels[c], s'.queue, s'.sent, c)
  {
    var s', x, y := SendHead(s, now, timeout), s.queue[0], Transmitted(s.queue[0], now, timeout);
    forall w | 0 <= w < WINDOWS
      ensures InWindow(s'.queue, c, w) + InWindow(s'.sent, c, w)
           == InWindow(s.queue, c, w) + InWindow(s.sent, c, w)
              + (if x.channel == c && x.attempts < 1 && x.WindowIndex() == w then 1 else 0)
    {
      InWindowConcat(s.sent, [y], c, w);
      FactsSingle(y, c);
    }
  }

  lemma SendHeadOrderly(s: Sender, now: nat, timeout: nat)
    requires Orderly(s) && |s.queue| > 0
    ensures Orderly(SendHead(s, now, timeout))
  {
    var y := Transmitted(s.queue[0], now, timeout);
    TotalLengthConcat(s.sent, [y]);
  }

  lemma SendHeadKeeps(s: Sender, now: nat, timeout: nat, c: nat)
    requires Orderly(s) && c < |s.channels| && ChannelOk(s, c)
    requires |s.queue| > 0 && Admits(s, s.queue[0])
    ensures var s', x := SendHead(s, now, timeout), s.queue[0];
            var first := x.channel == c && x.attempts < 1;
            && Orderly(s') && ChannelOk(s', c)
            && Newest(s', c) == Newest(s, c) + (if first then 1 else 0)
            && (first ==> x.number == Newest(s', c))
            && Outstanding(s', c) == Outstanding(s, c) + (if first then multiset{x.number} else multiset{})
  {
    hide Outstanding, Fresh, CountsMatch, Admits, Numbered, WellKinded, AttemptedFirst, AllAttempted, TotalLength,
         Counted;
    var s', x := SendHead(s, now, timeout), s.queue[0];
    SendHeadNumbers(s, now, timeout, c);
    SendHeadCounts(s, now, timeout, c);
    SendHeadOrderly(s, now, timeout);
    SendHeadChannels(s, now, timeout, c);
    if x.channel == c && x.attempts < 1 {
      FreshHead(s, c);
      forall n | n in Outstanding(s, c)
        ensures (Newest(s, c) + 1) / WINDOW_SIZE - 6 <= n / WINDOW_SIZE
      {
        EnteringKeepsSpan(s, c, n);
      }
    } else {
      assert Outstanding(s', c) == Outstanding(s, c);
    }
  }

  lemma SendHeadChannels(s: Sender, now: nat, timeout: nat, c: nat)
    requires Orderly(s) && c < |s.channels| && |s.queue| > 0
    ensures var s' := SendHead(s, now, timeout);
            |s'.channels| == |s.channels| && s'.channels[c].last == s.channels[c].last
  {
    hide Orderly;
  }

  lemma RequeueNumbers(s: Sender, expired: OutCommand -> bool, timeout: nat, c: nat)
    requires Orderly(s) && c != CONTROL
    ensures var s' := Requeue(s, expired, timeout);
            && Outstanding(s', c) == Outstanding(s, c) && Fresh(s'.queue, c) == Fresh(s.queue, c)
            && s'.inTransit == TotalLength(s'.sent)
  {
    var back := Picked(s.sent, expired, true);
    ShapePicked(s.sent, expired, true);
    ShapePicked(s.sent, expired, false);
    AttemptedPicked(s.sent, expired, c);
    TotalLengthPicked(s.sent, expired);
    FactsRetimed(back, timeout, c);
    AttemptedConcat(Retimed(back, timeout), s.queue, c);
    FreshConcat(Retimed(back, timeout), s.queue, c);
    NoFresh(back, c);
  }

  lemma RequeueCounts(s: Sender, expired: OutCommand -> bool, timeout: nat, c: nat, w: nat)
    requires Orderly(s) && c != CONTROL
    ensures var s' := Requeue(s, expired, timeout);
            InWindow(s'.queue, c, w) + InWindow(s'.sent, c, w) == InWindow(s.queue, c, w) + InWindow(s.sent, c, w)
  {
    var back := Picked(s.sent, expired, true);
    InWindowPicked(s.sent, expired, c, w);
    FactsRetimed(back, timeout, c);
    InWindowConcat(Retimed(back, timeout), s.queue, c, w);
  }

  lemma RequeueOrderly(s: Sender, expired: OutCommand -> bool, timeout: nat)
    requires Orderly(s)
    ensures Orderly(Requeue(s, expired, timeout)) && Requeue(s, expired, timeout).channels == s.channels
  {
    ShapePicked(s.sent, expired, true);
    ShapePicked(s.sent, expired, false);
    TotalLengthPicked(s.sent, expired);
    hide Picked, Kept, TotalLength;
  }

  lemma RequeueKeeps(s: Sender, expired: OutCommand -> bool, timeout: nat, c: nat)
    requires Orderly(s) && c < |s.channels| && ChannelOk(s, c)
    ensures var s' := Requeue(s, expired, timeout);
            && Orderly(s') && ChannelOk(s', c)
            && Newest(s', c) == Newest(s, c) && Outstanding(s', c) == Outstanding(s, c)
  {
    RequeueOrderly(s, expired, timeout);
    RequeueNumbers(s, expired, timeout, c);
    RequeueMatches(s, expired, timeout, c);
    hide Orderly, Requeue, InSevenWindows, Fresh, Outstanding, CountsMatch;
  }

  lemma RequeueMatches(s: Sender, expired: OutCommand -> bool, timeout: nat, c: nat)
    requires Orderly(s) && c < |s.channels| && CountsMatch(s.channels[c], s.queue, s.sent, c)
    ensures var s' := Requeue(s, expired, timeout); CountsMatch(s.channels[c], s'.queue, s'.sent, c)
  {
    var s' := Requeue(s, expired, timeout);
    forall w | 0 <= w < WINDOWS
      ensures s.channels[c].counts[w] == InWindow(s'.queue, c, w) + InWindow(s'.sent, c, w)
    {
      RequeueCounts(s, expired, timeout, c, w);
    }
  }

  /** Stopping the queue search at a never-sent command misses nothing that was sent. */
  lemma {:induction false} SearchReaches(queue: seq<OutCommand>, stored: Word16, c: nat, i: nat)
    requires AttemptedFirst(queue) && i < |queue|
    requires queue[i].reliable && queue[i].attempts >= 1 && queue[i].Matches(stored, c)
    ensures FindQueued(queue, stored, c) <= i
  {
    if i > 0 && !(queue[0].reliable && queue[0].Matches(stored, c)) {
      SearchReaches(queue[1..], stored, c, i - 1);
    }
  }

  lemma SearchFindsOutstanding(s: Sender, c: nat, n: nat)
    requires Orderly(s) && n in Outstanding(s, c)
    ensures FindSent(s.sent, Wire(n), c) < |s.sent| || FindQueued(s.queue, Wire(n), c) < |s.queue|
  {
    if n in Attempted(s.sent, c) {
      var i := AttemptedWitness(s.sent, c, n);
      assert s.sent[i].Matches(Wire(n), c);
    } else {
      assert n in Attempted(s.queue, c);
      var i := AttemptedWitness(s.queue, c, n);
      SearchReaches(s.queue, Wire(n), c, i);
    }
  }

  /** Is there an attempted reliable command with this number, in any of the three lists? */
  ghost predicate Awaited(s: Sender, stored: Word16, c: nat) {
    || (exists i :: 0 <= i < |s.sent| && s.sent[i].Matches(stored, c))
    || (exists i ::
       0 <= i < |s.others| && s.others[i].reliable && s.others[i].attempts >= 1 && s.others[i].Matches(stored, c))
    || (exists i :: 0 <= i < |s.queue| && s.queue[i].attempts >= 1 && s.queue[i].Matches(stored, c))
  }

  /** On every channel, the control channel included, the search takes out one command that was
      sent and carries the number, exactly if there is one. */
  lemma AcknowledgeFindsAwaited(s: Sender, stored: Word16, c: nat)
    requires Orderly(s)
    ensures var s' := Acknowledge(s, stored, c);
            var total, total' := |s.sent| + |s.others| + |s.queue|, |s'.sent| + |s'.others| + |s'.queue|;
            total' == if Awaited(s, stored, c) then total - 1 else total
    ensures !Awaited(s, stored, c) ==> Acknowledge(s, stored, c) == s
  {
    if i :| 0 <= i < |s.others| && s.others[i].reliable && s.others[i].attempts >= 1 && s.others[i].Matches(stored, c) {
      SearchReaches(s.others, stored, c, i);
    }
    if i :| 0 <= i < |s.queue| && s.queue[i].attempts >= 1 && s.queue[i].Matches(stored, c) {
      SearchReaches(s.queue, stored, c, i);
    }
  }

  /** Dropping one attempted command takes just its number out of the books. */
  lemma WithoutFacts(q: seq<OutCommand>, i: nat, c: nat)
    requires i < |q| && q[i].attempts >= 1
    ensures Fresh(Without(q, i), c) == Fresh(q, c)
    ensures Attempted(q, c) == Attempted(Without(q, i), c)
            + (if q[i].channel == c then multiset{q[i].number} else multiset{})
    ensures forall w :: (InWindow(q, c, w) ==
        InWindow(Without(q, i), c, w) + (if q[i].channel == c && q[i].WindowIndex() == w then 1 else 0))
    ensures TotalLength(q) == TotalLength(Without(q, i)) + q[i].Length()
  {
    FactsSplit(q, i, c);
    FactsSingle(q[i], c);
  }

  /** Taking attempted command `x` out of `s` gives `s'`, as channel `c` sees it. */
  ghost predicate TakenOut(s: Sender, s': Sender, x: OutCommand, c: nat) {
    && Fresh(s'.queue, c) == Fresh(s.queue, c)
    && Outstanding(s, c) == Outstanding(s', c) + (if x.channel == c then multiset{x.number} else multiset{})
    && forall w :: (InWindow(s.queue, c, w) + InWindow(s.sent, c, w) ==
        InWindow(s'.queue, c, w) + InWindow(s'.sent, c, w) + (if x.channel == c && x.WindowIndex() == w then 1 else 0))
  }

  lemma TakeSentFacts(s: Sender, i: nat, c: nat)
    requires Orderly(s) && i < |s.sent|
    ensures Orderly(TakeSent(s, i)) && TakenOut(s, TakeSent(s, i), s.sent[i], c)
  {
    hide Attempted, Fresh, InWindow, TotalLength, Settled;
    WithoutFacts(s.sent, i, c);
    var s' := TakeSent(s, i);
    assert Outstanding(s, c)
        == Outstanding(s', c) + (if s.sent[i].channel == c then multiset{s.sent[i].number} else multiset{});
  }

  lemma TakeQueuedFacts(s: Sender, i: nat, c: nat)
    requires Orderly(s) && i < |s.queue| && s.queue[i].attempts >= 1
    ensures Orderly(TakeQueued(s, i)) && TakenOut(s, TakeQueued(s, i), s.queue[i], c)
  {
    hide Attempted, Fresh, InWindow, TotalLength, Settled;
    WithoutFacts(s.queue, i, c);
    var s' := TakeQueued(s, i);
    assert Outstanding(s, c)
        == Outstanding(s', c) + (if s.queue[i].channel == c then multiset{s.queue[i].number} else multiset{});
  }

  lemma TakeOtherFacts(s: Sender, i: nat)
    requires Orderly(s) && i < |s.others| && s.others[i].reliable
    ensures Orderly(TakeOther(s, i)) && TakeOther(s, i).channels == s.channels
  {
  }

  lemma TakenCounts(s: Sender, s': Sender, x: OutCommand, c: nat)
    requires c < |s.channels| && Shaped(s) && CountsMatch(s.channels[c], s.queue, s.sent, c)
    requires TakenOut(s, s', x, c) && s'.channels == Settled(s.channels, x.stored, x.channel)
    ensures CountsMatch(s'.channels[c], s'.queue, s'.sent, c)
  {
  }

  lemma TakenKeeps(s: Sender, s': Sender, x: OutCommand, c: nat)
    requires c < |s.channels| && Shaped(s) && ChannelOk(s, c)
    requires TakenOut(s, s', x, c) && s'.channels == Settled(s.channels, x.stored, x.channel)
    ensures Shaped(s') && ChannelOk(s', c) && Newest(s', c) == Newest(s, c)
  {
    TakenCounts(s, s', x, c);
    assert forall n ::
           n in Outstanding(s', c) ==> n in Outstanding(s, c) && Outstanding(s', c)[n] <= Outstanding(s, c)[n];
  }

  /** An acknowledgement for a number of channel `d` less than a full turn behind the newest
      one sent removes exactly that command, wherever it waits, and nothing else. */
  lemma AcknowledgeExact(s: Sender, n: nat, d: nat)
    requires Orderly(s) && d < |s.channels| && ChannelOk(s, d)
    requires n <= Newest(s, d) < n + MODULUS
    ensures var s' := Acknowledge(s, Wire(n), d);
            && Orderly(s') && ChannelOk(s', d)
            && Newest(s', d) == Newest(s, d)
            && Outstanding(s', d) == Outstanding(s, d) - multiset{n}
            && (n !in Outstanding(s, d) ==> s' == s)
  {
    hide Attempted, Fresh, InWindow, TotalLength, CountsMatch;
    var i, j := FindSent(s.sent, Wire(n), d), FindQueued(s.queue, Wire(n), d);
    assert FindQueued(s.others, Wire(n), d) == |s.others|;
    if i < |s.sent| || j < |s.queue| {
      var x := if i < |s.sent| then s.sent[i] else s.queue[j];
      if i < |s.sent| { TakeSentFacts(s, i, d); } else { TakeQueuedFacts(s, j, d); }
      TakenKeeps(s, Acknowledge(s, Wire(n), d), x, d);
      assert x.number in Outstanding(s, d);
      NoAlias(x.number, n);
    } else if n in Outstanding(s, d) {
      SearchFindsOutstanding(s, d, n);
      assert false;
    }
  }

  /** Acknowledgements on other channels, however wrong, leave channel `c` alone. */
  lemma AcknowledgeElsewhere(s: Sender, stored: Word16, d: nat, c: nat)
    requires Orderly(s) && c != d && c < |s.channels| && ChannelOk(s, c)
    ensures var s' := Acknowledge(s, stored, d);
            && Orderly(s') && ChannelOk(s', c)
            && Newest(s', c) == Newest(s, c) && Outstanding(s', c) == Outstanding(s, c)
  {
    var i, j := FindSent(s.sent, stored, d), FindQueued(s.queue, stored, d);
    var k := FindQueued(s.others, stored, d);
    if i < |s.sent| {
      TakeSentFacts(s, i, c);
      TakenKeeps(s, TakeSent(s, i), s.sent[i], c);
    } else if k < |s.others| {
      TakeOtherFacts(s, k);
    } else if j < |s.queue| {
      TakeQueuedFacts(s, j, c);
      TakenKeeps(s, TakeQueued(s, j), s.queue[j], c);
    }
  }

  /** What is outstanding on a channel never shares a 16-bit number. */
  lemma OutstandingDistinctOnWire(s: Sender, c: nat, a: nat, b: nat)
    requires Orderly(s) && c < |s.channels| && ChannelOk(s, c)
    requires a in Outstanding(s, c) && b in Outstanding(s, c) && Wire(a) == Wire(b)
    ensures a == b && Outstanding(s, c)[a] == 1
  {
    NoAlias(a, b);
  }
}
