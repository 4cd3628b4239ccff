/** The imperative sender of one peer: the loops that fill a datagram from the two outgoing
    queues, take back what timed out, and settle acknowledgements. Each is proved against the
    functions of ReliableSender. */
module SendingPeer {
  import opened Windows
  import opened Commands
  import opened States
  import opened S = ReliableSender

  const TIME_RANGE: nat := 0x1_0000_0000
  const TIME_OVERFLOW: nat := 86400000

  type Time = t: nat | t < 0x1_0000_0000

  /** The difference of two 32-bit times, as unsigned subtraction gives it. */
  function Since(a: Time, b: Time): Time { (a - b) % TIME_RANGE }

  predicate TimeLess(a: Time, b: Time) { Since(a, b) >= TIME_OVERFLOW }

  function TimeDifference(a: Time, b: Time): Time {
    if Since(a, b) >= TIME_OVERFLOW then Since(b, a) else Since(a, b)
  }

  function Max(a: nat, b: nat): nat { if a > b then a else b }

  function Min(a: nat, b: nat): nat { if a < b then a else b }

  // ---------------------------------------------------------------- what a pass may do

  datatype Move = FromQueue | FromOthers

  /** `s` turns into `s'` by sending the heads of the two queues as `moves` says, where a head
      of the reliable queue goes only if its window may be entered. */
  ghost predicate Plays(s: Sender, s': Sender, moves: seq<Move>, now: nat, timeout: nat)
    requires Shaped(s)
    decreases |moves|
  {
    if moves == [] then s == s'
    else match moves[0]
      case FromQueue => |s.queue| > 0 && Admits(s, s.queue[0])
          && Plays(SendHead(s, now, timeout), s', moves[1..], now, timeout)
      case FromOthers => |s.others| > 0 && Plays(SendOther(s, now, timeout), s', moves[1..], now, timeout)
  }

  lemma {:induction false} PlaysAppend(s: Sender, s': Sender, s'': Sender, moves: seq<Move>, more: seq<Move>,
                                       now: nat, timeout: nat)
    requires Shaped(s) && Plays(s, s', moves, now, timeout)
    requires Shaped(s') && Plays(s', s'', more, now, timeout)
    ensures Plays(s, s'', moves + more, now, timeout)
    decreases |moves|
  {
    if moves == [] {
      assert moves + more == more;
    } else {
      assert (moves + more)[1..] == moves[1..] + more;
      match moves[0]
      case FromQueue => PlaysAppend(SendHead(s, now, timeout), s', s'', moves[1..], more, now, timeout);
      case FromOthers => PlaysAppend(SendOther(s, now, timeout), s', s'', moves[1..], more, now, timeout);
    }
  }

  lemma PlaysOne(s: Sender, move: Move, now: nat, timeout: nat)
    requires Shaped(s)
    ensures move.FromOthers? && s.others != [] ==> Plays(s, SendOther(s, now, timeout), [move], now, timeout)
    ensures move.FromQueue? && s.queue != [] && Admits(s, s.queue[0]) ==>
              Plays(s, SendHead(s, now, timeout), [move], now, timeout)
  {
    assert [move][1..] == [];
  }

  lemma PlaysNothing(s: Sender, now: nat, timeout: nat)
    requires Shaped(s)
    ensures Plays(s, s, [], now, timeout)
  {
  }

  // ---------------------------------------------------------------- what fills a datagram

  /** What one turn of the loop does: the head of one of the queues goes into the datagram, or a run
      of commands at the head of the other queue is dropped. */
  datatype Turn = SendsQueued | SendsOther | Drops(count: nat)

  /** The sender, the throttle's counter, and the datagram's commands, with those of them that are
      let go once it is out. */
  datatype Filling = Filling(sender: Sender, counter: nat, put: seq<OutCommand>, released: seq<OutCommand>)

  /** What does not change meanwhile. `flight` is the most reliable data that may be in flight. */
  datatype Rules = Rules(now: nat, timeout: nat, throttle: nat, flight: nat)

  /** The head of the reliable queue is not held back. */
  predicate MayGo(s: Sender, flight: nat)
    requires Shaped(s)
  {
    s.queue != [] && Admits(s, s.queue[0]) && s.inTransit + s.queue[0].Length() <= flight
  }

  /** It was queued before the head of the other queue. */
  predicate WasFirst(s: Sender) {
    && s.queue != []
    && (s.others == []
        || TimeLess(s.queue[0].load.queueTime % TIME_RANGE, s.others[0].load.queueTime % TIME_RANGE))
  }

  predicate QueueIsDue(s: Sender, flight: nat)
    requires Shaped(s)
  {
    MayGo(s, flight) && WasFirst(s)
  }

  /** The command whose turn it is. */
  function DueHead(s: Sender, flight: nat): OutCommand
    requires Shaped(s) && (s.others != [] || MayGo(s, flight))
  {
    if QueueIsDue(s, flight) then s.queue[0] else s.others[0]
  }

  /** Another command is due. */
  predicate IsDue(s: Sender, flight: nat)
    requires Shaped(s)
  {
    s.others != [] || MayGo(s, flight)
  }

  predicate ReliableIsDue(s: Sender, flight: nat)
    requires Shaped(s)
  {
    IsDue(s, flight) && DueHead(s, flight).reliable
  }

  /** The throttle counts the first command of an unreliable packet. */
  predicate IsCounted(x: OutCommand) { !x.reliable && x.HasPacket() && x.load.offset == 0 && !x.load.unthrottled }

  function Counter(x: OutCommand, counter: nat): nat { if IsCounted(x) then (counter + 7) % 32 else counter }

  predicate IsDropped(x: OutCommand, counter: nat, throttle: nat) { IsCounted(x) && Counter(x, counter) > throttle }

  /** The first `n` commands are those with the numbers of the first. */
  predicate IsRun(q: seq<OutCommand>, n: nat) {
    && 1 <= n <= |q| && (forall i :: 0 <= i < n ==> SamePacket(q[0], q[i]) && q[i].HasPacket())
    && (n < |q| ==> !SamePacket(q[0], q[n]))
  }

  predicate Allowed(f: Filling, turn: Turn, r: Rules)
    requires Shaped(f.sender)
  {
    var s := f.sender;
    match turn
    case SendsQueued => QueueIsDue(s, r.flight)
    case SendsOther => !QueueIsDue(s, r.flight) && s.others != [] && !IsDropped(s.others[0], f.counter, r.throttle)
    case Drops(n) =>
      !QueueIsDue(s, r.flight) && s.others != [] && IsDropped(s.others[0], f.counter, r.throttle) && IsRun(s.others, n)
  }

  function AfterTurn(f: Filling, turn: Turn, r: Rules): (f': Filling)
    requires Shaped(f.sender) && Allowed(f, turn, r)
    ensures Shaped(f'.sender)
  {
    var s := f.sender;
    match turn
    case SendsQueued => f.(sender := SendHead(s, r.now, r.timeout), put := f.put + [s.queue[0]])
    case SendsOther =>
      var x := s.others[0];
      Filling(SendOther(s, r.now, r.timeout), Counter(x, f.counter), f.put + [x],
              f.released + if !x.reliable && x.HasPacket() then [x] else [])
    case Drops(n) => f.(sender := s.(others := s.others[n..]), counter := Counter(s.others[0], f.counter))
  }

  /** The `turns` lead from `f` to `f'`, each the one that is due. */
  ghost predicate Fills(f: Filling, f': Filling, turns: seq<Turn>, r: Rules)
    requires Shaped(f.sender)
    decreases |turns|
  {
    if turns == [] then f == f'
    else Allowed(f, turns[0], r) && Fills(AfterTurn(f, turns[0], r), f', turns[1..], r)
  }

  lemma {:induction false} FillsAppend(f: Filling, f': Filling, f'': Filling, turns: seq<Turn>, more: seq<Turn>,
                                       r: Rules)
    requires Shaped(f.sender) && Fills(f, f', turns, r) && Shaped(f'.sender) && Fills(f', f'', more, r)
    ensures Fills(f, f'', turns + more, r)
    decreases |turns|
  {
    hide Allowed;
    if turns == [] {
      assert turns + more == more;
    } else {
      assert (turns + more)[1..] == turns[1..] + more;
      FillsAppend(AfterTurn(f, turns[0], r), f', f'', turns[1..], more, r);
    }
  }

  lemma FillsOne(f: Filling, turn: Turn, r: Rules)
    requires Shaped(f.sender) && Allowed(f, turn, r)
    ensures Fills(f, AfterTurn(f, turn, r), [turn], r)
  {
    hide Allowed, AfterTurn;
    assert [turn][1..] == [];
    FillsNothing(AfterTurn(f, turn, r), r);
  }

  lemma FillsNothing(f: Filling, r: Rules)
    requires Shaped(f.sender)
    ensures Fills(f, f, [], r)
  {
  }

  predicate NoneReliable(put: seq<OutCommand>) { forall x :: x in put ==> !x.reliable }

  lemma NoneReliableAtFirst()
    ensures NoneReliable([])
  {
  }

  lemma NoneReliableMore(a: seq<OutCommand>, b: seq<OutCommand>, from: nat)
    requires from <= |a| && a <= b
    ensures NoneReliable(b[from..]) <==> NoneReliable(a[from..]) && NoneReliable(b[|a|..])
  {
    assert b[from..] == a[from..] + b[|a|..];
  }

  /** What is kept for an acknowledgement of the commands put in. */
  function SentAs(put: seq<OutCommand>, now: nat, timeout: nat): seq<OutCommand> {
    if put == [] then []
    else
      var front, x := SentAs(put[..|put| - 1], now, timeout), put[|put| - 1];
      if x.reliable then front + [Transmitted(x, now, timeout)] else front
  }

  /** What is in flight beyond `sent` is, in order, what the datagram holds beyond `put` that asks for
      an acknowledgement. */
  predicate SentIsPut(sent: seq<OutCommand>, sent': seq<OutCommand>, put: seq<OutCommand>, put': seq<OutCommand>,
                      now: nat, timeout: nat)
  {
    put <= put' && sent' == sent + SentAs(put'[|put|..], now, timeout)
  }

  lemma SentAsMore(put: seq<OutCommand>, x: OutCommand, now: nat, timeout: nat)
    ensures SentAs(put + [x], now, timeout)
            == SentAs(put, now, timeout) + if x.reliable then [Transmitted(x, now, timeout)] else []
  {
    assert (put + [x])[..|put|] == put;
  }

  // ---------------------------------------------------------------- the datagram under construction

  function WireSize(x: OutCommand): nat { SizeOf(x.load.kind) + (if x.HasPacket() then x.Length() else 0) }

  function WireSizes(q: seq<OutCommand>): nat {
    if q == [] then 0 else WireSizes(q[..|q| - 1]) + WireSize(q[|q| - 1])
  }

  function Buffers(q: seq<OutCommand>): (n: nat)
    ensures n <= 2 * |q|
  {
    if q == [] then 0 else Buffers(q[..|q| - 1]) + (if q[|q| - 1].HasPacket() then 2 else 1)
  }

  /** The command and buffer arrays of the host and its running packet size, while one
      datagram is put together. `other` is what headers and acknowledgements take up. */
  class Datagram {
    var commands: seq<OutCommand>
    var commandCount: nat
    var bufferCount: nat
    var packetSize: nat
    /** What is acknowledged in it. */
    var acknowledged: seq<Due>
    /** Unreliable packet commands that are let go once the datagram is out. */
    var sentUnreliable: seq<OutCommand>
    ghost var otherSize: nat
    ghost var otherCommands: nat
    ghost const headerSize: nat

    /** An empty datagram: `reserved` bytes are kept for its header. */
    constructor (reserved: nat)
      requires reserved <= HEADER_SIZE + CHECKSUM_SIZE
      ensures Fresh() && commands == [] && acknowledged == [] && sentUnreliable == [] && otherCommands == 0
      ensures headerSize == reserved && forall mtu :: MINIMUM_MTU <= mtu <= MAXIMUM_MTU ==> Within(mtu)
    {
      commands, commandCount, bufferCount, packetSize := [], 0, 1, reserved;
      acknowledged, sentUnreliable := [], [];
      otherSize, otherCommands, headerSize := reserved, 0, reserved;
    }

    /** Nothing is in it yet but its header. */
    ghost predicate Fresh()
      reads this
    {
      commandCount == 0 && packetSize <= HEADER_SIZE + CHECKSUM_SIZE
    }

    /** One acknowledgement more. */
    method Acknowledge(due: Due, mtu: nat)
      requires Within(mtu) && commandCount < MAXIMUM_COMMANDS && bufferCount < MAXIMUM_BUFFERS
               && mtu - packetSize >= SizeOf(ACKNOWLEDGE)
      modifies this
      ensures Within(mtu) && acknowledged == old(acknowledged) + [due] && commandCount == old(commandCount) + 1
      ensures commands == old(commands) && sentUnreliable == old(sentUnreliable)
    {
      commandCount, bufferCount := commandCount + 1, bufferCount + 1;
      packetSize := packetSize + SizeOf(ACKNOWLEDGE);
      otherSize, otherCommands := otherSize + SizeOf(ACKNOWLEDGE), otherCommands + 1;
      acknowledged := acknowledged + [due];
    }

    /** The datagram respects the peer's mtu and the host's arrays. */
    ghost predicate Within(mtu: nat)
      reads this
    {
      && packetSize == otherSize + WireSizes(commands) <= mtu <= MAXIMUM_MTU
      && commandCount == otherCommands + |commands| <= MAXIMUM_COMMANDS
      && bufferCount == 1 + otherCommands + Buffers(commands) <= MAXIMUM_BUFFERS
      && otherCommands == |acknowledged| && otherSize == headerSize + SizeOf(ACKNOWLEDGE) * |acknowledged|
    }

    ghost predicate Extends(before: seq<OutCommand>, dues: seq<Due>)
      reads this
    {
      before <= commands && acknowledged == dues
    }

    method Release(x: OutCommand)
      modifies `sentUnreliable
      ensures sentUnreliable == old(sentUnreliable) + [x]
    {
      sentUnreliable := sentUnreliable + [x];
    }

    method Emit(x: OutCommand, mtu: nat)
      requires Within(mtu) && commandCount < MAXIMUM_COMMANDS && packetSize + WireSize(x) <= mtu
      modifies this
      ensures Within(mtu) && commands == old(commands) + [x]
      ensures acknowledged == old(acknowledged) && sentUnreliable == old(sentUnreliable)
    {
      commands := commands + [x];
      commandCount := commandCount + 1;
      bufferCount := bufferCount + (if x.HasPacket() then 2 else 1);
      packetSize := packetSize + WireSize(x);
    }
  }

  ghost predicate NoRoomIn(d: Datagram, x: OutCommand, mtu: nat)
    reads d
  {
    d.commandCount >= MAXIMUM_COMMANDS || d.packetSize + WireSize(x) > mtu
  }

  // ---------------------------------------------------------------- the peer

  /** The command fits a fresh datagram, with room for one acknowledgement besides. */
  predicate Fits(x: OutCommand, mtu: nat) {
    SizeOf(x.load.kind) + x.Length() + HEADER_SIZE + SizeOf(ACKNOWLEDGE) <= mtu && (!x.HasPacket() ==> x.Length() == 0)
  }

  predicate AllFit(q: seq<OutCommand>, mtu: nat) { forall i :: 0 <= i < |q| ==> Fits(q[i], mtu) }

  /** The kind of the command an acknowledgement settles. */
  function SettledKind(s: Sender, stored: Word16, c: nat): nat {
    var i, k, j := FindSent(s.sent, stored, c), FindQueued(s.others, stored, c), FindQueued(s.queue, stored, c);
    if i < |s.sent| then s.sent[i].load.kind
    else if k < |s.others| then s.others[k].load.kind
    else if j < |s.queue| then s.queue[j].load.kind else 0
  }

  /** Commands that would be thrown away together with unreliable packet command `x`. */
  predicate SamePacket(x: OutCommand, y: OutCommand) {
    x.stored == y.stored && x.load.unreliable == y.load.unreliable
  }

  /** No control command stands in for a fragment of a dropped packet. */
  predicate Separable(q: seq<OutCommand>) {
    forall i, j :: 0 <= i < |q| && 0 <= j < |q| && q[i].HasPacket() && SamePacket(q[i], q[j]) ==> q[j].HasPacket()
  }

  ghost predicate ValidState(s: Sender, mtu: nat) {
    Orderly(s) && AllFit(s.queue, mtu) && AllFit(s.others, mtu) && AllFit(s.sent, mtu) && Separable(s.others)
  }

  // ---------------------------------------------------------------- what filling a datagram comes to

  function MovesOf(turns: seq<Turn>): seq<Move> {
    if turns == [] then []
    else
      (match turns[0]
       case SendsQueued => [FromQueue]
       case SendsOther => [FromOthers]
       case Drops(n) => seq(n, _ => FromOthers)) + MovesOf(turns[1..])
  }

  lemma TurnKeeps(f: Filling, turn: Turn, r: Rules)
    requires Orderly(f.sender) && Allowed(f, turn, r)
    ensures Orderly(AfterTurn(f, turn, r).sender)
  {
    match turn
    case SendsQueued => SendHeadOrderly(f.sender, r.now, r.timeout);
    case SendsOther => SendOtherOrderly(f.sender, r.now, r.timeout);
    case Drops(n) => DropOrderly(f.sender, n);
  }

  lemma DropOrderly(s: Sender, n: nat)
    requires Orderly(s) && n <= |s.others|
    ensures Orderly(s.(others := s.others[n..]))
  {
  }

  /** One packet's worth of drops, as moves. */
  lemma {:induction false} DropIsMoves(s: Sender, dropped: nat, now: nat, timeout: nat)
    requires Orderly(s) && dropped <= |s.others| && forall i :: 0 <= i < dropped ==> s.others[i].HasPacket()
    ensures Plays(s, s.(others := s.others[dropped..]), seq(dropped, _ => FromOthers), now, timeout)
    decreases dropped
  {
    if dropped > 0 {
      var t := SendOther(s, now, timeout);
      assert !s.others[0].reliable;
      assert Orderly(t);
      DropIsMoves(t, dropped - 1, now, timeout);
      assert seq(dropped, _ => FromOthers)[1..] == seq(dropped - 1, _ => FromOthers);
      assert t.others[dropped - 1..] == s.others[dropped..];
    }
  }

  lemma TurnPlays(f: Filling, turn: Turn, r: Rules)
    requires Orderly(f.sender) && Allowed(f, turn, r)
    ensures Plays(f.sender, AfterTurn(f, turn, r).sender, MovesOf([turn]), r.now, r.timeout)
  {
    assert MovesOf([turn][1..]) == [];
    match turn
    case SendsQueued => PlaysOne(f.sender, FromQueue, r.now, r.timeout);
    case SendsOther => PlaysOne(f.sender, FromOthers, r.now, r.timeout);
    case Drops(n) =>
      DropIsMoves(f.sender, n, r.now, r.timeout);
      assert MovesOf([turn]) == seq(n, _ => FromOthers);
  }

  lemma MovesOfMore(turn: Turn, turns: seq<Turn>)
    ensures MovesOf([turn] + turns) == MovesOf([turn]) + MovesOf(turns)
  {
    assert ([turn] + turns)[1..] == turns && MovesOf([turn][1..]) == [];
  }

  /** For the sender, the turns are moves of its two queues. */
  lemma {:induction false} FillsPlays(f: Filling, f': Filling, turns: seq<Turn>, r: Rules)
    requires Orderly(f.sender) && Fills(f, f', turns, r)
    ensures Plays(f.sender, f'.sender, MovesOf(turns), r.now, r.timeout) && Orderly(f'.sender)
    decreases |turns|
  {
    hide Numbered, WellKinded, AttemptedFirst, AllAttempted, TotalLength, Allowed, AfterTurn, MovesOf;
    if turns == [] {
      NoMoves();
      PlaysNothing(f.sender, r.now, r.timeout);
    } else {
      var g := AfterTurn(f, turns[0], r);
      TurnKeeps(f, turns[0], r);
      TurnPlays(f, turns[0], r);
      FillsPlays(g, f', turns[1..], r);
      MovesOfMore(turns[0], turns[1..]);
      assert [turns[0]] + turns[1..] == turns;
      PlaysAppend(f.sender, g.sender, f'.sender, MovesOf([turns[0]]), MovesOf(turns[1..]), r.now, r.timeout);
    }
  }

  lemma NoMoves()
    ensures MovesOf([]) == []
  {
  }

  lemma {:induction false} FillsMoves(f: Filling, f': Filling, turns: seq<Turn>, r: Rules)
    requires Orderly(f.sender) && Fills(f, f', turns, r)
    ensures f.put <= f'.put && (MovesOf(turns) == [] <==> turns == [])
    ensures FromQueue in MovesOf(turns) ==> !NoneReliable(f'.put[|f.put|..])
    decreases |turns|
  {
    hide Numbered, WellKinded, AttemptedFirst, AllAttempted, TotalLength, Allowed, AfterTurn, NoneReliable, MovesOf;
    if turns == [] {
      NoMoves();
    } else {
      var g := AfterTurn(f, turns[0], r);
      TurnKeeps(f, turns[0], r);
      TurnMoves(f, turns[0], r);
      FillsMoves(g, f', turns[1..], r);
      MovesOfMore(turns[0], turns[1..]);
      assert [turns[0]] + turns[1..] == turns;
      NoneReliableMore(g.put, f'.put, |f.put|);
    }
  }

  lemma TurnMoves(f: Filling, turn: Turn, r: Rules)
    requires Orderly(f.sender) && Allowed(f, turn, r)
    ensures var g := AfterTurn(f, turn, r);
            f.put <= g.put && MovesOf([turn]) != []
                && (FromQueue in MovesOf([turn]) ==> !NoneReliable(g.put[|f.put|..]))
  {
    assert MovesOf([turn][1..]) == [];
    if turn.SendsQueued? {
      var g := AfterTurn(f, turn, r);
      assert g.put[|f.put|..][0] == f.sender.queue[0] && f.sender.queue[0] in g.put[|f.put|..];
    }
  }

  /** What is in flight afterwards is what was, and what the datagram now holds that asks for an
      acknowledgement, in order. */
  lemma {:induction false} FillsSent(f: Filling, f': Filling, turns: seq<Turn>, r: Rules)
    requires Orderly(f.sender) && Fills(f, f', turns, r)
    ensures SentIsPut(f.sender.sent, f'.sender.sent, f.put, f'.put, r.now, r.timeout)
    decreases |turns|
  {
    hide Numbered, WellKinded, AttemptedFirst, AllAttempted, TotalLength, SentAs, Allowed, AfterTurn;
    if turns == [] {
      NothingSent(f, r);
    } else {
      var g := AfterTurn(f, turns[0], r);
      TurnKeeps(f, turns[0], r);
      TurnSent(f, turns[0], r);
      FillsSent(g, f', turns[1..], r);
      SentJoins(g.put[|f.put|..], f'.put[|g.put|..], r.now, r.timeout);
      assert f'.put[|f.put|..] == g.put[|f.put|..] + f'.put[|g.put|..];
    }
  }

  lemma NothingSent(f: Filling, r: Rules)
    ensures f.sender.sent == f.sender.sent + SentAs(f.put[|f.put|..], r.now, r.timeout)
  {
  }

  lemma TurnSent(f: Filling, turn: Turn, r: Rules)
    requires Orderly(f.sender) && Allowed(f, turn, r)
    ensures var g := AfterTurn(f, turn, r);
            f.put <= g.put && g.sender.sent == f.sender.sent + SentAs(g.put[|f.put|..], r.now, r.timeout)
  {
    var g := AfterTurn(f, turn, r);
    if turn.Drops? {
      NothingSent(f, r);
    } else {
      var x := if turn.SendsQueued? then f.sender.queue[0] else f.sender.others[0];
      assert g.put[|f.put|..] == [] + [x];
      SentAsMore([], x, r.now, r.timeout);
    }
  }

  lemma {:induction false} SentJoins(a: seq<OutCommand>, b: seq<OutCommand>, now: nat, timeout: nat)
    ensures SentAs(a + b, now, timeout) == SentAs(a, now, timeout) + SentAs(b, now, timeout)
  {
    if b == [] {
      assert a + b == a;
    } else {
      var front, x := b[..|b| - 1], b[|b| - 1];
      SentJoins(a, front, now, timeout);
      SentAsMore(a + front, x, now, timeout);
      assert a + b == (a + front) + [x] && b == front + [x];
      SentAsMore(front, x, now, timeout);
    }
  }

  function DroppedBy(f: Filling, turn: Turn): seq<OutCommand> {
    if turn.Drops? && turn.count <= |f.sender.others| then f.sender.others[..turn.count] else []
  }

  function DroppedIn(f: Filling, turns: seq<Turn>, r: Rules): seq<OutCommand>
    requires Shaped(f.sender)
    decreases |turns|
  {
    if turns == [] || !Allowed(f, turns[0], r) then []
    else
      DroppedBy(f, turns[0]) + DroppedIn(AfterTurn(f, turns[0], r), turns[1..], r)
  }

  /** `n` and `m` commands left the two queues of `f`, from their heads, for `f'`: all are in the
      datagram, but for `dropped`, which are of unreliable packets. */
  predicate LosesNothing(f: Filling, f': Filling, dropped: seq<OutCommand>, n: nat, m: nat) {
    && n <= |f.sender.queue| && f'.sender.queue == f.sender.queue[n..]
    && m <= |f.sender.others| && f'.sender.others == f.sender.others[m..]
    && Balanced(multiset(f.put), multiset(f'.put), multiset(dropped), multiset(f.sender.queue[..n]),
                multiset(f.sender.others[..m]))
    && forall x :: x in dropped ==> x.HasPacket() && !x.reliable
  }

  /** Nothing is lost. */
  lemma {:induction false} FillsLosesNothing(f: Filling, f': Filling, turns: seq<Turn>, r: Rules)
      returns (n: nat, m: nat)
    requires Orderly(f.sender) && Fills(f, f', turns, r)
    ensures LosesNothing(f, f', DroppedIn(f, turns, r), n, m)
    decreases |turns|
  {
    hide Numbered, WellKinded, AttemptedFirst, AllAttempted, TotalLength, Allowed, AfterTurn, LosesNothing,
         DroppedBy;
    if turns == [] {
      n, m := 0, 0;
      StandsLosesNothing(f);
    } else {
      var g := AfterTurn(f, turns[0], r);
      TurnKeeps(f, turns[0], r);
      var i, j := TurnTakes(f, turns[0], r);
      var n', m' := FillsLosesNothing(g, f', turns[1..], r);
      n, m := i + n', j + m';
      LosesJoins(f, g, f', DroppedBy(f, turns[0]), DroppedIn(g, turns[1..], r), i, j, n', m');
    }
  }

  lemma StandsLosesNothing(f: Filling)
    ensures LosesNothing(f, f, [], 0, 0)
  {
    assert f.sender.queue[..0] == [] && f.sender.others[..0] == [];
    NothingIsBalanced(multiset(f.put));
  }

  lemma LosesJoins(f: Filling, g: Filling, f': Filling, d: seq<OutCommand>, e: seq<OutCommand>,
                   i: nat, j: nat, n: nat, m: nat)
    requires LosesNothing(f, g, d, i, j) && LosesNothing(g, f', e, n, m)
    ensures LosesNothing(f, f', d + e, i + n, j + m)
  {
    hide Balanced;
    CutsAdd(f.sender.queue, i, n);
    CutsAdd(f.sender.others, j, m);
    BalancedAdds(multiset(f.put), multiset(g.put), multiset(f'.put), multiset(d), multiset(e),
        multiset(f.sender.queue[..i]),
                 multiset(f.sender.others[..j]), multiset(g.sender.queue[..n]), multiset(g.sender.others[..m]));
    assert multiset(d + e) == multiset(d) + multiset(e);
  }

  /** What was in, and what was taken from the queues, is in now or dropped. */
  predicate Balanced(p: multiset<OutCommand>, p': multiset<OutCommand>, dropped: multiset<OutCommand>,
                     a: multiset<OutCommand>, b: multiset<OutCommand>)
  {
    p' + dropped == p + a + b
  }

  lemma NothingIsBalanced(p: multiset<OutCommand>)
    ensures Balanced(p, p, multiset([]), multiset([]), multiset([]))
  {
  }

  lemma BalancedAdds(p: multiset<OutCommand>, p': multiset<OutCommand>, p'': multiset<OutCommand>,
                     d: multiset<OutCommand>, e: multiset<OutCommand>, a: multiset<OutCommand>,
                     b: multiset<OutCommand>, a': multiset<OutCommand>, b': multiset<OutCommand>)
    requires Balanced(p, p', d, a, b) && Balanced(p', p'', e, a', b')
    ensures Balanced(p, p'', d + e, a + a', b + b')
  {
    forall x: OutCommand
      ensures (p'' + (d + e))[x] == (p + (a + a') + (b + b'))[x]
    {
      assert (p' + d)[x] == (p + a + b)[x] && (p'' + e)[x] == (p' + a' + b')[x];
    }
  }

  lemma CutsAdd(q: seq<OutCommand>, i: nat, n: nat)
    requires i + n <= |q|
    ensures multiset(q[..i + n]) == multiset(q[..i]) + multiset(q[i..][..n]) && q[i..][n..] == q[i + n..]
  {
    assert q[..i + n] == q[..i] + q[i..][..n];
  }

  lemma TurnTakes(f: Filling, turn: Turn, r: Rules) returns (i: nat, j: nat)
    requires Orderly(f.sender) && Allowed(f, turn, r)
    ensures LosesNothing(f, AfterTurn(f, turn, r), DroppedBy(f, turn), i, j)
  {
    match turn
    case SendsQueued =>
      i, j := 1, 0;
      assert f.sender.queue[..1] == [f.sender.queue[0]] && f.sender.others[..0] == [];
    case SendsOther =>
      i, j := 0, 1;
      assert f.sender.others[..1] == [f.sender.others[0]] && f.sender.queue[..0] == [];
    case Drops(n) =>
      i, j := 0, n;
      assert f.sender.queue[..0] == [];
  }

  /** The unreliable packets put in are those let go afterwards. */
  function LetGo(put: seq<OutCommand>): seq<OutCommand> {
    if put == [] then []
    else
      var front, x := LetGo(put[..|put| - 1]), put[|put| - 1];
      if !x.reliable && x.HasPacket() then front + [x] else front
  }

  lemma LetGoMore(put: seq<OutCommand>, x: OutCommand)
    ensures LetGo(put + [x]) == LetGo(put) + if !x.reliable && x.HasPacket() then [x] else []
  {
    assert (put + [x])[..|put|] == put;
  }

  lemma {:induction false} FillsReleases(f: Filling, f': Filling, turns: seq<Turn>, r: Rules)
    requires Orderly(f.sender) && Fills(f, f', turns, r) && f.released == LetGo(f.put)
    ensures f'.released == LetGo(f'.put)
    decreases |turns|
  {
    if turns != [] {
      TurnReleases(f, turns[0], r);
      TurnKeeps(f, turns[0], r);
      hide Numbered, WellKinded, AttemptedFirst, AllAttempted, TotalLength, Allowed, AfterTurn, LetGo;
      FillsReleases(AfterTurn(f, turns[0], r), f', turns[1..], r);
    }
  }

  lemma TurnReleases(f: Filling, turn: Turn, r: Rules)
    requires Orderly(f.sender) && Allowed(f, turn, r) && f.released == LetGo(f.put)
    ensures AfterTurn(f, turn, r).released == LetGo(AfterTurn(f, turn, r).put)
  {
    if turn.SendsQueued? {
      LetGoMore(f.put, f.sender.queue[0]);
    } else if turn.SendsOther? {
      LetGoMore(f.put, f.sender.others[0]);
    }
  }

  /** An open throttle drops nothing. */
  lemma {:induction false} OpenThrottleDropsNothing(f: Filling, f': Filling, turns: seq<Turn>, r: Rules)
    requires Orderly(f.sender) && Fills(f, f', turns, r) && r.throttle >= 31
    ensures DroppedIn(f, turns, r) == [] && forall t :: t in turns ==> !t.Drops?
    decreases |turns|
  {
    if turns != [] {
      TurnKeeps(f, turns[0], r);
      OpenThrottleDropsNothing(AfterTurn(f, turns[0], r), f', turns[1..], r);
    }
  }

  /** A turn leaves less in the queues, and puts in a reliable command exactly if that was due. */
  lemma TurnGoesOn(f: Filling, turn: Turn, r: Rules)
    requires Orderly(f.sender) && Allowed(f, turn, r)
    ensures var g := AfterTurn(f, turn, r);
            && |g.sender.queue| + |g.sender.others| < |f.sender.queue| + |f.sender.others| && f.put <= g.put
            && (NoneReliable(g.put[|f.put|..]) <==> !DueHead(f.sender, r.flight).reliable)
  {
    var g := AfterTurn(f, turn, r);
    if !turn.Drops? {
      assert g.put[|f.put|..] == [DueHead(f.sender, r.flight)];
      assert DueHead(f.sender, r.flight) in g.put[|f.put|..];
    }
  }

  lemma QueuedIsReliable(s: Sender, mtu: nat, flight: nat)
    requires ValidState(s, mtu) && QueueIsDue(s, flight)
    ensures DueHead(s, flight) == s.queue[0] && s.queue[0].reliable
  {
  }

  /** What the sending loop needs of these. */
  lemma FillComesTo(f: Filling, f': Filling, turns: seq<Turn>, r: Rules)
    requires Orderly(f.sender) && Fills(f, f', turns, r)
    ensures Plays(f.sender, f'.sender, MovesOf(turns), r.now, r.timeout)
    ensures SentIsPut(f.sender.sent, f'.sender.sent, f.put, f'.put, r.now, r.timeout)
    ensures MovesOf(turns) == [] <==> turns == []
    ensures FromQueue in MovesOf(turns) ==> !NoneReliable(f'.put[|f.put|..])
  {
    hide Orderly, Fills, SentIsPut, MovesOf, NoneReliable, Plays;
    FillsPlays(f, f', turns, r);
    FillsSent(f, f', turns, r);
    FillsMoves(f, f', turns, r);
  }

  lemma ValidIsOrderly(s: Sender, mtu: nat)
    requires ValidState(s, mtu)
    ensures Orderly(s)
  {
  }

  lemma SendHeadValid(s: Sender, mtu: nat, now: nat, timeout: nat)
    requires ValidState(s, mtu) && s.queue != []
    ensures ValidState(SendHead(s, now, timeout), mtu)
  {
    SendHeadOrderly(s, now, timeout);
  }

  lemma SendOtherValid(s: Sender, mtu: nat, now: nat, timeout: nat)
    requires ValidState(s, mtu) && s.others != []
    ensures ValidState(SendOther(s, now, timeout), mtu)
    ensures SendOther(s, now, timeout).inTransit == s.inTransit
  {
    SendOtherOrderly(s, now, timeout);
  }

  lemma {:induction false} PickedFit(sent: seq<OutCommand>, expired: OutCommand -> bool, packet: bool, mtu: nat)
    requires AllFit(sent, mtu)
    ensures AllFit(Picked(sent, expired, packet), mtu) && AllFit(Kept(sent, expired), mtu)
  {
    if sent != [] {
      PickedFit(sent[1..], expired, packet, mtu);
    }
  }

  lemma RequeueValid(s: Sender, mtu: nat, expired: OutCommand -> bool, timeout: nat)
    requires ValidState(s, mtu)
    requires ControlApart(s)
    ensures ValidState(Requeue(s, expired, timeout), mtu) && Requeue(s, expired, timeout).inTransit <= s.inTransit
  {
    RequeueOrderly(s, expired, timeout);
    PickedFit(s.sent, expired, true, mtu);
    PickedFit(s.sent, expired, false, mtu);
    RequeueSeparable(s, expired, timeout);
    hide Separable, Orderly, ControlApart;
  }

  /** Control commands that go back to the other queue are told apart from packets as before. */
  lemma RequeueSeparable(s: Sender, expired: OutCommand -> bool, timeout: nat)
    requires Separable(s.others) && ControlApart(s)
    ensures Separable(Requeue(s, expired, timeout).others)
  {
    var back, q := Picked(s.sent, expired, false), Requeue(s, expired, timeout).others;
    PickedFrom(s.sent, expired);
    hide Requeue, Picked;
    assert q == Retimed(back, timeout) + s.others by { RequeuedOthers(s, expired, timeout); }
    forall i | 0 <= i < |back|
      ensures q[i] == back[i].(timeout := timeout) && back[i] in s.sent && !q[i].HasPacket()
    {
      assert back[i] in back;
    }
    forall i | |back| <= i < |q|
      ensures q[i] == s.others[i - |back|] && q[i] in s.others
    {
    }
    forall i, j | 0 <= i < |q| && 0 <= j < |q| && q[i].HasPacket() && SamePacket(q[i], q[j])
      ensures q[j].HasPacket()
    {
      assert j < |back| ==> SamePacket(back[j], q[i]);
    }
  }

  lemma RequeuedOthers(s: Sender, expired: OutCommand -> bool, timeout: nat)
    ensures Requeue(s, expired, timeout).others == Retimed(Picked(s.sent, expired, false), timeout) + s.others
  {
  }

  lemma {:induction false} PickedFrom(sent: seq<OutCommand>, expired: OutCommand -> bool)
    ensures forall x :: x in Picked(sent, expired, false) ==> x in sent && !x.HasPacket()
  {
    if sent != [] {
      PickedFrom(sent[1..], expired);
    }
  }

  /** No control command in flight shares its two numbers with a waiting unreliable packet. */
  predicate ControlApart(s: Sender) {
    forall x, y :: x in s.sent && !x.HasPacket() && y in s.others && y.HasPacket() ==> !SamePacket(x, y)
  }

  lemma WithoutFit(q: seq<OutCommand>, i: nat, mtu: nat)
    requires i < |q|
    ensures AllFit(q, mtu) ==> AllFit(Without(q, i), mtu)
    ensures Separable(q) ==> Separable(Without(q, i))
  {
    forall k | 0 <= k < |Without(q, i)|
      ensures Without(q, i)[k] == q[if k < i then k else k + 1]
    {
      if k >= i { assert Without(q, i)[k] == q[i + 1..][k - i]; }
    }
  }

  lemma TakeSentValid(s: Sender, mtu: nat, i: nat)
    requires ValidState(s, mtu) && i < |s.sent|
    ensures ValidState(TakeSent(s, i), mtu)
  {
    TakeSentFacts(s, i, 0);
    WithoutFit(s.sent, i, mtu);
  }

  lemma TakeOtherValid(s: Sender, mtu: nat, i: nat)
    requires ValidState(s, mtu) && i < |s.others| && s.others[i].reliable
    ensures ValidState(TakeOther(s, i), mtu)
  {
    TakeOtherFacts(s, i);
    WithoutFit(s.others, i, mtu);
  }

  lemma TakeQueuedValid(s: Sender, mtu: nat, i: nat)
    requires ValidState(s, mtu) && i < |s.queue| && s.queue[i].attempts >= 1
    ensures ValidState(TakeQueued(s, i), mtu)
  {
    TakeQueuedFacts(s, i, 0);
    WithoutFit(s.queue, i, mtu);
  }

  lemma AcknowledgeValid(s: Sender, mtu: nat, stored: Word16, c: nat)
    requires ValidState(s, mtu)
    ensures ValidState(Acknowledge(s, stored, c), mtu)
  {
    var i, k, j := FindSent(s.sent, stored, c), FindQueued(s.others, stored, c), FindQueued(s.queue, stored, c);
    if i < |s.sent| {
      TakeSentValid(s, mtu, i);
    } else if k < |s.others| {
      TakeOtherValid(s, mtu, k);
    } else if j < |s.queue| {
      TakeQueuedValid(s, mtu, j);
    }
  }

  /** A valid state stays so without the first commands of the other queue. */
  lemma DropValid(s: Sender, mtu: nat, dropped: nat)
    requires ValidState(s, mtu) && dropped <= |s.others|
    ensures ValidState(s.(others := s.others[dropped..]), mtu)
  {
  }

  lemma SeparableFrom(s: Sender, mtu: nat, x: OutCommand)
    requires ValidState(s, mtu) && x in s.others && x.HasPacket()
    ensures forall y :: y in s.others && SamePacket(x, y) ==> y.HasPacket()
  {
    var i :| 0 <= i < |s.others| && s.others[i] == x;
    forall y | y in s.others && SamePacket(x, y)
      ensures y.HasPacket()
    {
      var j :| 0 <= j < |s.others| && s.others[j] == y;
    }
  }

  const PING_LOAD := Load(PING, false, 0, 0, 0, 0, false, 0)
  const DISCONNECT_LOAD := Load(DISCONNECT, false, 0, 0, 0, 0, false, 0)

  predicate Spent(s: Sender) { s.queue == [] && s.others == [] && s.sent == [] }

  /** A peer that waits to disconnect starts to, once nothing is queued or in flight: it gives up
      its channels and queues one command. */
  function AfterWait(state: State, s: Sender): Sender {
    if state == DisconnectLater && Spent(s) then EnqueueControl(s.(channels := []), DISCONNECT_LOAD) else s
  }

  /** One call of enet_protocol_check_outgoing_commands: the turns, what they lead to, and the
      sender and the state after the wait of the peer, if it waits, may have ended. */
  datatype Batch = Batch(turns: seq<Turn>, filled: Filling, sender: Sender, state: State)

  /** A wait ends when nothing is queued, in flight or to be let go. */
  predicate EndsWait(state: State, f: Filling) { state == DisconnectLater && Spent(f.sender) && f.released == [] }

  ghost predicate Goes(f: Filling, state: State, r: Batch, rules: Rules)
    requires Shaped(f.sender)
  {
    && Fills(f, r.filled, r.turns, rules) && Shaped(r.filled.sender)
    && r.sender == (if EndsWait(state, r.filled) then AfterWait(state, r.filled.sender) else r.filled.sender)
    && r.state == (if EndsWait(state, r.filled) then Disconnecting else state)
  }

  /** No reliable command was due: none went, and none found no room. */
  predicate CanPing(r: Batch, from: nat, flight: nat)
    requires Shaped(r.filled.sender) && from <= |r.filled.put|
  {
    NoneReliable(r.filled.put[from..]) && !ReliableIsDue(r.filled.sender, flight)
  }

  lemma AfterWaitIs(state: State, s: Sender)
    ensures !(state == DisconnectLater && Spent(s)) ==> AfterWait(state, s) == s
  {
  }

  lemma AfterWaitValid(state: State, s: Sender, mtu: nat)
    requires ValidState(s, mtu) && MINIMUM_MTU <= mtu
    ensures ValidState(AfterWait(state, s), mtu) && Shaped(AfterWait(state, s))
  {
  }

  /** How long a command may wait for its acknowledgement at first. */
  function TimeoutOf(roundTripTime: nat, variance: nat): nat { roundTripTime + 4 * variance }

  /** The most reliable data that may be in flight. */
  function FlightOf(throttle: nat, windowSize: nat, mtu: nat): nat { Max(throttle * windowSize / 32, mtu) }

  const IDLE_CHANNEL: S.Channel := S.Channel(0, seq(WINDOWS, _ => 0), seq(WINDOWS, _ => false))

  class Peer {
    var state: State
    var acknowledgements: seq<Due>
    var channels: seq<S.Channel>
    var lastControl: nat
    var queue: seq<OutCommand>
    var others: seq<OutCommand>
    var sent: seq<OutCommand>
    var inTransit: int

    var mtu: nat
    var windowSize: nat
    var packetThrottle: nat
    var packetThrottleCounter: nat
    var roundTripTime: nat
    var roundTripTimeVariance: nat
    var continueSending: bool
    var earliestTimeout: Time
    var timeoutLimit: nat
    var timeoutMinimum: nat
    var timeoutMaximum: nat

    /** A peer that begins to connect, before its connect command is queued. */
    constructor (channelCount: nat, mtu: nat, windowSize: nat)
      requires 1 <= channelCount <= S.CONTROL && MINIMUM_MTU <= mtu <= MAXIMUM_MTU && 4096 <= windowSize <= 65536
      ensures Valid() && state == Connecting && this.mtu == mtu && this.windowSize == windowSize
      ensures State() == Sender(seq(channelCount, _ => IDLE_CHANNEL), 0, [], [], [], 0)
      ensures acknowledgements == [] && Timeout() == 1 && packetThrottle == 32 && packetThrottleCounter == 0
      ensures timeoutLimit == 32 && timeoutMinimum == 5000 && timeoutMaximum == 30000
    {
      state := Connecting;
      acknowledgements, queue, others, sent := [], [], [], [];
      channels := seq(channelCount, _ => IDLE_CHANNEL);
      lastControl, inTransit := 0, 0;
      this.mtu, this.windowSize := mtu, windowSize;
      packetThrottle, packetThrottleCounter := 32, 0;
      roundTripTime, roundTripTimeVariance := 1, 0;
      continueSending, earliestTimeout := false, 0;
      timeoutLimit, timeoutMinimum, timeoutMaximum := 32, 5000, 30000;
    }

    function State(): Sender
      reads this
    {
      Sender(channels, lastControl, queue, others, sent, inTransit)
    }

    function Timeout(): nat
      reads this
    {
      TimeoutOf(roundTripTime, roundTripTimeVariance)
    }

    /** The most reliable data that may be in flight. */
    function FlightLimit(): nat
      reads this
    {
      FlightOf(packetThrottle, windowSize, mtu)
    }

    ghost predicate Valid()
      reads this
    {
      && ValidState(State(), mtu) && Shaped(State())
      && MINIMUM_MTU <= mtu <= MAXIMUM_MTU && windowSize <= 65536 && packetThrottle <= 32
      && inTransit <= 65536
    }

    /** Throttle and window size bound the reliable data in flight; their product fits 32 bits. */
    lemma FlightIsBounded()
      requires MINIMUM_MTU <= mtu <= MAXIMUM_MTU && windowSize <= 65536 && packetThrottle <= 32
      ensures packetThrottle * windowSize <= 32 * 65536 && FlightLimit() <= 65536
    {
      assert packetThrottle * windowSize <= 32 * windowSize;
    }

    /** The second half of the check in enet_protocol_check_outgoing_commands: with its 16-bit
        casts, is the datagram too full for `x`? */
    predicate NoRoom(d: Datagram, x: OutCommand)
      reads this, d
    {
      || d.commandCount >= MAXIMUM_COMMANDS
      || d.bufferCount + 1 >= MAXIMUM_BUFFERS
      || mtu - d.packetSize < SizeOf(x.load.kind)
      || (x.HasPacket() && (mtu - d.packetSize) % 65536 < (SizeOf(x.load.kind) + x.Length()) % 65536)
    }

    /** The casts lose nothing, and commands run out before buffers do. */
    lemma RoomIsExact(d: Datagram, x: OutCommand)
      requires Valid() && d.Within(mtu) && Fits(x, mtu)
      ensures NoRoom(d, x) <==> d.commandCount >= MAXIMUM_COMMANDS || d.packetSize + WireSize(x) > mtu
    {
    }

    /** A fragment or whole reliable packet joins the queue. */
    method QueueReliable(c: nat, load: Load)
      requires Valid() && c < |channels| && load.packet
      requires SizeOf(load.kind) + load.length + HEADER_SIZE + SizeOf(ACKNOWLEDGE) <= mtu
      modifies `channels, `queue
      ensures Valid() && State() == Enqueue(old(State()), c, load)
    {
      EnqueueOrderly(State(), c, load);
      var number := channels[c].last + 1;
      channels := channels[c := channels[c].(last := number)];
      queue := queue + [OutCommand(c, Wire(number), number, true, 0, 0, 0, load)];
    }

    /** A control command joins the other queue. No packet that waits there has the two numbers
        it gets. */
    method QueueControl(load: Load)
      requires Valid() && !load.packet && load.length == 0
               && SizeOf(load.kind) + HEADER_SIZE + SizeOf(ACKNOWLEDGE) <= mtu
      requires forall y :: y in others && y.HasPacket()
                           ==> y.stored != Wire(lastControl + 1) || y.load.unreliable != load.unreliable
      modifies `lastControl, `others
      ensures Valid() && State() == EnqueueControl(old(State()), load)
    {
      lastControl := lastControl + 1;
      others := others + [OutCommand(CONTROL, Wire(lastControl), lastControl, true, 0, 0, 0, load)];
    }

    /** enet_peer_ping: only a connected peer is pinged. */
    method Ping()
      requires Valid()
      requires state == Connected ==> forall y ::
               y in others && y.HasPacket() ==> y.stored != Wire(lastControl + 1) || y.load.unreliable != 0
      modifies `lastControl, `others
      ensures Valid() && State() == if state == Connected then EnqueueControl(old(State()), PING_LOAD) else old(State())
    {
      if state == Connected {
        QueueControl(PING_LOAD);
      }
    }

    /** enet_protocol_send_acknowledgements: as many of the acknowledgements due as there is room
        for, in order. Acknowledging a disconnect ends the peer's part in the connection. */
    method SendAcknowledgements(d: Datagram)
      requires d.Within(mtu) && MINIMUM_MTU <= mtu
      modifies `acknowledgements, `state, `continueSending, d
      ensures d.Within(mtu) && d.commands == old(d.commands) && d.sentUnreliable == old(d.sentUnreliable)
      ensures |acknowledgements| <= |old(acknowledgements)|
      ensures var n := |old(acknowledgements)| - |acknowledgements|;
              && acknowledgements == old(acknowledgements)[n..]
              && d.acknowledged == old(d.acknowledged) + old(acknowledgements)[..n]
              && state == (if AnyDisconnect(old(acknowledgements)[..n]) then Zombie else old(state))
              && (n == 0 && old(d.Fresh()) ==> d.Fresh())
      ensures continueSending == (old(continueSending) || acknowledgements != [])
      ensures acknowledgements != [] ==> d.commandCount >= MAXIMUM_COMMANDS || mtu - d.packetSize < SizeOf(ACKNOWLEDGE)
      ensures old(acknowledgements) != [] && old(d.Fresh()) ==> |acknowledgements| < |old(acknowledgements)|
    {
      ghost var due, n := acknowledgements, 0;
      assert !AnyDisconnect(due[..0]);
      hide Datagram.Within, AnyDisconnect;
      while acknowledgements != []
        invariant d.Within(mtu) && d.commands == old(d.commands) && d.sentUnreliable == old(d.sentUnreliable)
        invariant n <= |due| && acknowledgements == due[n..] && d.acknowledged == old(d.acknowledged) + due[..n]
        invariant state == (if AnyDisconnect(due[..n]) then Zombie else old(state))
        invariant continueSending == old(continueSending)
        invariant n == 0 ==> d.commandCount == old(d.commandCount) && d.packetSize == old(d.packetSize)
                             && d.bufferCount == old(d.bufferCount)
        decreases |acknowledgements|
      {
        if d.commandCount >= MAXIMUM_COMMANDS || d.bufferCount >= MAXIMUM_BUFFERS
            || mtu - d.packetSize < SizeOf(ACKNOWLEDGE) {
          continueSending := true;
          break;
        }
        d.Acknowledge(acknowledgements[0], mtu);
        if acknowledgements[0].disconnect { state := Zombie; }
        OneMoreDue(due, n);
        acknowledgements, n := acknowledgements[1..], n + 1;
        assert due[..n] == due[..n - 1] + [due[n - 1]];
      }
    }

    /** Where the filling of a datagram, the release of unreliable commands and the handling of
        an acknowledgement end: a peer that waits to disconnect starts to, on its own, once
        nothing is queued or in flight. */
    method EndWait()
      requires Valid()
      modifies `state, `acknowledgements, `channels, `lastControl, `others
      ensures Valid() && State() == AfterWait(old(state), old(State()))
      ensures if old(state == DisconnectLater && Spent(State())) then state == Disconnecting && acknowledgements == []
              else state == old(state) && acknowledgements == old(acknowledgements) && State() == old(State())
    {
      hide ValidState, Shaped;
      AfterWaitValid(state, State(), mtu);
      if state == DisconnectLater && queue == [] && others == [] && sent == [] {
        acknowledgements, channels := [], [];
        lastControl := lastControl + 1;
        others := [OutCommand(CONTROL, Wire(lastControl), lastControl, true, 0, 0, 0, DISCONNECT_LOAD)];
        state := Disconnecting;
        assert others == old(others) + [others[0]];
        assert State() == AfterWait(old(state), old(State()));
      }
    }

    /** Does the reliable queue have to wait? Its head may not enter its window, or too much
        reliable data is in flight. */
    ghost predicate Blocked()
      requires Valid()
      reads this
    {
      queue != [] && (!Admits(State(), queue[0]) || inTransit + queue[0].Length() > FlightLimit())
    }

    method IsBlocked() returns (blocked: bool)
      requires Valid() && queue != []
      ensures blocked == Blocked()
    {
      var x := queue[0];
      blocked := false;
      if x.channel < |channels| && x.attempts < 1 && x.stored % WINDOW_SIZE == 0 {
        blocked := !MayEnter(channels[x.channel], x.WindowIndex());
      }
      if inTransit + x.Length() > FlightLimit() {
        blocked := true;
      }
    }

    method TakeReliable(now: nat) returns (x: OutCommand)
      requires Valid() && queue != [] && inTransit + queue[0].Length() <= FlightLimit()
      modifies `channels, `queue, `sent, `inTransit
      ensures Valid() && x == old(queue[0]) && queue == old(queue[1..])
      ensures State() == SendHead(old(State()), now, Timeout())
    {
      x := queue[0];
      FlightIsBounded();
      SendHeadValid(State(), mtu, now, Timeout());
      channels := Counted(channels, x);
      queue := queue[1..];
      sent := sent + [Transmitted(x, now, Timeout())];
      inTransit := inTransit + x.Length();
    }

    method TakeOther(now: nat) returns (x: OutCommand)
      requires Valid() && others != []
      modifies `others, `sent, `inTransit
      ensures Valid() && x == old(others[0])
      ensures State() == SendOther(old(State()), now, Timeout()) && inTransit == old(inTransit)
    {
      x := others[0];
      SendOtherValid(State(), mtu, now, Timeout());
      others := others[1..];
      if x.reliable {
        sent := sent + [Transmitted(x, now, Timeout())];
        inTransit := inTransit + x.Length();
      }
    }

    /** The throttle counter moves on for the first command of an unreliable packet; is the
        packet to be dropped? */
    method Throttle(x: OutCommand) returns (drop: bool)
      requires !x.reliable
      modifies `packetThrottleCounter
      ensures packetThrottleCounter == Counter(x, old(packetThrottleCounter))
      ensures drop == IsDropped(x, old(packetThrottleCounter), packetThrottle)
    {
      drop := false;
      if x.HasPacket() && x.load.offset == 0 && !x.load.unthrottled {
        packetThrottleCounter := (packetThrottleCounter + 7) % 32;
        drop := packetThrottleCounter > packetThrottle;
      }
    }

    /** Drops the packet at the head of the other queue: its command and those that follow it
        with the same two numbers. */
    method DropRun() returns (dropped: nat)
      requires Valid() && others != [] && others[0].HasPacket()
      modifies `others
      ensures Valid() && IsRun(old(others), dropped) && others == old(others)[dropped..]
    {
      var x := others[0];
      ghost var s, before := State(), others;
      hide ValidState;
      SeparableFrom(s, mtu, x);
      others := others[1..];
      dropped := 1;
      while others != [] && SamePacket(x, others[0])
        invariant 1 <= dropped <= |before| && others == before[dropped..]
        invariant forall i :: 0 <= i < dropped ==> SamePacket(x, before[i]) && before[i].HasPacket()
        decreases |others|
      {
        assert others[0] == before[dropped];
        others := others[1..];
        dropped := dropped + 1;
      }
      DropValid(s, mtu, dropped);
    }

    /** What the datagram is filled from, and what is in it. */
    ghost function Stage(d: Datagram): Filling
      reads this, d
    {
      Filling(State(), packetThrottleCounter, d.commands, d.sentUnreliable)
    }

    function RulesAt(now: nat): Rules
      reads this
    {
      Rules(now, Timeout(), packetThrottle, FlightLimit())
    }

    /** What is due does not fit. */
    ghost predicate Full(d: Datagram)
      requires Shaped(State()) && IsDue(State(), FlightLimit())
      reads this, d
    {
      NoRoomIn(d, DueHead(State(), FlightLimit()), mtu)
    }

    /** The reliable queue's turn: its head goes out, unless it is blocked or finds no room. */
    method AdvanceQueue(d: Datagram, now: nat) returns (blocked: bool, full: bool)
      requires Valid() && d.Within(mtu) && WasFirst(State())
      modifies `channels, `queue, `sent, `inTransit, d
      ensures Valid() && d.Within(mtu) && d.Extends(old(d.commands), old(d.acknowledged))
      ensures blocked == old(Blocked())
      ensures blocked || full ==> Stage(d) == old(Stage(d)) && !(blocked && full)
      ensures full ==> IsDue(State(), FlightLimit()) && Full(d)
      ensures !blocked && !full ==>
                Allowed(old(Stage(d)), SendsQueued, RulesAt(now))
                && Stage(d) == AfterTurn(old(Stage(d)), SendsQueued, RulesAt(now))
      ensures full ==> !d.Fresh()
      ensures (blocked || full) && old(d.Fresh()) ==> d.Fresh()
    {
      hide MayEnter, WireSizes, Buffers, SendHead, Numbered, WellKinded, AttemptedFirst, AllAttempted, TotalLength,
           Separable;
      full := false;
      blocked := IsBlocked();
      if !blocked {
        RoomIsExact(d, queue[0]);
        if NoRoom(d, queue[0]) {
          full := true;
        } else {
          d.Emit(queue[0], mtu);
          var _ := TakeReliable(now);
        }
      }
    }

    /** Sends the head of the other queue. */
    method SendOtherHead(d: Datagram, now: nat)
      requires Valid() && d.Within(mtu) && others != []
      requires d.commandCount < MAXIMUM_COMMANDS && d.packetSize + WireSize(others[0]) <= mtu
      modifies `others, `sent, `inTransit, d
      ensures Valid() && d.Within(mtu) && d.Extends(old(d.commands), old(d.acknowledged))
      ensures State() == SendOther(old(State()), now, Timeout()) && inTransit == old(inTransit)
      ensures d.commands == old(d.commands) + [old(others[0])]
      ensures var x := old(others[0]);
              d.sentUnreliable == old(d.sentUnreliable) + if !x.reliable && x.HasPacket() then [x] else []
    {
      d.Emit(others[0], mtu);
      if !others[0].reliable && others[0].HasPacket() {
        d.Release(others[0]);
      }
      var _ := TakeOther(now);
    }

    ghost predicate OnlyOthersChange(before: Sender)
      reads this
    {
      |others| < |before.others| && queue == before.queue && channels == before.channels
          && inTransit == before.inTransit
    }

    /** The other queue's turn: its head goes out, or an unreliable packet is dropped whole. */
    method AdvanceOthers(d: Datagram, now: nat) returns (full: bool, ghost turn: Turn)
      requires Valid() && d.Within(mtu) && others != [] && !QueueIsDue(State(), FlightLimit())
      modifies `others, `sent, `inTransit, `packetThrottleCounter, d
      ensures Valid() && d.Within(mtu) && d.Extends(old(d.commands), old(d.acknowledged))
      ensures full ==> Stage(d) == old(Stage(d)) && IsDue(State(), FlightLimit()) && Full(d) && !d.Fresh()
      ensures !full ==> Allowed(old(Stage(d)), turn, RulesAt(now))
                        && Stage(d) == AfterTurn(old(Stage(d)), turn, RulesAt(now))
      ensures !full ==> OnlyOthersChange(old(State()))
    {
      hide MayEnter, WireSizes, Buffers, Numbered, WellKinded, AttemptedFirst, AllAttempted, TotalLength, QueueIsDue;
      full, turn := false, SendsOther;
      RoomIsExact(d, others[0]);
      if NoRoom(d, others[0]) {
        full := true;
        return;
      }
      var drop := false;
      if !others[0].reliable {
        drop := Throttle(others[0]);
      }
      if drop {
        var dropped := DropRun();
        turn := Drops(dropped);
      } else {
        SendOtherHead(d, now);
      }
    }

    /** enet_protocol_check_outgoing_commands: fills the datagram, and ends the wait of a peer that
        has nothing left to send. */
    method CheckOutgoing(d: Datagram, now: nat) returns (canPing: bool, ghost r: Batch, ghost moves: seq<Move>)
      requires Valid() && d.Within(mtu)
      modifies `channels, `queue, `others, `sent, `inTransit, `packetThrottleCounter, `continueSending, d
      modifies `state, `acknowledgements, `lastControl
      ensures Valid() && d.Within(mtu) && d.Extends(old(d.commands), old(d.acknowledged))
      ensures Goes(old(Stage(d)), old(state), r, RulesAt(now))
      ensures r.filled == Filling(r.filled.sender, packetThrottleCounter, d.commands, d.sentUnreliable)
      ensures State() == r.sender && state == r.state
      ensures acknowledgements == if state == old(state) then old(acknowledgements) else []
      ensures canPing <==> CanPing(r, |old(d.commands)|, FlightLimit())
      ensures continueSending == (old(continueSending) || IsDue(r.filled.sender, FlightLimit()))
      ensures IsDue(r.filled.sender, FlightLimit()) ==> NoRoomIn(d, DueHead(r.filled.sender, FlightLimit()), mtu)
      ensures SentIsPut(old(sent), r.filled.sender.sent, old(d.commands), d.commands, now, Timeout())
      ensures Plays(old(State()), r.filled.sender, moves, now, Timeout())
      ensures !continueSending ==>
                r.filled.sender.others == [] && (r.filled.sender.queue == []
                    || (State() == r.filled.sender && Blocked()))
      ensures continueSending && !old(continueSending) && old(d.Fresh()) ==> moves != []
      ensures old(d.Fresh()) && moves == [] ==> d.Fresh()
    {
      hide ValidState, Plays, WireSizes, Buffers, Datagram.Within, Datagram.Fresh, Datagram.Extends, AfterWait, Fills,
           SentIsPut, MovesOf, NoneReliable, DueHead, Admits;
      ghost var turns;
      canPing, turns, moves := Fill(d, now);
      ghost var filled := Stage(d);
      if d.sentUnreliable == [] {
        EndWait();
      }
      r := Batch(turns, filled, State(), state);
      AfterWaitIs(old(state), filled.sender);
    }

    /** The loop that fills the datagram from the two queues, in the order in which commands were
        queued. It stops when nothing is due, or when what is due does not fit, and then asks for
        another pass. `canPing` says that no reliable command was due. */
    method Fill(d: Datagram, now: nat) returns (canPing: bool, ghost turns: seq<Turn>, ghost moves: seq<Move>)
      requires Valid() && d.Within(mtu)
      modifies `channels, `queue, `others, `sent, `inTransit, `packetThrottleCounter, `continueSending, d
      ensures Valid() && d.Within(mtu) && d.Extends(old(d.commands), old(d.acknowledged))
      ensures Fills(old(Stage(d)), Stage(d), turns, RulesAt(now))
      ensures SentIsPut(old(sent), sent, old(d.commands), d.commands, now, Timeout())
      ensures moves == MovesOf(turns) && Plays(old(State()), State(), moves, now, Timeout())
      ensures if IsDue(State(), FlightLimit()) then continueSending && Full(d)
              else continueSending == old(continueSending)
      ensures canPing <==> NoneReliable(d.commands[|old(d.commands)|..]) && !ReliableIsDue(State(), FlightLimit())
      ensures !continueSending ==> others == [] && (queue == [] || Blocked())
      ensures continueSending && !old(continueSending) && old(d.Fresh()) ==> moves != []
      ensures old(d.Fresh()) && moves == [] ==> d.Fresh()
    {
      hide ValidState, Plays, MayEnter, WireSizes, Buffers, SendHead, SendOther, Orderly, Datagram.Within,
           Datagram.Fresh, Fills, SentIsPut, MovesOf, NoneReliable, Admits, DueHead;
      ghost var start := Stage(d);
      ValidIsOrderly(State(), mtu);
      canPing, turns := true, [];
      var blocked, full := false, false;
      FillsNothing(start, RulesAt(now));
      assert d.commands[|d.commands|..] == [];
      NoneReliableAtFirst();
      while !full && (others != [] || (!blocked && queue != []))
        invariant Valid() && d.Within(mtu) && d.Extends(old(d.commands), old(d.acknowledged))
        invariant start == old(Stage(d)) && Fills(start, Stage(d), turns, RulesAt(now))
        invariant canPing <==> NoneReliable(d.commands[|old(d.commands)|..])
                               && !(full && ReliableIsDue(State(), FlightLimit()))
        invariant blocked ==> Blocked()
        invariant old(d.Fresh()) && turns == [] ==> d.Fresh()
        invariant full ==> !d.Fresh() && IsDue(State(), FlightLimit()) && Full(d)
        modifies `channels, `queue, `others, `sent, `inTransit, `packetThrottleCounter, d
        decreases |queue| + |others|, !blocked, !full
      {
        var due: bool;
        blocked, full, due, turns := TakeTurn(d, now, blocked, start, turns, |old(d.commands)|);
        canPing := canPing && !due;
      }
      if full {
        continueSending := true;
      }
      moves := MovesOf(turns);
      FillComesTo(start, Stage(d), turns, RulesAt(now));
    }

    /** One turn of that loop, added to the `turns` taken since `start`. */
    method TakeTurn(d: Datagram, now: nat, blocked: bool, ghost start: Filling, ghost turns: seq<Turn>, ghost from: nat)
      returns (blocked': bool, full: bool, due: bool, ghost turns': seq<Turn>)
      requires Valid() && d.Within(mtu) && (others != [] || (!blocked && queue != [])) && (blocked ==> Blocked())
      requires Shaped(start.sender) && Fills(start, Stage(d), turns, RulesAt(now)) && from <= |d.commands|
      modifies `channels, `queue, `others, `sent, `inTransit, `packetThrottleCounter, d
      ensures Valid() && d.Within(mtu) && d.Extends(old(d.commands), old(d.acknowledged))
      ensures Fills(start, Stage(d), turns', RulesAt(now))
      ensures blocked' ==> Blocked()
      ensures full ==> !d.Fresh() && IsDue(State(), FlightLimit()) && Full(d)
      ensures NoneReliable(d.commands[from..]) && !(full && ReliableIsDue(State(), FlightLimit())) <==>
                NoneReliable(old(d.commands)[from..]) && !due
      ensures old(d.Fresh()) && turns' == [] ==> d.Fresh()
      ensures turns' == [] ==> turns == []
      ensures |queue| + |others| < |old(queue)| + |old(others)|
           || (State() == old(State()) && (if blocked then blocked' && full else blocked' || full))
    {
      hide ValidState, WireSizes, Buffers, Orderly, Fills, NoneReliable, Admits, DueHead, SendHead, SendOther,
           AfterTurn;
      ghost var before, commands := Stage(d), d.commands;
      ghost var more;
      blocked', full, due, more := Advance(d, now, blocked);
      FillsAppend(start, before, Stage(d), turns, more, RulesAt(now));
      turns' := turns + more;
      NoneReliableMore(commands, d.commands, from);
    }

    /** What a turn does. `due` says that a reliable command was due. */
    method Advance(d: Datagram, now: nat, blocked: bool)
      returns (blocked': bool, full: bool, due: bool, ghost turns: seq<Turn>)
      requires Valid() && d.Within(mtu) && (others != [] || (!blocked && queue != [])) && (blocked ==> Blocked())
      modifies `channels, `queue, `others, `sent, `inTransit, `packetThrottleCounter, d
      ensures Valid() && d.Within(mtu) && d.Extends(old(d.commands), old(d.acknowledged))
      ensures Fills(old(Stage(d)), Stage(d), turns, RulesAt(now))
      ensures blocked' ==> Blocked()
      ensures full ==> !d.Fresh() && IsDue(State(), FlightLimit()) && Full(d) && d.commands == old(d.commands)
                       && due == ReliableIsDue(State(), FlightLimit())
      ensures !full ==> old(d.commands) <= d.commands && (due <==> !NoneReliable(d.commands[|old(d.commands)|..]))
      ensures old(d.Fresh()) && turns == [] ==> d.Fresh()
      ensures |queue| + |others| < |old(queue)| + |old(others)|
           || (State() == old(State()) && turns == [] && (if blocked then blocked' && full else blocked' || full))
    {
      hide ValidState, MayEnter, WireSizes, Buffers, SendHead, SendOther, Orderly, Fills, Allowed, AfterTurn,
           NoneReliable;
      blocked', due, turns := blocked, false, [];
      ghost var before := Stage(d);
      ValidIsOrderly(State(), mtu);
      FillsNothing(before, RulesAt(now));
      assert d.commands[|d.commands|..] == [];
      NoneReliableAtFirst();
      if !blocked && WasFirst(State()) {
        if MayGo(State(), FlightLimit()) { QueuedIsReliable(State(), mtu, FlightLimit()); }
        blocked', full := AdvanceQueue(d, now);
        due := !blocked';
        if due && !full {
          turns := [SendsQueued];
          FillsOne(before, SendsQueued, RulesAt(now));
          TurnGoesOn(before, SendsQueued, RulesAt(now));
        }
      } else {
        due := others[0].reliable;
        ghost var turn;
        full, turn := AdvanceOthers(d, now);
        if !full {
          turns := [turn];
          FillsOne(before, turn, RulesAt(now));
          TurnGoesOn(before, turn, RulesAt(now));
        }
      }
    }

    // -------------------------------------------------------------- timeouts

    /** One turn of the loop below, for the command at `current`. */
    method CheckOne(ghost start: Sender, ghost before: Time, ghost done: nat, now: Time, current: nat, queueAt: nat,
                    othersAt: nat)
      returns (gaveUp: bool, current': nat, queueAt': nat, othersAt': nat)
      requires Scanned(start, State(), done, current, queueAt, othersAt, Expired(now), Timeout()) && current < |sent|
      requires done < |start.sent| && |sent| - current == |start.sent| - done
      requires earliestTimeout == Earliest(start.sent[..done], Expired(now), before)
      modifies `queue, `others, `sent, `inTransit, `earliestTimeout
      ensures earliestTimeout == Earliest(start.sent[..done + 1], Expired(now), before)
      ensures gaveUp <==> GivesUp(start.sent, done, Expired(now), now, before, Limits())
      ensures gaveUp ==> State() == old(State())
      ensures !gaveUp ==> current' <= |sent| && |sent| - current' == |start.sent| - (done + 1)
      ensures !gaveUp ==> Scanned(start, State(), done + 1, current', queueAt', othersAt', Expired(now), Timeout())
    {
      var expired, timeout := Expired(now), Timeout();
      gaveUp, current', queueAt', othersAt' := false, current, queueAt, othersAt;
      ScanSees(start, State(), done, current, queueAt, othersAt, expired, timeout);
      EarliestMore(start.sent, done, expired, before);
      hide Scanned, TakenBack, Earliest;
      var x := sent[current];
      if !expired(x) {
        ScanKeeps(start, State(), done, current, queueAt, othersAt, expired, timeout);
        current' := current + 1;
      } else {
        NoteTimeout(x);
        if HasGivenUp(now, x, earliestTimeout, Limits()) {
          gaveUp := true;
          return;
        }
        ScanTakes(start, State(), done, current, queueAt, othersAt, expired, timeout);
        if x.HasPacket() {
          TakeBack(current, queueAt, timeout);
          queueAt' := queueAt + 1;
        } else {
          TakeBack(current, othersAt, timeout);
          othersAt' := othersAt + 1;
        }
      }
    }

    /** enet_protocol_check_timeouts. Takes every command that has waited too long out of the
        in-flight list and puts it back at the front of its queue, in order; or gives the
        connection up at the first command, `at`, for which the limits are exceeded, and then the
        application hears of it at once if `event`, or later. */
    method CheckTimeouts(now: Time, event: bool) returns (gaveUp: bool, ghost at: nat)
      requires Valid() && ControlApart(State())
      modifies `queue, `others, `sent, `inTransit, `earliestTimeout, `state, `acknowledgements, `channels, `lastControl
      ensures Checked(old(sent), old(earliestTimeout), earliestTimeout, at, now, Limits())
              && (gaveUp <==> at < |old(sent)|)
      ensures !gaveUp ==> Valid() && State() == Requeue(old(State()), Expired(now), Timeout())
      ensures !gaveUp ==> state == old(state) && acknowledgements == old(acknowledgements)
      ensures gaveUp ==> state == old(state).Lost(event)
      ensures gaveUp && state == Disconnected ==> acknowledgements == [] && State() == Sender([], 0, [], [], [], 0)
      ensures gaveUp && state != Disconnected ==>
                acknowledgements == old(acknowledgements)
                && Progress(old(State()), State(), old(sent)[..at], old(sent)[at..], Expired(now), Timeout())
    {
      hide ValidState, Requeue, ControlApart, Checked, Progress;
      gaveUp, at := ScanTimeouts(now);
      if gaveUp {
        Lose(event);
      }
    }

    /** The loop over the in-flight list. */
    method ScanTimeouts(now: Time) returns (gaveUp: bool, ghost at: nat)
      requires Valid() && ControlApart(State())
      modifies `queue, `others, `sent, `inTransit, `earliestTimeout
      ensures Checked(old(sent), old(earliestTimeout), earliestTimeout, at, now, Limits())
              && (gaveUp <==> at < |old(sent)|)
      ensures !gaveUp ==> Valid() && State() == Requeue(old(State()), Expired(now), Timeout())
      ensures gaveUp ==> Progress(old(State()), State(), old(sent)[..at], old(sent)[at..], Expired(now), Timeout())
    {
      hide ValidState, Scanned, TakenBack, Requeue, ControlApart, Expired, Earliest, GivesUp, Progress;
      ghost var start, before := State(), earliestTimeout;
      ghost var done: nat, limits := 0, Limits();
      var current: nat, queueAt: nat, othersAt: nat := 0, 0, 0;
      gaveUp := false;
      ScanBegins(start, Expired(now), Timeout());
      RequeueValid(start, mtu, Expired(now), Timeout());
      EarliestAtFirst(start.sent, Expired(now), before);
      while current < |sent|
        invariant start == old(State()) && done <= |start.sent| && |sent| - current == |start.sent| - done
        invariant Scanned(start, State(), done, current, queueAt, othersAt, Expired(now), Timeout())
        invariant earliestTimeout == Earliest(start.sent[..done], Expired(now), before)
        invariant limits == Limits()
        invariant forall i :: 0 <= i < done ==> !GivesUp(start.sent, i, Expired(now), now, before, limits)
        invariant current <= |sent|
        decreases |start.sent| - done
      {
        ghost var c, q, o := current, queueAt, othersAt;
        gaveUp, current, queueAt, othersAt := CheckOne(start, before, done, now, current, queueAt, othersAt);
        if gaveUp {
          at := done;
          ScannedIsProgress(start, State(), done, c, q, o, Expired(now), Timeout());
          assert start.sent == old(sent);
          return;
        }
        done := done + 1;
      }
      at := done;
      assert start.sent[..done] == start.sent;
      ScanEnds(start, State(), done, current, queueAt, othersAt, Expired(now), Timeout());
    }

    /** The peer's part in enet_protocol_notify_disconnect_timeout: it is reset, or keeps what it
        has until the application hears of the loss. */
    method Lose(event: bool)
      modifies `state, `acknowledgements, `channels, `lastControl, `queue, `others, `sent, `inTransit
      ensures state == old(state).Lost(event)
      ensures if state == Disconnected then acknowledgements == [] && State() == Sender([], 0, [], [], [], 0)
              else acknowledgements == old(acknowledgements) && State() == old(State())
    {
      state := state.Lost(event);
      if state == Disconnected {
        acknowledgements, channels, lastControl, queue, others, sent, inTransit := [], [], 0, [], [], [], 0;
      }
    }

    method NoteTimeout(x: OutCommand)
      modifies `earliestTimeout
      ensures earliestTimeout == Earlier(old(earliestTimeout), x)
    {
      if earliestTimeout == 0 || TimeLess(x.sentTime % TIME_RANGE, earliestTimeout) {
        earliestTimeout := x.sentTime % TIME_RANGE;
      }
    }

    method TakeBack(current: nat, at: nat, timeout: nat)
      requires current < |sent| && at <= |if sent[current].HasPacket() then queue else others|
      modifies `queue, `others, `sent, `inTransit
      ensures State() == TakenBack(old(State()), current, at, timeout)
    {
      var x := sent[current];
      sent := Without(sent, current);
      if x.HasPacket() {
        inTransit := inTransit - x.Length();
        queue := WithAt(queue, at, x.(timeout := timeout));
      } else {
        others := WithAt(others, at, x.(timeout := timeout));
      }
    }

    function Limits(): Patience
      reads this
    {
      Patience(timeoutLimit, timeoutMinimum, timeoutMaximum)
    }

    // -------------------------------------------------------------- round-trip times

    /** The smoothing in enet_protocol_handle_acknowledge of a time measured now; `first` says
        that nothing was received before. The smoothed time goes an eighth of the way to the measured
        one, so it stays a millisecond at least, and so does the timeout; the variance goes a quarter of
        the way to the difference, or, when the time falls by more than that, a thirty-second. */
    method SmoothRoundTrip(elapsed: nat, first: bool)
      requires roundTripTime >= 1
      modifies `roundTripTime, `roundTripTimeVariance
      ensures var measured := Max(elapsed, 1);
              if first then roundTripTime == measured && roundTripTimeVariance == measured / 2
              else Smoothed(old(roundTripTime), old(roundTripTimeVariance), measured, roundTripTime,
                  roundTripTimeVariance)
      ensures roundTripTime >= 1 && Timeout() > 0
    {
      hide Smoothed, Apart;
      var measured := if elapsed == 0 then 1 else elapsed;
      assert measured == Max(elapsed, 1);
      if first {
        roundTripTime, roundTripTimeVariance := measured, measured / 2;
      } else if measured >= roundTripTime {
        var diff := measured - roundTripTime;
        Rises(roundTripTime, roundTripTimeVariance, measured, diff);
        roundTripTimeVariance := roundTripTimeVariance - roundTripTimeVariance / 4 + diff / 4;
        roundTripTime := roundTripTime + diff / 8;
      } else {
        var diff := roundTripTime - measured;
        Falls(roundTripTime, roundTripTimeVariance, measured, diff);
        if diff <= roundTripTimeVariance {
          roundTripTimeVariance := roundTripTimeVariance - roundTripTimeVariance / 4 + diff / 4;
        } else {
          roundTripTimeVariance := roundTripTimeVariance - roundTripTimeVariance / 32 + diff / 32;
        }
        roundTripTime := roundTripTime - diff / 8;
      }
    }

    // -------------------------------------------------------------- acknowledgements

    /** enet_protocol_find_sent_reliable_command. */
    static method FindIn(list: seq<OutCommand>, stored: Word16, c: nat) returns (i: nat)
      ensures i == FindQueued(list, stored, c)
    {
      i := 0;
      assert list[0..] == list;
      while i < |list|
        invariant i <= |list| && FindQueued(list, stored, c) == i + FindQueued(list[i..], stored, c)
      {
        assert list[i..][1..] == list[i + 1..];
        var x := list[i];
        if x.reliable {
          if x.attempts < 1 {
            return |list|;
          }
          if x.Matches(stored, c) {
            return;
          }
        }
        i := i + 1;
      }
    }

    /** The search of the in-flight list. */
    static method FindInFlight(sent: seq<OutCommand>, stored: Word16, c: nat) returns (i: nat)
      ensures i == FindSent(sent, stored, c)
    {
      i := 0;
      assert sent[0..] == sent;
      while i < |sent| && !sent[i].Matches(stored, c)
        invariant i <= |sent| && FindSent(sent, stored, c) == i + FindSent(sent[i..], stored, c)
      {
        assert sent[i..][1..] == sent[i + 1..];
        i := i + 1;
      }
    }

    /** enet_protocol_remove_sent_reliable_command: `kind` is that of the command taken out, 0 for
        none. */
    method RemoveSent(stored: Word16, c: nat) returns (kind: nat)
      requires Valid()
      modifies `channels, `queue, `others, `sent, `inTransit
      ensures Valid() && State() == Acknowledge(old(State()), stored, c)
      ensures kind == SettledKind(old(State()), stored, c)
    {
      kind := 0;
      hide ValidState, Orderly, TakeSent, S.TakeOther, TakeQueued;
      AcknowledgeValid(State(), mtu, stored, c);
      var i := FindInFlight(sent, stored, c);
      if i < |sent| {
        kind := sent[i].load.kind;
        SettleSent(i);
        return;
      }
      var k := FindIn(others, stored, c);
      if k < |others| {
        kind := others[k].load.kind;
        SettleOther(k);
        return;
      }
      var j := FindIn(queue, stored, c);
      if j < |queue| {
        kind := queue[j].load.kind;
        SettleQueued(j);
      }
    }

    method SettleSent(i: nat)
      requires Shaped(State()) && i < |sent|
      modifies `channels, `sent, `inTransit
      ensures State() == TakeSent(old(State()), i)
    {
      var x := sent[i];
      channels := Settled(channels, x.stored, x.channel);
      if x.HasPacket() {
        inTransit := inTransit - x.Length();
      }
      sent := Without(sent, i);
    }

    method SettleOther(k: nat)
      requires Shaped(State()) && k < |others|
      modifies `channels, `others
      ensures State() == S.TakeOther(old(State()), k)
    {
      channels := Settled(channels, others[k].stored, others[k].channel);
      others := Without(others, k);
    }

    method SettleQueued(j: nat)
      requires Shaped(State()) && j < |queue|
      modifies `channels, `queue
      ensures State() == TakeQueued(old(State()), j)
    {
      channels := Settled(channels, queue[j].stored, queue[j].channel);
      queue := Without(queue, j);
    }
  }

  // ---------------------------------------------------------------- when a connection is given up

  /** The command has waited too long for its acknowledgement. */
  function Expired(now: Time): OutCommand -> bool {
    (x: OutCommand) => TimeDifference(now, x.sentTime % TIME_RANGE) >= x.timeout
  }

  /** The earlier of the time noted, 0 for none, and the time `x` was sent. */
  function Earlier(noted: Time, x: OutCommand): Time {
    if noted == 0 || TimeLess(x.sentTime % TIME_RANGE, noted) then x.sentTime % TIME_RANGE else noted
  }

  /** The time noted after the expired commands of `q` were looked at. */
  function Earliest(q: seq<OutCommand>, expired: OutCommand -> bool, before: Time): Time {
    if q == [] then before
    else
      var noted, x := Earliest(q[..|q| - 1], expired, before), q[|q| - 1];
      if expired(x) then Earlier(noted, x) else noted
  }

  /** The limits of a connection: a bound on powers of two that count attempts, and the least and
      greatest time since the first loss. */
  datatype Patience = Patience(limit: nat, minimum: nat, maximum: nat)

  /** Command `x` exceeds them, if `earliest` is the time of the first loss. */
  predicate HasGivenUp(now: Time, x: OutCommand, earliest: Time, p: Patience) {
    && earliest != 0
    && (TimeDifference(now, earliest) >= p.maximum
        || (PowerOfTwo((x.attempts + 31) % 32) >= p.limit && TimeDifference(now, earliest) >= p.minimum))
  }

  /** Command `i` in flight does; `before` is the time noted when the check began. */
  predicate GivesUp(sent: seq<OutCommand>, i: nat, expired: OutCommand -> bool, now: Time, before: Time, p: Patience)
    requires i < |sent|
  {
    expired(sent[i]) && HasGivenUp(now, sent[i], Earliest(sent[..i + 1], expired, before), p)
  }

  /** The check notes `noted'`, and gives up at command `at`; or, if that is no command, at none. */
  ghost predicate Checked(sent: seq<OutCommand>, noted: Time, noted': Time, at: nat, now: Time, p: Patience) {
    && at <= |sent|
    && (at < |sent| ==> GivesUp(sent, at, Expired(now), now, noted, p))
    && (forall i :: 0 <= i < at ==> !GivesUp(sent, i, Expired(now), now, noted, p))
    && noted' == Earliest(sent[..if at < |sent| then at + 1 else at], Expired(now), noted)
  }

  lemma EarliestMore(q: seq<OutCommand>, i: nat, expired: OutCommand -> bool, before: Time)
    requires i < |q|
    ensures Earliest(q[..i + 1], expired, before)
            == if expired(q[i]) then Earlier(Earliest(q[..i], expired, before), q[i])
                else Earliest(q[..i], expired, before)
  {
    assert q[..i + 1][..i] == q[..i];
  }

  lemma EarliestAtFirst(q: seq<OutCommand>, expired: OutCommand -> bool, before: Time)
    ensures Earliest(q[..0], expired, before) == before
  {
  }

  /** Of two times in the last day the program's comparison tells which is longer ago. */
  lemma TimeLessIsOlder(now: Time, a: Time, b: Time)
    requires Since(now, a) < TIME_OVERFLOW && Since(now, b) < TIME_OVERFLOW
    ensures TimeLess(a, b) <==> Since(now, a) > Since(now, b)
    ensures TimeDifference(now, a) == Since(now, a)
  {
    SinceIs(now, a);
    SinceIs(now, b);
    SinceIs(a, b);
  }

  lemma SinceIs(a: Time, b: Time)
    ensures Since(a, b) == if a >= b then a - b else a + TIME_RANGE - b
  {
  }

  /** All that is in flight was sent in the last day, and so was what is noted, if anything is; and
      nothing at time 0, which stands for none. */
  predicate AllPast(q: seq<OutCommand>, now: Time, before: Time) {
    && (before != 0 ==> Since(now, before) < TIME_OVERFLOW)
    && forall i :: 0 <= i < |q| ==> Since(now, q[i].sentTime % TIME_RANGE) < TIME_OVERFLOW
                                    && q[i].sentTime % TIME_RANGE != 0
  }

  /** The time noted is the earliest: of the one noted before, and those of the expired commands;
      and it is one of these. */
  lemma {:induction false} EarliestIsOldest(q: seq<OutCommand>, expired: OutCommand -> bool, now: Time, before: Time)
    requires AllPast(q, now, before)
    ensures var e := Earliest(q, expired, before);
            && (e != 0 ==> Since(now, e) < TIME_OVERFLOW)
            && (before != 0 ==> e != 0 && Since(now, before) <= Since(now, e))
            && (forall i :: 0 <= i < |q| && expired(q[i]) ==>
                  e != 0 && Since(now, q[i].sentTime % TIME_RANGE) <= Since(now, e))
            && (e == before || exists i :: 0 <= i < |q| && expired(q[i]) && e == q[i].sentTime % TIME_RANGE)
  {
    if q != [] {
      var n := |q| - 1;
      EarliestIsOldest(q[..n], expired, now, before);
      var e := Earliest(q[..n], expired, before);
      if expired(q[n]) && e != 0 { TimeLessIsOlder(now, q[n].sentTime % TIME_RANGE, e); }
    }
  }

  /** Nothing is given up while all that expired was sent less than both limits ago. */
  lemma RecentIsKept(sent: seq<OutCommand>, i: nat, expired: OutCommand -> bool, now: Time, before: Time,
                       p: Patience)
    requires AllPast(sent, now, before) && before == 0 && i < |sent|
    requires forall k :: 0 <= k < |sent| && expired(sent[k]) ==>
               Since(now, sent[k].sentTime % TIME_RANGE) < Min(p.minimum, p.maximum)
    ensures !GivesUp(sent, i, expired, now, before, p)
  {
    var q := sent[..i + 1];
    assert AllPast(q, now, 0);
    EarliestIsOldest(q, expired, now, 0);
    var e := Earliest(q, expired, 0);
    if e != 0 {
      var k :| 0 <= k < |q| && expired(q[k]) && e == q[k].sentTime % TIME_RANGE;
      assert sent[k] == q[k];
      TimeLessIsOlder(now, e, e);
    }
  }

  /** A command in flight, expired and sent the maximum or longer ago, ends the connection, at the
      latest when it is looked at. */
  lemma OldIsGivenUp(sent: seq<OutCommand>, i: nat, expired: OutCommand -> bool, now: Time, before: Time,
                       p: Patience)
    requires AllPast(sent, now, before) && i < |sent| && expired(sent[i])
    requires Since(now, sent[i].sentTime % TIME_RANGE) >= p.maximum
    ensures GivesUp(sent, i, expired, now, before, p)
  {
    var q := sent[..i + 1];
    assert AllPast(q, now, before) && q[i] == sent[i];
    EarliestIsOldest(q, expired, now, before);
    var e := Earliest(q, expired, before);
    TimeLessIsOlder(now, e, e);
  }

  /** So does one sent so often that its count of attempts meets the limit, once the first loss is
      the minimum ago. */
  lemma OftenSentIsGivenUp(sent: seq<OutCommand>, i: nat, expired: OutCommand -> bool, now: Time, before: Time,
                       p: Patience)
    requires AllPast(sent, now, before) && i < |sent| && expired(sent[i])
    requires PowerOfTwo((sent[i].attempts + 31) % 32) >= p.limit
    requires Since(now, sent[i].sentTime % TIME_RANGE) >= p.minimum
          || (before != 0 && Since(now, before) >= p.minimum)
    ensures GivesUp(sent, i, expired, now, before, p)
  {
    var q := sent[..i + 1];
    assert AllPast(q, now, before) && q[i] == sent[i];
    EarliestIsOldest(q, expired, now, before);
    var e := Earliest(q, expired, before);
    TimeLessIsOlder(now, e, e);
  }

  function PowerOfTwo(n: nat): nat { if n == 0 then 1 else 2 * PowerOfTwo(n - 1) }

  function Apart(a: nat, b: nat): nat { if a <= b then b - a else a - b }

  predicate Between(a: nat, x: nat, b: nat) { a <= x <= b || b <= x <= a }

  /** The smoothed time goes an eighth of the way to the `measured` one; the variance goes a quarter of the
      way to the difference, or, when the time falls by more than that, a thirty-second. */
  predicate Smoothed(time: nat, variance: nat, measured: nat, time': nat, variance': nat) {
    var diff := Apart(measured, time);
    var part := if measured < time && diff > variance then 32 else 4;
    && Between(time, time', measured) && Apart(time, time') == diff / 8
    && Between(variance, variance', diff) && variance' == variance - variance / part + diff / part
  }

  lemma Rises(time: nat, variance: nat, measured: nat, diff: nat)
    requires 1 <= time <= measured && diff == measured - time
    ensures Smoothed(time, variance, measured, time + diff / 8, variance - variance / 4 + diff / 4)
  {
  }

  lemma Falls(time: nat, variance: nat, measured: nat, diff: nat)
    requires 1 <= measured < time && diff == time - measured
    ensures time - diff / 8 >= 1
    ensures diff <= variance
            ==> Smoothed(time, variance, measured, time - diff / 8, variance - variance / 4 + diff / 4)
    ensures diff > variance
            ==> Smoothed(time, variance, measured, time - diff / 8, variance - variance / 32 + diff / 32)
  {
  }

  /** Part way through the timeout check: `done` has been looked at, `left` has not. */
  ghost predicate Progress(s: Sender, s': Sender, done: seq<OutCommand>, left: seq<OutCommand>,
                           expired: OutCommand -> bool, timeout: nat)
  {
    && s'.channels == s.channels && s'.lastControl == s.lastControl
    && s'.queue == Retimed(Picked(done, expired, true), timeout) + s.queue
    && s'.others == Retimed(Picked(done, expired, false), timeout) + s.others
    && s'.sent == Kept(done, expired) + left
    && s'.inTransit == s.inTransit - TotalLength(Picked(done, expired, true))
  }


  lemma {:induction false} PickedAppend(done: seq<OutCommand>, x: OutCommand, expired: OutCommand -> bool, packet: bool)
    ensures Picked(done + [x], expired, packet)
         == if expired(x) && x.HasPacket() == packet then Picked(done, expired, packet) + [x]
             else Picked(done, expired, packet)
  {
    if done == [] {
      assert done + [x] == [x] && [x][1..] == [];
    } else {
      assert (done + [x])[1..] == done[1..] + [x];
      PickedAppend(done[1..], x, expired, packet);
    }
  }

  lemma {:induction false} KeptAppend(done: seq<OutCommand>, x: OutCommand, expired: OutCommand -> bool)
    ensures Kept(done + [x], expired) == if expired(x) then Kept(done, expired) else Kept(done, expired) + [x]
  {
    if done == [] {
      assert done + [x] == [x] && [x][1..] == [];
    } else {
      assert (done + [x])[1..] == done[1..] + [x];
      KeptAppend(done[1..], x, expired);
    }
  }

  function WithAt(q: seq<OutCommand>, at: nat, x: OutCommand): seq<OutCommand>
    requires at <= |q|
  {
    q[..at] + [x] + q[at..]
  }

  /** In-flight command `current` goes back to its queue, at the position the earlier ones left. */
  function TakenBack(t: Sender, current: nat, at: nat, timeout: nat): Sender
    requires current < |t.sent| && at <= |if t.sent[current].HasPacket() then t.queue else t.others|
  {
    var x := t.sent[current];
    var y := x.(timeout := timeout);
    if x.HasPacket()
    then t.(sent := Without(t.sent, current), queue := WithAt(t.queue, at, y), inTransit := t.inTransit - x.Length())
    else t.(sent := Without(t.sent, current), others := WithAt(t.others, at, y))
  }

  lemma RetimedAppend(q: seq<OutCommand>, x: OutCommand, rest: seq<OutCommand>, timeout: nat)
    ensures Retimed(q + [x], timeout) + rest == WithAt(Retimed(q, timeout) + rest, |q|, x.(timeout := timeout))
  {
    assert Retimed(q + [x], timeout) == Retimed(q, timeout) + [x.(timeout := timeout)];
  }

  lemma KeptStays(done: seq<OutCommand>, left: seq<OutCommand>, x: OutCommand, expired: OutCommand -> bool)
    ensures var q := Kept(done, expired) + ([x] + left);
            && q[|Kept(done, expired)|] == x
            && (if expired(x) then Kept(done + [x], expired) + left == Without(q, |Kept(done, expired)|)
                else Kept(done + [x], expired) + left == q)
  {
    KeptAppend(done, x, expired);
    var k := Kept(done, expired);
    var q := k + ([x] + left);
    hide Kept;
    assert q[..|k|] == k && q[|k| + 1..] == left;
    assert (k + [x]) + left == q;
  }

  /** One in-flight command that may stay. */
  lemma ProgressStays(s: Sender, t: Sender, done: seq<OutCommand>, left: seq<OutCommand>, x: OutCommand,
                      expired: OutCommand -> bool, timeout: nat)
    requires Progress(s, t, done, [x] + left, expired, timeout) && !expired(x)
    ensures Progress(s, t, done + [x], left, expired, timeout)
    ensures |Kept(done + [x], expired)| == |Kept(done, expired)| + 1
    ensures Picked(done + [x], expired, true) == Picked(done, expired, true)
    ensures Picked(done + [x], expired, false) == Picked(done, expired, false)
  {
    PickedAppend(done, x, expired, true);
    PickedAppend(done, x, expired, false);
    KeptAppend(done, x, expired);
    KeptStays(done, left, x, expired);
  }

  /** One in-flight command that goes back. */
  lemma ProgressTakesBack(s: Sender, t: Sender, done: seq<OutCommand>, left: seq<OutCommand>, x: OutCommand,
                          expired: OutCommand -> bool, timeout: nat)
    requires Progress(s, t, done, [x] + left, expired, timeout) && expired(x)
    ensures |Kept(done, expired)| < |t.sent| && t.sent[|Kept(done, expired)|] == x
    ensures Progress(s, TakenBack(t, |Kept(done, expired)|, |Picked(done, expired, x.HasPacket())|, timeout),
                     done + [x], left, expired, timeout)
    ensures |Kept(done + [x], expired)| == |Kept(done, expired)|
    ensures forall p :: |Picked(done + [x], expired, p)|
                     == |Picked(done, expired, p)| + (if x.HasPacket() == p then 1 else 0)
  {
    var picked := Picked(done, expired, x.HasPacket());
    PickedAppend(done, x, expired, true);
    PickedAppend(done, x, expired, false);
    KeptAppend(done, x, expired);
    KeptStays(done, left, x, expired);
    TotalLengthConcat(Picked(done, expired, true), [x]);
    RetimedAppend(picked, x, if x.HasPacket() then s.queue else s.others, timeout);
  }

  /** The timeout check after `done` in-flight commands: `current` stayed, `queueAt` and
      `othersAt` went back. */
  ghost predicate Scanned(s: Sender, t: Sender, done: nat, current: nat, queueAt: nat, othersAt: nat,
                          expired: OutCommand -> bool, timeout: nat)
  {
    && done <= |s.sent|
    && Progress(s, t, s.sent[..done], s.sent[done..], expired, timeout)
    && current == |Kept(s.sent[..done], expired)|
    && queueAt == |Picked(s.sent[..done], expired, true)|
    && othersAt == |Picked(s.sent[..done], expired, false)|
  }

  lemma ScanBegins(s: Sender, expired: OutCommand -> bool, timeout: nat)
    ensures Scanned(s, s, 0, 0, 0, 0, expired, timeout)
  {
    assert s.sent[0..] == s.sent;
  }

  lemma ScannedIsProgress(s: Sender, t: Sender, done: nat, current: nat, queueAt: nat, othersAt: nat,
                          expired: OutCommand -> bool, timeout: nat)
    requires Scanned(s, t, done, current, queueAt, othersAt, expired, timeout)
    ensures done <= |s.sent| && Progress(s, t, s.sent[..done], s.sent[done..], expired, timeout)
  {
  }

  lemma ScanSees(s: Sender, t: Sender, done: nat, current: nat, queueAt: nat, othersAt: nat,
                 expired: OutCommand -> bool, timeout: nat)
    requires Scanned(s, t, done, current, queueAt, othersAt, expired, timeout) && done < |s.sent|
    ensures |t.sent| == current + |s.sent| - done && t.sent[current] == s.sent[done]
    ensures queueAt <= |t.queue| && othersAt <= |t.others|
  {
  }

  lemma ScanKeeps(s: Sender, t: Sender, done: nat, current: nat, queueAt: nat, othersAt: nat,
                  expired: OutCommand -> bool, timeout: nat)
    requires Scanned(s, t, done, current, queueAt, othersAt, expired, timeout) && done < |s.sent|
    requires !expired(s.sent[done])
    ensures Scanned(s, t, done + 1, current + 1, queueAt, othersAt, expired, timeout)
  {
    var before, x := s.sent[..done], s.sent[done];
    assert s.sent[..done + 1] == before + [x] && s.sent[done..] == [x] + s.sent[done + 1..];
    ProgressStays(s, t, before, s.sent[done + 1..], x, expired, timeout);
  }

  lemma ScanTakes(s: Sender, t: Sender, done: nat, current: nat, queueAt: nat, othersAt: nat,
                  expired: OutCommand -> bool, timeout: nat)
    requires Scanned(s, t, done, current, queueAt, othersAt, expired, timeout) && done < |s.sent|
    requires expired(s.sent[done])
    ensures current < |t.sent| && queueAt <= |t.queue| && othersAt <= |t.others|
    ensures var packet := s.sent[done].HasPacket();
            var t' := TakenBack(t, current, if packet then queueAt else othersAt, timeout);
            && |t'.sent| == |t.sent| - 1
            && Scanned(s, t', done + 1, current, queueAt + (if packet then 1 else 0),
               othersAt + (if packet then 0 else 1),
                       expired, timeout)
  {
    var before, x := s.sent[..done], s.sent[done];
    assert s.sent[..done + 1] == before + [x] && s.sent[done..] == [x] + s.sent[done + 1..];
    ProgressTakesBack(s, t, before, s.sent[done + 1..], x, expired, timeout);
  }

  lemma ScanEnds(s: Sender, t: Sender, done: nat, current: nat, queueAt: nat, othersAt: nat,
                 expired: OutCommand -> bool, timeout: nat)
    requires Scanned(s, t, done, current, queueAt, othersAt, expired, timeout) && done == |s.sent|
    ensures t == Requeue(s, expired, timeout) && (Shaped(s) ==> Shaped(t))
  {
    assert s.sent[..done] == s.sent && s.sent[done..] == [];
  }
}
