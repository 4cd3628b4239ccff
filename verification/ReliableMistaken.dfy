/** What packets of more than 12289 fragments do to a reliable channel.

    Such a packet can be delivered while one of its fragments is still unacknowledged and its first
    number lies ten windows behind. The sender's own repetition of the fragment then names a first
    number that the receiver takes for one ahead, and it makes room for a packet never sent. The
    packet that later gets the number finds one of its fragments there already. */
module ReliableMistaken {
  import opened Lists
  import opened Windows
  import S = ReliableSender
  import R = ReliableReceiver
  import opened ReliableChannel
  import opened ReceiverProofs
  import opened ReceiverInvariant
  import opened ReliableDelivery
  import opened ReliableRuns

  /** Piece `j` of the delivered packet `i` was transmitted and is still unacknowledged; the sender
      may repeat it, and it would change the receiver. */
  ghost predicate Mistaken(s: System, i: nat, j: nat) {
    && s.channel < |s.sender.channels| && Piece(s, i, j) && i < |s.rx.delivered|
    && Number(s.log, i, j) in S.Outstanding(s.sender, s.channel) && Number(s.log, i, j) in s.data
    && Enabled(s, DeliverData(i, j, false)) && After(s, DeliverData(i, j, false)).rx != s.rx
  }

  /** A run mistakes a fragment of a packet of `count` fragments. */
  ghost predicate MistakenOf(s: System, i: nat, j: nat, count: nat) {
    Reachable(s) && Mistaken(s, i, j) && |s.log[i].pieces| == count
  }

  lemma MistakenIsLong(s: System, i: nat, j: nat, count: nat)
    requires MistakenOf(s, i, j, count)
    ensures 3 * WINDOW_SIZE + 1 < count < 8 * WINDOW_SIZE
  {
    hide Reachable, After;
    var ids := ReachableIsOk(s);
    if count <= 3 * WINDOW_SIZE + 1 {
      hide Ok, Enabled;
      ShortIsReacknowledged(s, ids, i, j, false);
      assert false;
    }
    assert ReachesEnd(s.log, i);
    if count >= 8 * WINDOW_SIZE { VeryLongIsTooLong(s.log, i); }
  }

  /** A packet of `count` fragments of one byte. */
  function Uniform(count: nat, b: R.Byte): (r: Message)
    ensures |r.pieces| == count
  {
    Message(seq(count, _ => [b]))
  }

  lemma {:induction false} UniformJoined(pieces: seq<seq<R.Byte>>)
    requires forall j :: 0 <= j < |pieces| ==> |pieces[j]| == 1
    ensures |Joined(pieces)| == |pieces|
  {
    if pieces != [] {
      UniformJoined(pieces[..|pieces| - 1]);
    }
  }

  /** How many numbers go out before a packet of `count` fragments, so that 16384 is one of its own. */
  function Lead(count: nat): nat { if count < 16384 then 16384 - count else 0 }

  function Around(count: nat): seq<Message>
    requires 3 * WINDOW_SIZE + 1 < count < 8 * WINDOW_SIZE
  {
    (if Lead(count) > 0 then [Uniform(Lead(count), 0)] else [])
        + [Uniform(count, 0), Uniform(40960 - Lead(count) - count, 0)]
  }

  lemma OneIsGood(log: seq<Message>, i: nat, count: nat)
    requires i < |log| && log[i] == Uniform(count, 0) && 1 <= count < 8 * WINDOW_SIZE
    requires Used(log, i + 1) / WINDOW_SIZE <= Used(log, i) / WINDOW_SIZE + 7
    ensures log[i].Sendable() && ReachesEnd(log, i) && |Joined(log[i].pieces)| <= 40960
  {
    UniformJoined(log[i].pieces);
  }

  /** After the packet there are enough numbers for the receiver to get to 40960. */
  lemma AroundIsGood(count: nat) returns (i: nat)
    requires 3 * WINDOW_SIZE + 1 < count < 8 * WINDOW_SIZE
    ensures var log, u := Around(count), Lead(count);
            && Good(log, 40960) && i < |log| && log[i] == Uniform(count, 0)
            && Used(log, i) == u && Used(log, i + 1) == u + count && Used(log, |log|) == 40960
            && u + 1 < 4096 && u < 16384 <= u + count
  {
    hide ReachesEnd, Joined, Uniform;
    var log, u := Around(count), Lead(count);
    if u > 0 {
      i := 1;
      AroundUses(log, u, count);
      OneIsGood(log, 0, u);
      OneIsGood(log, 1, count);
      OneIsGood(log, 2, 40960 - u - count);
    } else {
      i := 0;
      AroundUsesTwo(log, count);
      OneIsGood(log, 0, count);
      OneIsGood(log, 1, 40960 - count);
    }
  }

  lemma AroundUses(log: seq<Message>, u: nat, count: nat)
    requires u + count <= 40960 && log == [Uniform(u, 0), Uniform(count, 0), Uniform(40960 - u - count, 0)]
    ensures Used(log, 1) == u && Used(log, 2) == u + count && Used(log, 3) == 40960
  {
  }

  lemma AroundUsesTwo(log: seq<Message>, count: nat)
    requires count <= 40960 && log == [Uniform(count, 0), Uniform(40960 - count, 0)]
    ensures Used(log, 1) == count && Used(log, 2) == 40960
  {
  }

  /** A fragment of a packet not waiting makes room for one. */
  lemma FragmentOpens(rx: R.Receiver, f: R.Fragment, maximum: nat)
    requires rx.waiting == [] && f.Sound(maximum) && 0 < |f.data| <= maximum && f.count > 1
    requires Accepts(f.start, rx.position) && f.start != rx.position
    ensures R.ReceiveFragment(rx, f, maximum, false) == R.Taken(rx.(waiting := [Phantom(f, maximum)]))
  {
    assert R.Scan([], rx.position, f.start) == Slot(0);
    assert R.Opened(rx, 0, f).waiting == [Empty(f)];
    assert R.Dispatch(R.Opened(rx, 0, f)) == R.Opened(rx, 0, f);
    assert [Empty(f)][0 := Phantom(f, maximum)] == [Phantom(f, maximum)];
  }

  function Empty(f: R.Fragment): R.InCommand {
    R.InCommand(f.start, f.count, f.count, R.Unmarked(f.count), R.Blank(f.total))
  }

  function Phantom(f: R.Fragment, maximum: nat): R.InCommand
    requires f.Sound(maximum) && f.count > 1
  {
    R.Filled(Empty(f), f, maximum)
  }

  /** The receiver at 40960 takes the repetition of number 16384 for a fragment of a new packet. */
  lemma SixteenFourIsMistaken(s: System, ids: seq<nat>, i: nat, count: nat)
    requires Driven(s, ids, 16384) && i < |s.log| && |s.log[i].pieces| == count > 1 && s.rx.waiting == []
    requires |s.rx.delivered| == |s.log| && Used(s.log, |s.log|) == 40960 == Newest(s)
    requires Used(s.log, i) < 4095 && Used(s.log, i) < 16384 <= Used(s.log, i + 1)
    ensures Mistaken(s, i, 16383 - Used(s.log, i))
  {
    hide Ok, Good, Held, Joined, S.Outstanding, Used;
    DrivenIsOk(s, ids, 16384);
    DrivenParts(s, ids, 16384);
    OkIsShaped(s, ids);
    UsedStep(s.log, i);
    var j := 16383 - Used(s.log, i);
    assert Piece(s, i, j) && Number(s.log, i, j) == 16384;
    assert 16384 in S.Outstanding(s.sender, s.channel) && 16384 in s.data;
    assert AllSendable(s.log) && |Joined(s.log[i].pieces)| <= s.maximum by { GoodIsSendable(s.log, s.maximum, i); }
    FragmentIsSound(s.log, i, j, s.maximum);
    BehindIsComplement(Number(s.log, i, 0), 40960);
    FragmentOpens(s.rx, FragmentOf(s.log, i, j), s.maximum);
  }

  lemma GoodIsSendable(log: seq<Message>, maximum: nat, i: nat)
    requires Good(log, maximum) && i < |log|
    ensures AllSendable(log) && |Joined(log[i].pieces)| <= maximum
  {
  }

  lemma MistakenHappens(count: nat) returns (s: System, i: nat, j: nat)
    requires 3 * WINDOW_SIZE + 1 < count < 8 * WINDOW_SIZE
    ensures MistakenOf(s, i, j, count)
  {
    hide Good, Used, Around, Reachable, Driven;
    i := AroundIsGood(count);
    var ids;
    s, ids := GoodIsDelivered(Around(count), 40960, 16384);
    j := 16383 - Used(s.log, i);
    SixteenFourIsMistaken(s, ids, i, count);
  }

  /** The law that a repetition of something delivered leaves the receiver alone holds in all runs
      for packets of up to 12289 fragments, and fails in some run for every longer one that can be
      delivered at all. */
  lemma MistakenIff(count: nat)
    ensures (exists s, i, j :: MistakenOf(s, i, j, count)) <==> 3 * WINDOW_SIZE + 1 < count < 8 * WINDOW_SIZE
  {
    hide MistakenOf;
    if 3 * WINDOW_SIZE + 1 < count < 8 * WINDOW_SIZE {
      var s, i, j := MistakenHappens(count);
      assert MistakenOf(s, i, j, count);
    }
    if s, i, j :| MistakenOf(s, i, j, count) {
      MistakenIsLong(s, i, j, count);
    }
  }

  // ---------------------------------------------------------------- a packet delivered with wrong bytes

  ghost predicate Ends(states: seq<System>, steps: seq<Step>, s: System) {
    Run(states, steps) && states[|steps|] == s
  }

  /** Some run at all ends in `s`. */
  ghost predicate Occurs(s: System) {
    exists states, steps :: Ends(states, steps, s)
  }

  lemma ReachableOccurs(s: System)
    requires Reachable(s)
    ensures Occurs(s)
  {
    var states, steps :| Reaches(states, steps, s);
    assert Ends(states, steps, s);
  }

  lemma OccursNext(s: System, step: Step)
    requires Occurs(s) && Enabled(s, step)
    ensures Occurs(After(s, step))
  {
    hide After, Enabled, Initial;
    var states, steps :| Ends(states, steps, s);
    assert Ends(states + [After(s, step)], steps + [step], After(s, step));
  }

  lemma OccursIsSending(s: System)
    requires Occurs(s)
    ensures Sending(s)
  {
    hide Initial, After, Enabled, Sending;
    var states, steps :| Ends(states, steps, s);
    RunKeepsSending(states, steps, |steps|);
  }

  lemma OccursIsShaped(s: System)
    requires Occurs(s)
    ensures s.channel < |s.sender.channels| && S.Shaped(s.sender)
  {
    OccursIsSending(s);
  }

  /** What was sent is acknowledged; what is queued was never sent. */
  ghost predicate Clear(s: System) {
    && Occurs(s) && s.channel < |s.sender.channels| && S.Outstanding(s.sender, s.channel) == multiset{}
    && Unsent(s.sender.queue, s.channel) && s.sender.channels[s.channel].last == Used(s.log, |s.log|)
    && |s.rx.delivered| <= |s.log| && 0 <= Newest(s)
  }

  /** One number sent and not acknowledged yet. */
  ghost predicate OneOut(s: System, n: nat) {
    && Occurs(s) && s.channel < |s.sender.channels| && S.Outstanding(s.sender, s.channel) == multiset{n}
    && Unsent(s.sender.queue, s.channel) && s.sender.channels[s.channel].last == Used(s.log, |s.log|)
    && |s.rx.delivered| <= |s.log| && n <= Newest(s) < n + MODULUS && n in s.data
  }

  lemma ClearHead(s: System)
    requires Clear(s) && Newest(s) < Used(s.log, |s.log|)
    ensures s.sender.queue != [] && S.Orderly(s.sender) && S.ChannelOk(s.sender, s.channel)
    ensures s.sender.queue[0].number == Newest(s) + 1 && s.sender.queue[0].stored == Wire(Newest(s) + 1)
  {
    OccursIsSending(s);
    S.FreshHead(s.sender, s.channel);
  }

  /** The next number goes out: nothing stands in the way. */
  lemma SendClear(s: System) returns (s': System)
    requires Clear(s) && Newest(s) < Used(s.log, |s.log|)
    ensures OneOut(s', Newest(s) + 1) && Newest(s') == Newest(s) + 1 && s' == s.(sender := s'.sender, data := s'.data)
  {
    hide S.Outstanding, S.ChannelOk, S.SendHead, Used, Occurs, S.MayEnter;
    ClearHead(s);
    MayEnterNext(s.sender, s.channel, 0, Newest(s) + 1);
    S.SendHeadKeeps(s.sender, 0, 1, s.channel);
    SendKeepsLast(s.sender, 0, 1, s.channel);
    SentStaysUnsent(s, 0, 1);
    OccursNext(s, Transmit(0, 1));
    s' := After(s, Transmit(0, 1));
  }

  /** Its acknowledgement arrives. */
  lemma AckClear(s: System, n: nat) returns (s': System)
    requires OneOut(s, n) && n in s.acks
    ensures Clear(s') && Newest(s') == Newest(s) && s' == s.(sender := s'.sender)
  {
    hide S.Outstanding, S.ChannelOk, S.Acknowledge, Used, Occurs, Unsent;
    OccursIsSending(s);
    S.AcknowledgeExact(s.sender, n, s.channel);
    AckKeepsLast(s.sender, Wire(n), s.channel);
    AckLeavesUnsent(s.sender, Wire(n), s.channel);
    OccursNext(s, DeliverAck(n));
    s' := After(s, DeliverAck(n));
  }

  /** Another packet is queued. */
  lemma SubmitClear(s: System, message: Message) returns (s': System)
    requires Clear(s) && message.Sendable()
    ensures Clear(s') && Newest(s') == Newest(s) && s' == s.(log := s.log + [message], sender := s'.sender)
  {
    hide S.Outstanding, S.ChannelOk, S.Orderly, EnqueueAll, Occurs, Unsent;
    OccursIsSending(s);
    OccursIsShaped(s);
    OccursNext(s, Submit(message, Blanks(message)));
    EnqueueAllKeeps(s.sender, s.channel, Blanks(message));
    EnqueuedUnsent(s.sender, s.channel, Blanks(message));
    UsedOfLonger(s.log, [message], |s.log|);
    s' := After(s, Submit(message, Blanks(message)));
  }

  /** All is delivered, but `x`, which waits for number `far`, was never sent. */
  ghost predicate Haunted(s: System, x: R.InCommand, far: nat) {
    && Clear(s) && Newest(s) == Used(s.log, |s.log|) < far < Newest(s) + MODULUS
    && s.rx == R.Receiver(Wire(Newest(s)), [x], Bodies(s.log)) && x.stored == Wire(far) && x.remaining > 0
  }

  /** A whole packet goes straight through. */
  lemma PacketPasses(r: nat, x: R.InCommand, far: nat, delivered: seq<seq<R.Byte>>, data: seq<R.Byte>, maximum: nat)
    requires r + 1 < far < r + MODULUS && x.stored == Wire(far) && x.remaining > 0 && |data| <= maximum
    ensures R.ReceivePacket(R.Receiver(Wire(r), [x], delivered), Wire(r + 1), data, maximum, false)
            == R.Taken(R.Receiver(Wire(r + 1), [x], delivered + [data]))
  {
    hide Wire, R.Scan, R.Dispatch;
    var y := R.InCommand(Wire(r + 1), 0, 0, [], data);
    NextIsAccepted(r);
    NotTheSame(r);
    NextIsFirst(r, x, far);
    assert Inserted([x], 0, y) == [y, x];
    NextGoesOut(r, x, delivered, data);
  }

  lemma NextIsFirst(r: nat, x: R.InCommand, far: nat)
    requires r + 1 < far < r + MODULUS && x.stored == Wire(far)
    ensures R.Scan([x], Wire(r), Wire(r + 1)) == Slot(0)
  {
    hide R.Scan, Wire;
    ScanFinds([x], [far], r, r + 1);
    assert [far][0] == far;
  }

  lemma NextGoesOut(r: nat, x: R.InCommand, delivered: seq<seq<R.Byte>>, data: seq<R.Byte>)
    requires x.remaining > 0
    ensures R.Dispatch(R.Receiver(Wire(r), [R.InCommand(Wire(r + 1), 0, 0, [], data), x], delivered))
            == R.Receiver(Wire(r + 1), [x], delivered + [data])
  {
    hide R.Scan;
    var y, next := R.InCommand(Wire(r + 1), 0, 0, [], data), R.Receiver(Wire(r + 1), [x], delivered + [data]);
    WireAdds(r, 1);
    assert [y, x][1..] == [x];
    assert R.Dispatch(next) == next;
  }

  lemma NotTheSame(r: nat)
    ensures Wire(r + 1) != Wire(r)
  {
  }

  lemma NextIsHeard(n: nat, r: nat)
    requires r <= n && n / WINDOW_SIZE <= r / WINDOW_SIZE + 6
    ensures Acknowledges(Wire(n), Wire(r))
  {
    AheadIsDistance(n, r);
  }

  function Single(): Message { Message([[0]]) }

  lemma BodiesGrow(log: seq<Message>, message: Message)
    ensures Bodies(log + [message]) == Bodies(log) + [Joined(message.pieces)]
  {
  }

  /** One packet more, sent, delivered and acknowledged. */
  lemma PassOne(s: System, x: R.InCommand, far: nat) returns (s': System)
    requires Haunted(s, x, far) && Newest(s) + 1 < far && s.maximum >= 1
    ensures Haunted(s', x, far) && Newest(s') == Newest(s) + 1 && s'.log == s.log + [Single()]
            && s'.maximum == s.maximum
  {
    hide S.Outstanding, Occurs, Unsent, Bodies;
    var n, d := Newest(s) + 1, |s.log|;
    var s1 := SubmitClear(s, Single());
    UsedOfLonger(s.log, [Single()], d);
    assert Used(s1.log, d + 1) == n;
    var s2 := SendClear(s1);
    SinglePiece([[0]]);
    PacketPasses(n - 1, x, far, s.rx.delivered, [0], s.maximum);
    NextIsHeard(n, n);
    assert Number(s2.log, d, 0) == n;
    OccursIsShaped(s2);
    OccursNext(s2, DeliverData(d, 0, false));
    var s3 := After(s2, DeliverData(d, 0, false));
    BodiesGrow(s.log, Single());
    s' := AckClear(s3, n);
  }

  lemma {:induction false} PassMany(s: System, x: R.InCommand, far: nat) returns (s': System)
    requires Haunted(s, x, far) && s.maximum >= 1
    ensures Haunted(s', x, far) && Newest(s') == far - 1 && s'.maximum == s.maximum
    ensures |s'.log| >= |s.log| && s'.log[..|s.log|] == s.log
    ensures forall i :: |s.log| <= i < |s'.log| ==> s'.log[i] == Single()
    decreases far - Newest(s)
  {
    hide Bodies, S.Outstanding, Occurs, Unsent, Used;
    if Newest(s) + 1 < far {
      var s1 := PassOne(s, x, far);
      s' := PassMany(s1, x, far);
    } else {
      s' := s;
    }
  }

  // ---------------------------------------------------------------- how it begins

  const LONG: nat := 3 * WINDOW_SIZE + 2

  function Right(): Message { Uniform(LONG, 1) }

  /** The later packet with the last fragment of the earlier one. */
  function Wrong(): Message { Message(Right().pieces[LONG - 1 := [0]]) }

  function Opening(): seq<Message> {
    [Uniform(4094, 0), Uniform(LONG, 0), Uniform(12288, 0), Uniform(12288, 0)]
  }

  lemma OpeningIsGood()
    ensures Good(Opening(), 40960) && Used(Opening(), 1) == 4094 && Used(Opening(), 2) == 16384
    ensures |Opening()| == 4 && Used(Opening(), 4) == 40960
  {
    hide ReachesEnd, Joined, Uniform;
    var log := Opening();
    assert Used(log, 1) == 4094;
    assert Used(log, 2) == 16384;
    assert Used(log, 3) == 28672;
    assert Used(log, 4) == 40960;
    OneIsGood(log, 0, 4094);
    OneIsGood(log, 1, LONG);
    OneIsGood(log, 2, 12288);
    OneIsGood(log, 3, 12288);
  }

  /** The fragments up to the one before `k`, and the last one, are in. */
  ghost predicate Partial(x: R.InCommand, k: nat) {
    && k < LONG && Reassembling(x, Wrong().pieces)
    && forall i :: 0 <= i < LONG ==> (x.marks[i] <==> i < k || i == LONG - 1)
  }

  lemma OffsetIsIndex(pieces: seq<seq<R.Byte>>, j: nat)
    requires j <= |pieces| && forall i :: 0 <= i < |pieces| ==> |pieces[i]| == 1
    ensures Offset(pieces, j) == j && |Joined(pieces)| == |pieces|
  {
    UniformJoined(pieces[..j]);
    UniformJoined(pieces);
  }

  function LastFragment(): R.Fragment {
    R.Fragment(4095, LONG, LONG - 1, LONG, LONG - 1, [0])
  }

  lemma PhantomIsPartial()
    ensures LastFragment().Sound(40960) && Partial(Phantom(LastFragment(), 40960), 0)
    ensures Phantom(LastFragment(), 40960).stored == 4095 && Phantom(LastFragment(), 40960).remaining == LONG - 1
  {
    hide Joined, Missing, R.Unmarked, R.Blank;
    var f, pieces := LastFragment(), Wrong().pieces;
    OffsetIsIndex(pieces, LONG - 1);
    MissingAll(LONG);
    assert Reassembling(Empty(f), pieces) by { EmptyReassembles(f, pieces); }
    NothingMarked(LONG);
    FillKeeps(Empty(f), pieces, f, 40960);
  }

  lemma NothingMarked(count: nat)
    ensures forall i :: 0 <= i < count ==> !R.Unmarked(count)[i]
  {
  }

  lemma EmptyReassembles(f: R.Fragment, pieces: seq<seq<R.Byte>>)
    requires f.count == |pieces| && f.total == |Joined(pieces)|
    ensures Reassembling(Empty(f), pieces)
  {
    MissingAll(f.count);
  }

  lemma OpeningFragment()
    ensures |Opening()[1].pieces| == LONG && Number(Opening(), 1, LONG - 1) == 16384
    ensures FragmentOf(Opening(), 1, LONG - 1) == LastFragment()
  {
    hide Joined;
    OpeningIsGood();
    OffsetIsIndex(Uniform(LONG, 0).pieces, LONG - 1);
  }

  lemma LastArrives(s: System)
    requires s.log == Opening() && s.maximum == 40960 && s.rx.waiting == [] && s.rx.position == Wire(40960)
    requires Enabled(s, DeliverData(1, LONG - 1, false))
    ensures After(s, DeliverData(1, LONG - 1, false))
            == s.(rx := s.rx.(waiting := [Phantom(LastFragment(), 40960)]), acks := s.acks + {16384})
  {
    hide Opening, Number, FragmentOf, Phantom, R.ReceiveFragment;
    OpeningFragment();
    FragmentOpens(s.rx, LastFragment(), 40960);
  }

  lemma OnlySixteenFour(s: System, ids: seq<nat>)
    requires Reachable(s) && Driven(s, ids, 16384) && |s.rx.delivered| <= |s.log| && Few(s, 16384)
    requires Newest(s) == 40960 == Used(s.log, |s.log|) && |s.rx.delivered| == |s.log|
    ensures OneOut(s, 16384)
  {
    hide Ok, Good, Held, Used, Reachable;
    DrivenIsOk(s, ids, 16384);
    DrivenParts(s, ids, 16384);
    LastIsUsed(s, ids);
    ReachableOccurs(s);
    var all := S.Outstanding(s.sender, s.channel);
    assert forall n :: n in all ==> n == 16384;
    assert all[16384] == 1;
    assert all == multiset{16384} by {
      assert forall n :: n in all - multiset{16384} ==> n in all;
    }
  }

  lemma LastIsUsed(s: System, ids: seq<nat>)
    requires Ok(s, ids)
    ensures s.channel < |s.sender.channels| && s.sender.channels[s.channel].last == Used(s.log, |s.log|)
  {
  }

  /** Number 16384, the last fragment of the second packet, is repeated, opens a packet that was
      never sent, and is acknowledged. */
  lemma Haunting() returns (s: System, x: R.InCommand)
    ensures Haunted(s, x, 65536 + 4095) && Partial(x, 0) && s.log == Opening() && s.maximum == 40960
  {
    hide Opening, Good, Used, Reachable, Driven, Few, Partial, Occurs, Bodies, S.Outstanding, Unsent, Number, Phantom,
         After;
    OpeningIsGood();
    OpeningFragment();
    var s0, ids := GoodIsDelivered(Opening(), 40960, 16384);
    DrivenIsOk(s0, ids, 16384);
    OkIsShaped(s0, ids);
    SixteenFourIsMistaken(s0, ids, 1, LONG);
    LastArrives(s0);
    PhantomIsPartial();
    x := Phantom(LastFragment(), 40960);
    OnlySixteenFour(s0, ids);
    OccursNext(s0, DeliverData(1, LONG - 1, false));
    var s1 := After(s0, DeliverData(1, LONG - 1, false));
    s := AckClear(s1, 16384);
  }

  // ---------------------------------------------------------------- how it ends

  /** Fragment `k` of the later packet, after position `r`. */
  function Later(r: nat, k: nat): R.Fragment { R.Fragment(Wire(r + 1), LONG, k, LONG, k, [1]) }

  lemma WrongPiece(k: nat)
    requires k < LONG - 1
    ensures |Wrong().pieces| == LONG && Wrong().pieces[k] == [1] && Offset(Wrong().pieces, k) == k
    ensures |Joined(Wrong().pieces)| == LONG
  {
    OffsetIsIndex(Wrong().pieces, k);
  }

  /** The next fragment is filled into the command that was there before. */
  lemma FillNext(x: R.InCommand, r: nat, k: nat)
    requires k < LONG - 1 && Partial(x, k) && x.stored == Wire(r + 1)
    ensures var f := Later(r, k);
            && f.Sound(40960) && R.BelongsTo(f, x) && !x.marks[k] && x.remaining > 0
            && Reassembling(R.Filled(x, f, 40960), Wrong().pieces)
            && (k + 1 < LONG - 1 ==> Partial(R.Filled(x, f, 40960), k + 1) && x.remaining > 1)
            && (k + 1 == LONG - 1 ==> x.remaining == 1)
  {
    hide Joined, Offset, Wrong, Missing, PieceInPlace;
    var f := Later(r, k);
    WrongPiece(k);
    MissingAt(x.marks, k);
    FillKeeps(x, Wrong().pieces, f, 40960);
    var y := R.Filled(x, f, 40960);
    if k + 1 < LONG - 1 {
      MissingAt(y.marks, k + 1);
    } else if y.remaining > 0 {
      var i := SomeMissing(y.marks);
      assert false;
    }
  }

  lemma FragmentFills(x: R.InCommand, r: nat, k: nat, delivered: seq<seq<R.Byte>>)
    requires k < LONG - 1 && Partial(x, k) && x.stored == Wire(r + 1)
    ensures Later(r, k).Sound(40960) && R.BelongsTo(Later(r, k), x) && x.remaining > 0
    ensures var rx, y := R.Receiver(Wire(r), [x], delivered), R.Filled(x, Later(r, k), 40960);
            R.ReceiveFragment(rx, Later(r, k), 40960, false)
            == R.Taken(if k + 1 < LONG - 1 then rx.(waiting := [y])
                       else R.Receiver(Wire(r + LONG), [], delivered + [y.data]))
  {
    hide Joined, Wrong, Missing, Partial, Reassembling;
    FillNext(x, r, k);
    NextIsAccepted(r);
    NotTheSame(r);
    ScanFinds([x], [r + 1], r, r + 1);
    assert R.Scan([x], Wire(r), Wire(r + 1)) == Duplicate(0);
    var rx, y := R.Receiver(Wire(r), [x], delivered), R.Filled(x, Later(r, k), 40960);
    assert [x][0 := y] == [y];
    if k + 1 == LONG - 1 {
      WireAdds(r, 1);
      WireAdds(r + 1, LONG - 1);
      assert R.Dispatch(R.Receiver(Wire(r + LONG), [], delivered + [y.data]))
             == R.Receiver(Wire(r + LONG), [], delivered + [y.data]);
    }
  }

  /** The later packet on its way: `k` of its fragments are in, and one of the earlier packet. */
  ghost predicate Filling(s: System, x: R.InCommand, k: nat, d: nat) {
    && Clear(s) && s.maximum == 40960 && d + 1 == |s.log| && s.log[d] == Right() && Newest(s) == Used(s.log, d) + k
    && s.rx == R.Receiver(Wire(Used(s.log, d)), [x], Bodies(s.log[..d])) && x.stored == Wire(Used(s.log, d) + 1)
    && Partial(x, k)
  }

  lemma RightFragment(log: seq<Message>, d: nat, k: nat)
    requires d < |log| && log[d] == Right() && k < LONG
    ensures FragmentOf(log, d, k) == Later(Used(log, d), k) && Number(log, d, k) == Used(log, d) + 1 + k
    ensures |log[d].pieces| == LONG && Used(log, d + 1) == Used(log, d) + LONG
  {
    hide Joined;
    OffsetIsIndex(Right().pieces, k);
  }

  /** One more fragment arrives. */
  lemma FillStep(s: System, x: R.InCommand, k: nat, d: nat) returns (s2: System)
    requires Filling(s, x, k, d) && k < LONG - 1
    ensures OneOut(s2, Used(s.log, d) + 1 + k) && s2.log == s.log && s2.maximum == 40960 && Newest(s2) == Newest(s) + 1
    ensures var r := Used(s.log, d);
            && Later(r, k).Sound(40960) && R.BelongsTo(Later(r, k), x) && x.remaining > 0
            && var y := R.Filled(x, Later(r, k), 40960);
               s2.rx == if k + 1 < LONG - 1 then s.rx.(waiting := [y])
                        else R.Receiver(Wire(r + LONG), [], s.rx.delivered + [y.data])
    ensures k + 1 < LONG - 1 ==> Used(s.log, d) + 1 + k in s2.acks
  {
    hide S.Outstanding, Occurs, Unsent, Bodies, Used, Partial, Right, FragmentOf, Later, R.ReceiveFragment;
    var r := Used(s.log, d);
    RightFragment(s.log, d, k);
    var s1 := SendClear(s);
    FragmentFills(x, r, k, s.rx.delivered);
    OccursIsShaped(s1);
    assert Enabled(s1, DeliverData(d, k, false));
    OccursNext(s1, DeliverData(d, k, false));
    s2 := After(s1, DeliverData(d, k, false));
    NextIsHeard(r + 1 + k, r);
  }

  lemma {:induction false} FillAll(s: System, x: R.InCommand, k: nat, d: nat) returns (s': System)
    requires Filling(s, x, k, d) && k < LONG - 1
    ensures Occurs(s') && s'.log == s.log
    ensures s'.rx.delivered == Bodies(s.log[..d]) + [Joined(Wrong().pieces)]
    decreases LONG - k
  {
    hide S.Outstanding, Occurs, Unsent, Bodies, Used, Partial, Right, Wrong, Joined, R.Filled;
    var s2 := FillStep(s, x, k, d);
    var y := R.Filled(x, Later(Used(s.log, d), k), 40960);
    FillNext(x, Used(s.log, d), k);
    if k + 1 < LONG - 1 {
      var s3 := AckClear(s2, Used(s.log, d) + 1 + k);
      assert y.stored == x.stored by { FilledStays(x, Later(Used(s.log, d), k)); }
      s' := FillAll(s3, y, k + 1, d);
    } else {
      LastFills(x, Used(s.log, d));
      s' := s2;
    }
  }

  lemma FilledStays(x: R.InCommand, f: R.Fragment)
    requires f.Sound(40960) && R.BelongsTo(f, x) && x.remaining > 0
    ensures R.Filled(x, f, 40960).stored == x.stored
  {
  }

  lemma LastFills(x: R.InCommand, r: nat)
    requires Partial(x, LONG - 2) && x.stored == Wire(r + 1)
    ensures Later(r, LONG - 2).Sound(40960) && R.BelongsTo(Later(r, LONG - 2), x) && x.remaining > 0
    ensures R.Filled(x, Later(r, LONG - 2), 40960).data == Joined(Wrong().pieces)
  {
    hide Joined, Wrong, Reassembling, Missing;
    FillNext(x, r, LONG - 2);
    WrongPiece(0);
    CompleteIsBody(R.Filled(x, Later(r, LONG - 2), 40960), Wrong().pieces);
  }

  /** The two differ in their last byte. */
  lemma WrongIsNotRight()
    ensures Joined(Wrong().pieces) != Joined(Right().pieces)
  {
    hide Joined;
    JoinedEnds(Wrong().pieces, 0);
    JoinedEnds(Right().pieces, 1);
  }

  lemma JoinedEnds(pieces: seq<seq<R.Byte>>, b: R.Byte)
    requires pieces != [] && pieces[|pieces| - 1] == [b]
    ensures Joined(pieces) != [] && Joined(pieces)[|Joined(pieces)| - 1] == b
  {
  }

  /** The run: the repetition, 28670 small packets, and a packet of 12290 fragments, which is
      delivered with the last byte of the other. */
  lemma WrongBytes() returns (s: System)
    ensures Occurs(s) && !(s.rx.delivered <= Bodies(s.log))
    ensures forall i :: 0 <= i < |s.log| ==> |s.log[i].pieces| <= LONG
  {
    hide Opening, Occurs, Unsent, S.Outstanding, Partial, Right, Wrong, Joined, Used, Bodies;
    var s0, x := Haunting();
    var s1 := PassMany(s0, x, 65536 + 4095);
    RightIsSendable();
    var s2 := SubmitClear(s1, Right());
    var d := |s1.log|;
    UsedOfLonger(s1.log, [Right()], d);
    assert s2.log[..d] == s1.log;
    s := FillAll(s2, x, 0, d);
    WrongIsNotRight();
    BodiesGrow(s1.log, Right());
    assert s.rx.delivered[d] == Joined(Wrong().pieces) && Bodies(s.log)[d] == Joined(Right().pieces);
    OpeningIsShort();
  }

  lemma RightIsSendable()
    ensures Right().Sendable() && |Right().pieces| == LONG
  {
  }

  lemma OpeningIsShort()
    ensures forall i :: 0 <= i < |Opening()| ==> |Opening()[i].pieces| <= LONG
    ensures |Single().pieces| <= LONG
  {
    hide Uniform;
  }

  /** A run with packets of at most `limit` fragments delivers something else than was sent. */
  ghost predicate WrongWithin(s: System, limit: nat) {
    && Occurs(s) && !(s.rx.delivered <= Bodies(s.log))
    && forall i :: 0 <= i < |s.log| ==> |s.log[i].pieces| <= limit
  }

  lemma ShortIsRight(s: System, limit: nat)
    requires WrongWithin(s, limit)
    ensures limit > 3 * WINDOW_SIZE + 1
  {
    hide Bodies, Initial, After, Enabled;
    var states: seq<System>, steps: seq<Step> :| Ends(states, steps, s);
    if limit <= 3 * WINDOW_SIZE + 1 {
      assert AllShort(states[|steps|].log);
      DeliveredIsPrefixOfSent(states, steps, |steps|);
      assert false;
    }
  }

  /** Exactly when what is delivered is a prefix of what was sent, over every run in which the
      network is not too late: with packets of at most `limit` fragments it always is if and only
      if the limit is 12289 or less. */
  lemma PrefixFailsIff(limit: nat)
    ensures (exists s: System :: WrongWithin(s, limit)) <==> limit > 3 * WINDOW_SIZE + 1
  {
    if limit > 3 * WINDOW_SIZE + 1 {
      var s := WrongBytes();
      assert WrongWithin(s, limit);
    }
    if s: System :| WrongWithin(s, limit) {
      ShortIsRight(s, limit);
    }
  }
}
