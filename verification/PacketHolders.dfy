/** The sending operations as seen by the packets: each moves, releases or queues the commands
    that hold them, as module PacketReferences counts. A peer takes up four queues there. */
module PacketHolders {
  import opened Windows
  import opened S = ReliableSender
  import opened P = SendingPeer
  import opened PacketReferences

  function IdOf(x: OutCommand): int { if x.HasPacket() then x.load.id else NO_PACKET }

  /** The packets a queue of commands holds. */
  function Ids(q: seq<OutCommand>): (r: seq<int>)
    ensures |r| == |q|
  {
    seq(|q|, i requires 0 <= i < |q| => IdOf(q[i]))
  }

  lemma IdsJoin(a: seq<OutCommand>, b: seq<OutCommand>)
    ensures Ids(a + b) == Ids(a) + Ids(b)
  {
  }

  lemma IdsWithout(q: seq<OutCommand>, k: nat)
    requires k < |q|
    ensures Ids(Without(q, k)) == WithoutAt(Ids(q), k)
    ensures k == 0 ==> Ids(q[1..]) == WithoutAt(Ids(q), 0)
  {
  }

  lemma IdsWithAt(q: seq<OutCommand>, at: nat, x: OutCommand)
    requires at <= |q|
    ensures Ids(WithAt(q, at, x)) == Ids(q)[..at] + [IdOf(x)] + Ids(q)[at..]
  {
  }

  /** At `base` stand the peer's reliable queue, its other queue, its commands in flight and those
      let go with the next datagram. */
  ghost predicate Placed(queues: seq<seq<int>>, base: nat, s: Sender, gone: seq<OutCommand>) {
    && base + 4 <= |queues|
    && queues[base] == Ids(s.queue) && queues[base + 1] == Ids(s.others)
    && queues[base + 2] == Ids(s.sent) && queues[base + 3] == Ids(gone)
  }

  /** Only this peer's queues have changed. */
  ghost predicate OnlyAt(queues: seq<seq<int>>, queues': seq<seq<int>>, base: nat) {
    |queues'| == |queues| && forall i :: 0 <= i < |queues| && !(base <= i < base + 4) ==> queues'[i] == queues[i]
  }

  /** `op` is what turns the peer's queues into those of `s'`. */
  ghost predicate Does(queues: seq<seq<int>>, base: nat, op: Op, s': Sender, gone': seq<OutCommand>) {
    && CanDo(queues, op)
    && Placed(AfterOp(queues, op), base, s', gone') && OnlyAt(queues, AfterOp(queues, op), base)
  }

  // ---------------------------------------------------------------- one command

  /** A packet command joins the reliable queue. */
  lemma EnqueueQueues(queues: seq<seq<int>>, base: nat, s: Sender, gone: seq<OutCommand>, c: nat, load: Load)
    requires Placed(queues, base, s, gone) && c < |s.channels| && load.packet
    ensures Does(queues, base, Queued(base, load.id), Enqueue(s, c, load), gone)
  {
    IdsJoin(s.queue, [Enqueue(s, c, load).queue[|s.queue|]]);
  }

  /** A control command joins the other one. */
  lemma EnqueueControlQueues(queues: seq<seq<int>>, base: nat, s: Sender, gone: seq<OutCommand>, load: Load)
    requires Placed(queues, base, s, gone) && !load.packet && load.length == 0
    ensures Does(queues, base, Queued(base + 1, NO_PACKET), EnqueueControl(s, load), gone)
  {
    IdsJoin(s.others, [EnqueueControl(s, load).others[|s.others|]]);
  }

  lemma EnqueueUnreliableQueues(queues: seq<seq<int>>, base: nat, s: Sender, gone: seq<OutCommand>, x: OutCommand)
    requires Placed(queues, base, s, gone)
    ensures Does(queues, base, Queued(base + 1, IdOf(x)), EnqueueUnreliable(s, x), gone)
  {
    IdsJoin(s.others, [x]);
  }

  /** A reliable command that is sent goes on holding its packet, in flight. */
  lemma SendHeadMoves(queues: seq<seq<int>>, base: nat, s: Sender, gone: seq<OutCommand>, now: nat, timeout: nat)
    requires Placed(queues, base, s, gone) && Shaped(s) && s.queue != []
    ensures Does(queues, base, Moved(base, 0, base + 2, |s.sent|), SendHead(s, now, timeout), gone)
  {
    IdsWithout(s.queue, 0);
    IdsJoin(s.sent, [Transmitted(s.queue[0], now, timeout)]);
    assert Ids(s.sent)[..|s.sent|] == Ids(s.sent) && Ids(s.sent)[|s.sent|..] == [];
  }

  /** So does one of the other queue; an unreliable one goes with the datagram; one that asks for
      nothing and holds nothing is done with. */
  lemma SendOtherMoves(queues: seq<seq<int>>, base: nat, s: Sender, gone: seq<OutCommand>, now: nat, timeout: nat)
    requires Placed(queues, base, s, gone) && s.others != []
    ensures var x, s' := s.others[0], SendOther(s, now, timeout);
            if x.reliable then Does(queues, base, Moved(base + 1, 0, base + 2, |s.sent|), s', gone)
            else if x.HasPacket() then Does(queues, base, Moved(base + 1, 0, base + 3, |gone|), s', gone + [x])
            else Does(queues, base, Released(base + 1, 0), s', gone)
  {
    var x := s.others[0];
    IdsWithout(s.others, 0);
    IdsJoin(s.sent, [Transmitted(x, now, timeout)]);
    IdsJoin(gone, [x]);
    assert Ids(s.sent)[..|s.sent|] == Ids(s.sent) && Ids(s.sent)[|s.sent|..] == [];
    assert Ids(gone)[..|gone|] == Ids(gone) && Ids(gone)[|gone|..] == [];
  }

  /** What an acknowledgement settles is released, from wherever it is found. */
  lemma AcknowledgeReleases(queues: seq<seq<int>>, base: nat, s: Sender, gone: seq<OutCommand>, stored: Word16, c: nat)
    requires Placed(queues, base, s, gone) && Shaped(s)
    ensures var i, k, j := FindSent(s.sent, stored, c), FindQueued(s.others, stored, c), FindQueued(s.queue, stored, c);
            var s' := Acknowledge(s, stored, c);
            if i < |s.sent| then Does(queues, base, Released(base + 2, i), s', gone)
            else if k < |s.others| then Does(queues, base, Released(base + 1, k), s', gone)
            else if j < |s.queue| then Does(queues, base, Released(base, j), s', gone)
            else s' == s
  {
    var i, k, j := FindSent(s.sent, stored, c), FindQueued(s.others, stored, c), FindQueued(s.queue, stored, c);
    if i < |s.sent| {
      IdsWithout(s.sent, i);
    } else if k < |s.others| {
      IdsWithout(s.others, k);
    } else if j < |s.queue| {
      IdsWithout(s.queue, j);
    }
  }

  /** One command that timed out goes back to its queue and goes on holding its packet. */
  lemma TakenBackMoves(queues: seq<seq<int>>, base: nat, s: Sender, gone: seq<OutCommand>, current: nat, at: nat,
                       timeout: nat)
    requires Placed(queues, base, s, gone) && current < |s.sent|
    requires at <= |if s.sent[current].HasPacket() then s.queue else s.others|
    ensures var to := if s.sent[current].HasPacket() then base else base + 1;
            Does(queues, base, Moved(base + 2, current, to, at), TakenBack(s, current, at, timeout), gone)
  {
    var x := s.sent[current];
    IdsWithout(s.sent, current);
    IdsWithAt(if x.HasPacket() then s.queue else s.others, at, x.(timeout := timeout));
  }

  // ---------------------------------------------------------------- several commands

  ghost predicate DoesAll(queues: seq<seq<int>>, base: nat, ops: seq<Op>, s': Sender, gone': seq<OutCommand>) {
    Placed(AfterOps(queues, ops), base, s', gone') && OnlyAt(queues, AfterOps(queues, ops), base)
  }

  lemma OneMore(queues: seq<seq<int>>, base: nat, ops: seq<Op>, op: Op, s: Sender, s': Sender, gone: seq<OutCommand>,
                gone': seq<OutCommand>)
    requires DoesAll(queues, base, ops, s, gone) && Does(AfterOps(queues, ops), base, op, s', gone')
    ensures DoesAll(queues, base, ops + [op], s', gone')
  {
    hide CanDo, AfterOp;
    assert (ops + [op])[..|ops|] == ops;
  }

  predicate AllMoved(ops: seq<Op>) { forall o :: 0 <= o < |ops| ==> ops[o].Moved? }

  /** Whatever times out together only moves: no count changes. */
  lemma RequeueMoves(queues: seq<seq<int>>, base: nat, s: Sender, gone: seq<OutCommand>, expired: OutCommand -> bool,
                     timeout: nat)
      returns (ops: seq<Op>)
    requires Placed(queues, base, s, gone)
    ensures AllMoved(ops) && DoesAll(queues, base, ops, Requeue(s, expired, timeout), gone)
  {
    hide Placed, OnlyAt, Scanned, TakenBack, Requeue, CanDo, AfterOp, AfterOps;
    ops := [];
    var t, current, queueAt, othersAt := s, 0, 0, 0;
    ScanBegins(s, expired, timeout);
    assert DoesAll(queues, base, [], s, gone) by { Nothing(queues, base, s, gone); }
    for done := 0 to |s.sent|
      invariant 0 <= current && 0 <= queueAt && 0 <= othersAt
      invariant Scanned(s, t, done, current, queueAt, othersAt, expired, timeout)
      invariant AllMoved(ops) && DoesAll(queues, base, ops, t, gone)
    {
      var x := s.sent[done];
      ScanSees(s, t, done, current, queueAt, othersAt, expired, timeout);
      if expired(x) {
        ScanTakes(s, t, done, current, queueAt, othersAt, expired, timeout);
        var at := if x.HasPacket() then queueAt else othersAt;
        TakenBackMoves(AfterOps(queues, ops), base, t, gone, current, at, timeout);
        var op := Moved(base + 2, current, if x.HasPacket() then base else base + 1, at);
        OneMore(queues, base, ops, op, t, TakenBack(t, current, at, timeout), gone, gone);
        ops, t := ops + [op], TakenBack(t, current, at, timeout);
        queueAt, othersAt := queueAt + (if x.HasPacket() then 1 else 0), othersAt + (if x.HasPacket() then 0 else 1);
      } else {
        ScanKeeps(s, t, done, current, queueAt, othersAt, expired, timeout);
        current := current + 1;
      }
    }
    ScanEnds(s, t, |s.sent|, current, queueAt, othersAt, expired, timeout);
  }

  lemma Nothing(queues: seq<seq<int>>, base: nat, s: Sender, gone: seq<OutCommand>)
    requires Placed(queues, base, s, gone)
    ensures DoesAll(queues, base, [], s, gone)
  {
  }

  /** The throttle drops a run of commands at the head of the other queue: each is released. */
  lemma {:induction false} DropReleases(queues: seq<seq<int>>, base: nat, s: Sender, gone: seq<OutCommand>,
                                        dropped: nat)
    requires Placed(queues, base, s, gone) && dropped <= |s.others|
    ensures DoesAll(queues, base, seq(dropped, _ => Released(base + 1, 0)), s.(others := s.others[dropped..]), gone)
  {
    hide Placed, OnlyAt, CanDo, AfterOp, AfterOps;
    if dropped == 0 {
      Nothing(queues, base, s, gone);
      assert s.others[0..] == s.others && seq(0, _ => Released(base + 1, 0)) == [];
    } else {
      DropReleases(queues, base, s, gone, dropped - 1);
      var ops, t := seq(dropped - 1, _ => Released(base + 1, 0)), s.(others := s.others[dropped - 1..]);
      FirstReleases(AfterOps(queues, ops), base, t, gone);
      assert t.others[1..] == s.others[dropped..];
      OneMore(queues, base, ops, Released(base + 1, 0), t, s.(others := s.others[dropped..]), gone, gone);
      assert seq(dropped, _ => Released(base + 1, 0)) == ops + [Released(base + 1, 0)];
    }
  }

  lemma FirstReleases(queues: seq<seq<int>>, base: nat, s: Sender, gone: seq<OutCommand>)
    requires Placed(queues, base, s, gone) && s.others != []
    ensures Does(queues, base, Released(base + 1, 0), s.(others := s.others[1..]), gone)
  {
    IdsWithout(s.others, 0);
  }

  /** Once the datagram is out, the unreliable commands in it are released. */
  lemma GoneAreReleased(queues: seq<seq<int>>, base: nat, s: Sender, gone: seq<OutCommand>)
    requires Placed(queues, base, s, gone)
    ensures DoesAll(queues, base, seq(|gone|, _ => Released(base + 3, 0)), s, [])
  {
    GoneUpTo(queues, base, s, gone, |gone|);
    assert gone[|gone|..] == [];
  }

  lemma {:induction false} GoneUpTo(queues: seq<seq<int>>, base: nat, s: Sender, gone: seq<OutCommand>, n: nat)
    requires Placed(queues, base, s, gone) && n <= |gone|
    ensures DoesAll(queues, base, seq(n, _ => Released(base + 3, 0)), s, gone[n..])
  {
    hide Placed, OnlyAt, CanDo, AfterOp, AfterOps;
    if n == 0 {
      Nothing(queues, base, s, gone);
      assert gone[0..] == gone && seq(0, _ => Released(base + 3, 0)) == [];
    } else {
      GoneUpTo(queues, base, s, gone, n - 1);
      var ops := seq(n - 1, _ => Released(base + 3, 0));
      FirstGoes(AfterOps(queues, ops), base, s, gone[n - 1..]);
      assert gone[n - 1..][1..] == gone[n..];
      OneMore(queues, base, ops, Released(base + 3, 0), s, s, gone[n - 1..], gone[n..]);
      assert seq(n, _ => Released(base + 3, 0)) == ops + [Released(base + 3, 0)];
    }
  }

  lemma FirstGoes(queues: seq<seq<int>>, base: nat, s: Sender, gone: seq<OutCommand>)
    requires Placed(queues, base, s, gone) && gone != []
    ensures Does(queues, base, Released(base + 3, 0), s, gone[1..])
  {
    IdsWithout(gone, 0);
  }

  /** Whatever the sending loop does is a sequence of such operations, and none of them queues a
      packet: `drops` says which of the unreliable commands are dropped instead of sent. So the
      flush of a broadcast, which allows any such sequence, covers it. */
  lemma PlaysShuffle(queues: seq<seq<int>>, base: nat, s: Sender, gone: seq<OutCommand>, s': Sender, moves: seq<Move>,
                     drops: seq<bool>,
                     now: nat, timeout: nat)
      returns (ops: seq<Op>, gone': seq<OutCommand>)
    requires Placed(queues, base, s, gone) && Shaped(s) && Plays(s, s', moves, now, timeout) && |drops| == |moves|
    ensures Shuffles(ops) && |ops| == |moves| && gone <= gone' && DoesAll(queues, base, ops, s', gone')
  {
    hide Placed, OnlyAt, CanDo, AfterOp, AfterOps, SendHead, SendOther, Admits;
    ops, gone' := [], gone;
    var t := s;
    Nothing(queues, base, s, gone);
    assert moves[0..] == moves;
    for m := 0 to |moves|
      invariant Shuffles(ops) && |ops| == m && gone <= gone' && DoesAll(queues, base, ops, t, gone')
      invariant Shaped(t) && Plays(t, s', moves[m..], now, timeout)
    {
      assert moves[m..][0] == moves[m] && moves[m..][1..] == moves[m + 1..];
      var op, t', more := MoveIsOp(AfterOps(queues, ops), base, t, gone', moves[m], drops[m], now, timeout);
      OneMore(queues, base, ops, op, t, t', gone', more);
      ops, t, gone' := ops + [op], t', more;
    }
  }

  lemma MoveIsOp(queues: seq<seq<int>>, base: nat, s: Sender, gone: seq<OutCommand>, move: Move, drop: bool, now: nat,
                 timeout: nat)
      returns (op: Op, s': Sender, gone': seq<OutCommand>)
    requires Placed(queues, base, s, gone) && Shaped(s) && if move.FromQueue? then s.queue != [] else s.others != []
    ensures s' == (if move.FromQueue? then SendHead(s, now, timeout) else SendOther(s, now, timeout)) && Shaped(s')
    ensures !op.Queued? && gone <= gone' && Does(queues, base, op, s', gone')
  {
    hide Placed, OnlyAt, AfterOp;
    s', gone' := if move.FromQueue? then SendHead(s, now, timeout) else SendOther(s, now, timeout), gone;
    if move.FromQueue? {
      op := Moved(base, 0, base + 2, |s.sent|);
      SendHeadMoves(queues, base, s, gone, now, timeout);
    } else {
      var x := s.others[0];
      SendOtherMoves(queues, base, s, gone, now, timeout);
      FirstReleases(queues, base, s, gone);
      if x.reliable {
        op := Moved(base + 1, 0, base + 2, |s.sent|);
      } else if x.HasPacket() && !drop {
        op, gone' := Moved(base + 1, 0, base + 3, |gone|), gone + [x];
      } else {
        op := Released(base + 1, 0);
      }
    }
  }
}
