/** The loop of passes in which a host sends what its peers have waiting. Each pass puts
    together one datagram for each peer, which may ask for another pass; the loop is shown to
    end.

    A peer asks for another pass only if something was left out for want of room, so something
    was put in. What is put in leaves the queues, but two things go back in: commands that
    time out, each at most once, since one sent now has not timed out; and pings, which stop
    as soon as any command waits to be acknowledged. One thing is added: the disconnect of a
    peer that waited until everything was sent, once for each peer. */
module SendLoop {
  import opened Windows
  import opened Commands
  import opened Lists
  import opened States
  import opened S = ReliableSender
  import opened P = SendingPeer

  // ---------------------------------------------------------------- the measure

  predicate IsPing(x: OutCommand) { x.reliable && x.load.kind == PING }

  function Pings(q: seq<OutCommand>): nat {
    if q == [] then 0 else (if IsPing(q[0]) then 1 else 0) + Pings(q[1..])
  }

  function Others(q: seq<OutCommand>): nat {
    if q == [] then 0 else (if IsPing(q[0]) then 0 else 1) + Others(q[1..])
  }

  /** The in-flight commands that were not sent just now. */
  function Earlier(sent: seq<OutCommand>, now: nat): nat {
    if sent == [] then 0 else (if sent[0].sentTime == now then 0 else 1) + Earlier(sent[1..], now)
  }

  /** What has to leave, not counting pings that wait. */
  function Weight(s: Sender, now: nat): nat {
    |s.queue| + Others(s.others) + 2 * Earlier(s.sent, now)
  }

  function Idle(s: Sender): nat { if s.sent == [] then 1 else 0 }

  lemma {:induction false} CountsJoin(a: seq<OutCommand>, b: seq<OutCommand>, now: nat)
    ensures Pings(a + b) == Pings(a) + Pings(b)
    ensures Others(a + b) == Others(a) + Others(b)
    ensures Earlier(a + b, now) == Earlier(a, now) + Earlier(b, now)
  {
    if a == [] {
      assert a + b == b;
    } else {
      CountsJoin(a[1..], b, now);
      assert (a + b)[1..] == a[1..] + b;
    }
  }

  predicate TimeoutsPositive(q: seq<OutCommand>) {
    forall i :: 0 <= i < |q| ==> q[i].timeout > 0
  }

  /** What one move does to the measure. */
  lemma MoveWeighs(s: Sender, move: Move, now: nat, timeout: nat, s': Sender)
    requires Shaped(s) && timeout > 0 && TimeoutsPositive(s.sent)
    requires match move
             case FromQueue => s.queue != [] && s' == SendHead(s, now, timeout)
             case FromOthers => s.others != [] && s' == SendOther(s, now, timeout)
    ensures TimeoutsPositive(s'.sent)
    ensures Weight(s', now) + Pings(s'.others) + 1 == Weight(s, now) + Pings(s.others)
    ensures Weight(s', now) <= Weight(s, now) && Pings(s'.others) <= Pings(s.others)
    ensures |s'.sent| >= |s.sent|
    ensures Weight(s', now) == Weight(s, now) ==> s'.sent != []
  {
    var x := if move.FromQueue? then s.queue[0] else s.others[0];
    var sent := Transmitted(x, now, timeout);
    CountsJoin(s.sent, [sent], now);
    assert [sent][1..] == [];
  }

  lemma {:induction false} PlaysWeigh(s: Sender, s': Sender, moves: seq<Move>, now: nat, timeout: nat)
    requires Shaped(s) && timeout > 0 && TimeoutsPositive(s.sent) && Plays(s, s', moves, now, timeout)
    ensures TimeoutsPositive(s'.sent)
    ensures Weight(s', now) + Pings(s'.others) + |moves| == Weight(s, now) + Pings(s.others)
    ensures Weight(s', now) <= Weight(s, now)
    ensures |s'.sent| >= |s.sent|
    ensures Weight(s', now) == Weight(s, now) && moves != [] ==> s'.sent != []
    decreases |moves|
  {
    if moves != [] {
      var t := if moves[0].FromQueue? then SendHead(s, now, timeout) else SendOther(s, now, timeout);
      MoveWeighs(s, moves[0], now, timeout, t);
      hide Weight, Pings;
      PlaysWeigh(t, s', moves[1..], now, timeout);
    }
  }

  /** Nothing sent just now is among the expired. */
  predicate OnlyEarlier(sent: seq<OutCommand>, expired: OutCommand -> bool, now: nat) {
    forall i :: 0 <= i < |sent| && expired(sent[i]) ==> sent[i].sentTime != now
  }

  lemma {:induction false} PickedWeigh(sent: seq<OutCommand>, expired: OutCommand -> bool, now: nat)
    requires OnlyEarlier(sent, expired, now)
    ensures |Picked(sent, expired, true)| + |Picked(sent, expired, false)| + Earlier(Kept(sent, expired), now)
            == Earlier(sent, now)
    ensures |Picked(sent, expired, true)| + |Picked(sent, expired, false)| + |Kept(sent, expired)| == |sent|
    ensures |Kept(sent, expired)| == |sent| ==> Kept(sent, expired) == sent
    ensures TimeoutsPositive(sent) ==> TimeoutsPositive(Kept(sent, expired))
  {
    if sent != [] {
      PickedWeigh(sent[1..], expired, now);
    }
  }

  lemma {:induction false} OthersFew(q: seq<OutCommand>)
    ensures Others(q) <= |q|
  {
    if q != [] { OthersFew(q[1..]); }
  }

  /** Taking timed-out commands back lightens the sender, unless there are none. */
  lemma RequeueWeighs(s: Sender, expired: OutCommand -> bool, timeout: nat, now: nat)
    requires OnlyEarlier(s.sent, expired, now) && TimeoutsPositive(s.sent)
    ensures var s' := Requeue(s, expired, timeout);
            && TimeoutsPositive(s'.sent)
            && (s' == s || Weight(s', now) < Weight(s, now))
            && Weight(s', now) + Idle(s') <= Weight(s, now) + Idle(s)
  {
    PickedWeigh(s.sent, expired, now);
    var back, others := Picked(s.sent, expired, true), Retimed(Picked(s.sent, expired, false), timeout);
    OthersFew(others);
    CountsJoin(others, s.others, now);
    if |back| + |others| == 0 {
      assert Retimed(back, timeout) + s.queue == s.queue && others + s.others == s.others;
    }
  }

  // ---------------------------------------------------------------- assumptions that passes keep

  /** No waiting packet has the two numbers that a coming ping will get. */
  predicate NumbersFree(q: seq<OutCommand>, last: nat, limit: nat) {
    forall i, k :: 0 <= i < |q| && q[i].HasPacket() && last < k <= limit
        ==> q[i].stored != Wire(k) || q[i].load.unreliable != 0
  }

  lemma {:induction false} PlaysLeaves(s: Sender, s': Sender, moves: seq<Move>, now: nat, timeout: nat) returns (n: nat)
    requires Shaped(s) && Plays(s, s', moves, now, timeout) && ControlApart(s) && Separable(s.others)
    requires forall i :: 0 <= i < |s.queue| ==> s.queue[i].HasPacket()
    ensures n <= |s.others| && s'.others == s.others[n..] && s'.lastControl == s.lastControl && ControlApart(s')
    decreases |moves|
  {
    if moves == [] {
      n := 0;
    } else {
      var t := if moves[0].FromQueue? then SendHead(s, now, timeout) else SendOther(s, now, timeout);
      MoveLeaves(s, moves[0], t, now, timeout);
      hide ControlApart, Separable;
      var m := PlaysLeaves(t, s', moves[1..], now, timeout);
      n := if moves[0].FromQueue? then m else m + 1;
    }
  }

  lemma MoveLeaves(s: Sender, move: Move, s': Sender, now: nat, timeout: nat)
    requires Shaped(s) && ControlApart(s) && Separable(s.others)
    requires forall i :: 0 <= i < |s.queue| ==> s.queue[i].HasPacket()
    requires match move
             case FromQueue => s.queue != [] && s' == SendHead(s, now, timeout)
             case FromOthers => s.others != [] && s' == SendOther(s, now, timeout)
    ensures ControlApart(s') && Separable(s'.others) && s'.lastControl == s.lastControl
    ensures s'.others == if move.FromQueue? then s.others else s.others[1..]
  {
    forall x, y | x in s'.sent && !x.HasPacket() && y in s'.others && y.HasPacket()
      ensures !SamePacket(x, y)
    {
      assert y in s.others;
      if move.FromOthers? && x !in s.sent {
        var first := s.others[0];
        assert x == Transmitted(first, now, timeout);
        assert SamePacket(x, y) ==> SamePacket(y, first);
      }
    }
  }

  lemma RequeueLeaves(s: Sender, expired: OutCommand -> bool, timeout: nat)
    requires ControlApart(s)
    ensures var s' := Requeue(s, expired, timeout);
            && ControlApart(s') && s'.lastControl == s.lastControl
            && forall i :: 0 <= i < |s'.others| && s'.others[i].HasPacket() ==> s'.others[i] in s.others
  {
    PickedFrom(s.sent, expired);
    var s', back := Requeue(s, expired, timeout), Picked(s.sent, expired, false);
    forall i | 0 <= i < |back|
      ensures !s'.others[i].HasPacket()
    {
      assert back[i] in back;
      assert s'.others[i] == back[i].(timeout := timeout);
    }
    forall i | |back| <= i < |s'.others|
      ensures s'.others[i] in s.others
    {
      assert s'.others[i] == s.others[i - |back|];
    }
    KeptFrom(s.sent, expired);
    forall x, y | x in s'.sent && !x.HasPacket() && y in s'.others && y.HasPacket()
      ensures !SamePacket(x, y)
    {
      var i :| 0 <= i < |s'.others| && s'.others[i] == y;
    }
  }

  lemma {:induction false} KeptFrom(sent: seq<OutCommand>, expired: OutCommand -> bool)
    ensures forall x :: x in Kept(sent, expired) ==> x in sent
  {
    if sent != [] { KeptFrom(sent[1..], expired); }
  }

  // ---------------------------------------------------------------- what a peer still has to do

  /** The work a peer still makes: none, once it stops asking for passes. */
  datatype Work = Work(asking: nat, weight: nat, idle: nat, pings: nat)

  function Plus(x: Work, y: Work): Work {
    Work(x.asking + y.asking, x.weight + y.weight, x.idle + y.idle, x.pings + y.pings)
  }

  function Total(s: seq<Work>): Work {
    if s == [] then Work(0, 0, 0, 0) else Plus(s[0], Total(s[1..]))
  }

  predicate Smaller(x: Work, y: Work) {
    x.asking < y.asking || (x.asking == y.asking && Less(x.weight, x.idle, x.pings, y.weight, y.idle, y.pings))
  }

  lemma {:induction false} TotalUpdate(s: seq<Work>, i: nat, x: Work)
    requires i < |s|
    ensures Plus(Total(s[i := x]), s[i]) == Plus(Total(s), x)
  {
    if i > 0 {
      TotalUpdate(s[1..], i - 1, x);
      assert s[i := x][1..] == s[1..][i - 1 := x];
    } else {
      assert s[0 := x][1..] == s[1..];
    }
  }

  predicate Less(a: nat, b: nat, c: nat, a': nat, b': nat, c': nat) {
    a < a' || (a == a' && (b < b' || (b == b' && c < c')))
  }

  predicate NotLarger(x: Work, y: Work) { x == y || Smaller(x, y) }

  /** What a peer asks for: acknowledgements, commands, and the disconnect to come. */
  function WorkAt(due: nat, state: State, s: Sender, now: nat): Work {
    Work(1, due + Weight(s, now) + (if state == DisconnectLater then 2 else 0), Idle(s), Pings(s.others))
  }

  function Todo(p: Peer, now: nat): Work
    reads p
  {
    WorkAt(|p.acknowledgements|, p.state, p.State(), now)
  }

  /** Sending commands, by moves that lead from `s` to `s'`, makes less of it, by weight unless a
      ping is in flight afterwards. */
  lemma PlaysLighten(s: Sender, s': Sender, moves: seq<Move>, now: nat, timeout: nat, due: nat, state: State)
    requires Shaped(s) && timeout > 0 && TimeoutsPositive(s.sent) && Plays(s, s', moves, now, timeout)
    ensures var w, w' := WorkAt(due, state, s, now), WorkAt(due, state, s', now);
            && TimeoutsPositive(s'.sent) && NotLarger(w', w) && w'.weight <= w.weight
            && w'.weight + w'.idle <= w.weight + w.idle
            && (moves == [] ==> w' == w)
            && (moves != [] ==> Smaller(w', w) && (w'.weight < w.weight || w'.idle == 0))
            && (moves != [] && s'.sent == [] ==> w'.weight < w.weight)
            && (moves != [] && (w.idle == 1 || s'.sent == []) ==> w'.weight + w'.idle < w.weight + w.idle)
  {
    PlaysWeigh(s, s', moves, now, timeout);
  }

  /** So does the end of a wait. */
  lemma WaitLightens(s: Sender, now: nat, due: nat)
    requires Spent(s)
    ensures var s' := AfterWait(DisconnectLater, s);
            && WorkAt(0, Disconnecting, s', now).asking == 1
            && WorkAt(0, Disconnecting, s', now).weight < WorkAt(due, DisconnectLater, s, now).weight
            && WorkAt(0, Disconnecting, s', now).idle == WorkAt(due, DisconnectLater, s, now).idle
            && s'.lastControl == s.lastControl + 1
            && s'.sent == [] && s'.queue == [] && |s'.others| == 1 && s'.others[0].load == DISCONNECT_LOAD
            && ControlApart(s')
  {
    var q := AfterWait(DisconnectLater, s).others;
    assert |q| == 1 && q[1..] == [] && Others(q) == 1 + Others(q[1..]);
  }

  lemma PingWeighs(s: Sender, now: nat, due: nat, state: State)
    ensures var w := WorkAt(due, state, s, now);
            WorkAt(due, state, EnqueueControl(s, PING_LOAD), now) == w.(pings := w.pings + 1)
  {
    var ping := EnqueueControl(s, PING_LOAD).others[|s.others|];
    CountsJoin(s.others, [ping], now);
    assert [ping][1..] == [];
  }

  /** In terms of work: `w1` becomes `w2` by `n` moves, `w3` with a ping queued, and `w4` by another
      `m` moves. A ping alone makes more of it, but moves on either side make less. */
  lemma MovesOutweighPing(w1: Work, w2: Work, w3: Work, w4: Work, n: nat, m: nat, pinged: bool)
    requires w1.asking == w2.asking == w3.asking == w4.asking
    requires NotLarger(w2, w1) && w2.weight <= w1.weight && (n > 0 ==> Smaller(w2, w1))
    requires if pinged then w3 == w2.(pings := w2.pings + 1) && w2.idle == 1 && (n > 0 ==> w2.weight < w1.weight)
             else w3 == w2
    requires NotLarger(w4, w3) && w4.weight <= w3.weight
             && (m > 0 ==> Smaller(w4, w3) && (w4.weight < w3.weight || w4.idle == 0))
    ensures w4.weight <= w1.weight
    ensures n > 0 || m > 0 ==> Smaller(w4, w1)
  {
  }

  // ---------------------------------------------------------------- what a pass does

  /** What a pass may change of a peer. */
  datatype View = View(state: State, due: seq<Due>, sender: Sender, counter: nat, noted: Time, again: bool)

  function ViewOf(p: Peer): View
    reads p
  {
    View(p.state, p.acknowledgements, p.State(), p.packetThrottleCounter, p.earliestTimeout, p.continueSending)
  }

  /** What it does not. */
  datatype Terms = Terms(rules: Rules, mtu: nat, limits: Patience)

  function TermsOf(p: Peer, now: Time): Terms
    reads p
  {
    Terms(p.RulesAt(now), p.mtu, p.Limits())
  }

  /** `timeoutDue` and `pingDue` stand for the timers; `event` says that the caller wants to hear of a
      lost connection. */
  datatype Inputs = Inputs(now: Time, reserved: nat, timeoutDue: bool, pingDue: bool, event: bool)

  function WorkIn(v: View, now: nat): Work { WorkAt(|v.due|, v.state, v.sender, now) }

  function ReachIn(v: View, now: nat): nat { v.sender.lastControl + WorkIn(v, now).weight + WorkIn(v, now).idle }

  /** A batch made by `moves` makes less of the work, by weight unless something is in flight
      afterwards, and less of the control numbers in reach. */
  predicate Lightens(v: View, v': View, moves: seq<Move>, now: nat) {
    var w, w' := WorkIn(v, now), WorkIn(v', now);
    && NotLarger(w', w) && w'.weight <= w.weight
    && (moves != [] ==> Smaller(w', w) && (w'.weight < w.weight || w'.idle == 0))
    && (moves != [] && v'.sender.sent == [] ==> w'.weight < w.weight)
    && ReachIn(v', now) <= ReachIn(v, now)
    && (moves != [] && (w.idle == 1 || v'.sender.sent == []) ==> ReachIn(v', now) < ReachIn(v, now))
  }

  /** A peer after a batch of commands. */
  function AfterBatch(v: View, r: Batch, flight: nat): View
    requires Shaped(r.filled.sender)
  {
    View(r.state, if r.state == v.state then v.due else [], r.sender, r.filled.counter, v.noted,
         v.again || IsDue(r.filled.sender, flight))
  }

  /** The bytes counted for a datagram. */
  function SizeIn(reserved: nat, acks: nat, put: seq<OutCommand>): nat {
    reserved + SizeOf(ACKNOWLEDGE) * acks + WireSizes(put)
  }

  /** Of the acknowledgements due, as many as fit go first. */
  predicate AcksFit(n: nat, due: nat, reserved: nat, mtu: nat) {
    && n <= due && n <= MAXIMUM_COMMANDS && SizeIn(reserved, n, []) <= mtu
    && (n < due ==> n == MAXIMUM_COMMANDS || SizeIn(reserved, n + 1, []) > mtu)
  }

  ghost function AfterAcks(v: View, n: nat): View
    requires n <= |v.due|
  {
    v.(state := if AnyDisconnect(v.due[..n]) then Zombie else v.state, due := v.due[n..], again := n < |v.due|)
  }

  predicate ChecksTimeouts(v: View, x: Inputs) { x.timeoutDue && v.sender.sent != [] }

  /** The timeouts are checked up to `at`; if that is a command, the connection is lost at it. */
  ghost predicate TimesOut(v: View, v': View, t: Terms, x: Inputs, at: nat) {
    && Checked(v.sender.sent, v.noted, v'.noted, at, x.now, t.limits)
    && v'.again == v.again && v'.counter == v.counter
    && if at == |v.sender.sent|
       then v'.state == v.state && v'.due == v.due && v'.sender == Requeue(v.sender, Expired(x.now), t.rules.timeout)
       else && v'.state == v.state.Lost(x.event)
            && if v'.state == Disconnected then v'.due == [] && v'.sender == Sender([], 0, [], [], [], 0)
               else && v'.due == v.due
                    && Progress(v.sender, v'.sender, v.sender.sent[..at], v.sender.sent[at..], Expired(x.now),
                       t.rules.timeout)
  }

  predicate IsQuiet(s: Sender) { s.queue == [] && s.others == [] }

  function Empty(v: View): Filling { Filling(v.sender, v.counter, [], []) }

  /** A ping is due after the first round of commands: nothing reliable was, nothing is in flight, and
      the datagram, with `acks` acknowledgements, has room. */
  predicate Pings?(v: View, t: Terms, x: Inputs, acks: nat, first: Batch)
    requires Shaped(first.filled.sender)
  {
    && (IsQuiet(v.sender) || CanPing(first, 0, t.rules.flight))
    && first.sender.sent == [] && x.pingDue
    && SizeIn(x.reserved, acks, first.filled.put) + SizeOf(PING) <= t.mtu
  }

  function Pinged(first: Batch): Filling {
    first.filled.(sender := if first.state == Connected then EnqueueControl(first.sender, PING_LOAD) else first.sender)
  }

  /** A round of commands, if any wait; then a ping, if one is due and the peer is connected, and a
      second round. */
  ghost predicate Serves(v: View, v': View, t: Terms, x: Inputs, acks: nat, first: Batch, second: Batch)
    requires Shaped(v.sender)
  {
    && Shaped(first.filled.sender) && Shaped(first.sender) && Shaped(second.filled.sender)
    && (if IsQuiet(v.sender) then first == Batch([], Empty(v), v.sender, v.state)
        else Goes(Empty(v), v.state, first, t.rules))
    && (if Pings?(v, t, x, acks, first) then Goes(Pinged(first), first.state, second, t.rules) else second == first)
    && v' == View(second.state, if second.state == v.state then v.due else [], second.sender, second.filled.counter,
                  v.noted, v.again || IsDue(first.filled.sender, t.rules.flight)
                      || IsDue(second.filled.sender, t.rules.flight))
  }

  /** The datagram, if it holds any of `count` commands, is out: what was unreliable in it goes, and
      a wait may end. */
  function Released(v: View, released: seq<OutCommand>, count: nat): View {
    if count > 0 && released != [] && v.state == DisconnectLater && Spent(v.sender)
    then v.(state := Disconnecting, due := [], sender := AfterWait(v.state, v.sender))
    else v
  }

  /** What one pass does for a peer, as the code lists it: acknowledgements, timeouts, commands and
      the ping, and the release. */
  datatype Log = Log(acks: nat, checked: View, at: nat, first: Batch, second: Batch, served: View)

  ghost predicate Passed(v: View, v': View, t: Terms, x: Inputs, log: Log) {
    && AcksFit(log.acks, |v.due|, x.reserved, t.mtu)
    && var w := AfterAcks(v, log.acks);
       && (if ChecksTimeouts(w, x) then TimesOut(w, log.checked, t, x, log.at)
          else log.checked == w && log.at == |w.sender.sent|)
       && if log.at < |w.sender.sent| then v' == log.checked
          else && Shaped(log.checked.sender)
               && Serves(log.checked, log.served, t, x, log.acks, log.first, log.second)
               && v' == Released(log.served, log.second.filled.released, log.acks + |log.second.filled.put|)
  }

  // ---------------------------------------------------------------- the loop

  /** The control numbers the loop can still come to use up to. */
  function Reach(p: Peer, now: nat): nat
    reads p
  {
    p.lastControl + Todo(p, now).weight + Todo(p, now).idle
  }

  ghost predicate Steady(p: Peer, limit: nat)
    reads p
  {
    p.Valid() && p.Timeout() > 0 && InOrder(p.State(), limit)
  }

  /** What the loop needs of the commands; `limit` bounds the control numbers. */
  ghost predicate InOrder(s: Sender, limit: nat) {
    ControlApart(s) && TimeoutsPositive(s.sent) && NumbersFree(s.others, s.lastControl, limit)
  }

  /** A peer as a pass finds it at time `now`; `limit` bounds the control numbers. */
  ghost predicate Ready(p: Peer, now: Time, limit: nat)
    reads p
  {
    Steady(p, limit) && Reach(p, now) <= limit
  }

  /** A peer with nothing queued or in flight is so: a new one, for instance. */
  lemma EmptyIsReady(p: Peer, now: Time, limit: nat)
    requires p.Valid() && p.Timeout() > 0 && p.acknowledgements == [] && p.queue == p.others == p.sent == []
    requires p.state != DisconnectLater && p.lastControl < limit
    ensures Ready(p, now, limit)
  {
  }

  /** A new peer is ready from the start. */
  method NewPeer(channelCount: nat, mtu: nat, windowSize: nat, ghost now: Time) returns (p: Peer)
    requires 1 <= channelCount <= S.CONTROL && MINIMUM_MTU <= mtu <= MAXIMUM_MTU && 4096 <= windowSize <= 65536
    ensures fresh(p) && Ready(p, now, 1) && p.state == Connecting
  {
    p := new Peer(channelCount, mtu, windowSize);
    EmptyIsReady(p, now, 1);
  }

  /** A smoothed round-trip time of at least a millisecond keeps what was sent now from
      timing out now. */
  lemma SentNowIsNotExpired(sent: seq<OutCommand>, now: Time)
    requires TimeoutsPositive(sent)
    ensures OnlyEarlier(sent, Expired(now), now)
  {
    assert TimeDifference(now, now) == 0;
    forall i | 0 <= i < |sent| && sent[i].sentTime == now
      ensures !Expired(now)(sent[i])
    {
    }
  }

  /** It waited to disconnect and starts to: just that command is left. */
  predicate Leaving(p: Peer)
    reads p
  {
    p.state == Disconnecting && p.queue == [] && p.sent == [] && |p.others| == 1 && p.others[0].load == DISCONNECT_LOAD
  }

  /** Nothing is left that could go now, but the disconnect of a peer that starts to leave. */
  ghost predicate Done(p: Peer)
    reads p
  {
    p.Valid() && p.acknowledgements == [] && ((p.others == [] && (p.queue == [] || p.Blocked())) || Leaving(p))
  }

  /** A batch of commands, by `moves` of the sender, takes a peer from `v` to `v'`. */
  ghost predicate Batched(f: Filling, v: View, v': View, r: Batch, moves: seq<Move>, rules: Rules) {
    && f.sender == v.sender && Shaped(f.sender) && Shaped(r.filled.sender) && Goes(f, v.state, r, rules)
    && Plays(f.sender, r.filled.sender, moves, rules.now, rules.timeout) && v' == AfterBatch(v, r, rules.flight)
  }

  /** How a batch leaves a peer and its datagram, which held `from` commands before. */
  ghost predicate Left(p: Peer, d: Datagram, r: Batch, canPing: bool, from: nat)
    reads p, d
  {
    && p.Valid() && d.Within(p.mtu) && Shaped(r.filled.sender) && from <= |r.filled.put|
    && r.filled == Filling(r.filled.sender, p.packetThrottleCounter, d.commands, d.sentUnreliable)
    && p.State() == r.sender && p.state == r.state && (canPing <==> CanPing(r, from, p.FlightLimit()))
    && (p.continueSending || Done(p)) && (p.acknowledgements != [] ==> p.continueSending)
  }

  /** One round of commands into the datagram. */
  method MakeBatch(p: Peer, d: Datagram, now: Time) returns (canPing: bool, ghost moves: seq<Move>, ghost r: Batch)
    requires p.Valid() && d.Within(p.mtu) && (p.acknowledgements != [] ==> p.continueSending)
    modifies p`channels, p`queue, p`others, p`sent, p`inTransit, p`packetThrottleCounter, p`continueSending, d
    modifies p`state, p`acknowledgements, p`lastControl
    ensures p.Valid() && Left(p, d, r, canPing, |old(d.commands)|)
    ensures Batched(old(p.Stage(d)), old(ViewOf(p)), ViewOf(p), r, moves, p.RulesAt(now))
    ensures d.acknowledged == old(d.acknowledged) && (old(p.continueSending) ==> p.continueSending)
    ensures p.continueSending && !old(p.continueSending) && old(d.Fresh()) ==> moves != []
    ensures old(d.Fresh()) && moves == [] ==> d.Fresh()
  {
    ghost var f, v := p.Stage(d), ViewOf(p);
    ValidIsShaped(p);
    hide Peer.Valid, ValidState, Plays, Datagram.Within, Datagram.Fresh, AfterWait, Fills, CanPing, IsDue, DueHead,
         SentIsPut, Goes, Done, NoRoomIn, Shaped, Peer.Blocked, TimeoutOf, FlightOf, Batched, AfterBatch,
         Left;
    canPing, r, moves := p.CheckOutgoing(d, now);
    BatchEnds(f, v.state, r, p.RulesAt(now));
    BatchIs(f, v, ViewOf(p), r, moves, p.RulesAt(now));
    if !p.continueSending { BatchIsDone(p, v.state, r); }
    IsLeft(p, d, r, canPing, |f.put|);
  }

  lemma IsLeft(p: Peer, d: Datagram, r: Batch, canPing: bool, from: nat)
    requires p.Valid() && d.Within(p.mtu) && Shaped(r.filled.sender) && from <= |r.filled.put|
    requires r.filled == Filling(r.filled.sender, p.packetThrottleCounter, d.commands, d.sentUnreliable)
    requires p.State() == r.sender && p.state == r.state && (canPing <==> CanPing(r, from, p.FlightLimit()))
    requires (p.continueSending || Done(p)) && (p.acknowledgements != [] ==> p.continueSending)
    ensures Left(p, d, r, canPing, from)
  {
  }

  lemma BatchIs(f: Filling, v: View, v': View, r: Batch, moves: seq<Move>, rules: Rules)
    requires f.sender == v.sender && Shaped(f.sender) && Goes(f, v.state, r, rules) && Shaped(r.filled.sender)
    requires Plays(f.sender, r.filled.sender, moves, rules.now, rules.timeout)
    requires v' == View(r.state, if r.state == v.state then v.due else [], r.sender, r.filled.counter, v.noted,
                        v.again || IsDue(r.filled.sender, rules.flight))
    ensures Batched(f, v, v', r, moves, rules)
  {
    hide Goes, Plays;
  }

  /** What it does to the measure. */
  method SendCommands(p: Peer, d: Datagram, now: Time, ghost limit: nat)
    returns (canPing: bool, ghost moves: seq<Move>, ghost r: Batch)
    requires Steady(p, limit) && d.Within(p.mtu) && (p.acknowledgements != [] ==> p.continueSending)
    modifies p`channels, p`queue, p`others, p`sent, p`inTransit, p`packetThrottleCounter, p`continueSending, d
    modifies p`state, p`acknowledgements, p`lastControl
    ensures Steady(p, limit) && Left(p, d, r, canPing, |old(d.commands)|)
    ensures Batched(old(p.Stage(d)), old(ViewOf(p)), ViewOf(p), r, moves, p.RulesAt(now))
    ensures Lightens(old(ViewOf(p)), ViewOf(p), moves, now)
    ensures d.acknowledged == old(d.acknowledged) && (old(p.continueSending) ==> p.continueSending)
    ensures p.continueSending && !old(p.continueSending) && old(d.Fresh()) ==> moves != []
    ensures old(d.Fresh()) && moves == [] ==> d.Fresh()
  {
    ghost var f, v := p.Stage(d), ViewOf(p);
    hide Steady, Peer.Valid, ValidState, Orderly, Shaped, Datagram.Within, Datagram.Fresh, CanPing, Done, InOrder,
         Batched,
         Lightens, TimeoutOf, FlightOf, TermsOf, Left;
    SteadyParts(p, limit);
    canPing, moves, r := MakeBatch(p, d, now);
    BatchLightens(f, v, ViewOf(p), r, moves, p.RulesAt(now), limit);
    SteadyAgain(p, limit);
  }

  lemma LeftIs(p: Peer, d: Datagram, r: Batch, canPing: bool, from: nat)
    requires Left(p, d, r, canPing, from)
    ensures p.Valid() && d.Within(p.mtu) && Shaped(r.filled.sender) && from <= |r.filled.put|
    ensures r.filled == Filling(r.filled.sender, p.packetThrottleCounter, d.commands, d.sentUnreliable)
    ensures p.State() == r.sender && p.state == r.state && (canPing <==> CanPing(r, from, p.FlightLimit()))
    ensures (p.continueSending || Done(p)) && (p.acknowledgements != [] ==> p.continueSending)
  {
  }

  lemma SteadyParts(p: Peer, limit: nat)
    requires Steady(p, limit)
    ensures p.Valid() && p.Timeout() > 0 && InOrder(p.State(), limit)
    ensures Shaped(p.State()) && Orderly(p.State()) && Separable(p.others)
  {
  }

  lemma SteadyAgain(p: Peer, limit: nat)
    requires p.Valid() && p.Timeout() > 0 && InOrder(p.State(), limit)
    ensures Steady(p, limit)
  {
  }

  lemma BatchIsDone(p: Peer, before: State, r: Batch)
    requires p.Valid() && p.State() == r.sender && p.state == r.state && p.acknowledgements == []
    requires r.filled.sender.others == []
             && (r.filled.sender.queue == [] || (p.State() == r.filled.sender && p.Blocked()))
    requires Shaped(r.filled.sender) && (r.state == before ==> r.sender == r.filled.sender)
    requires r.state != before ==> r.state == Disconnecting && r.sender.queue == [] && r.sender.sent == []
                                   && |r.sender.others| == 1 && r.sender.others[0].load == DISCONNECT_LOAD
    ensures Done(p)
  {
  }

  lemma ValidIsShaped(p: Peer)
    requires p.Valid()
    ensures Shaped(p.State())
  {
  }

  /** A wait that ends leaves just the disconnect. */
  lemma BatchEnds(f: Filling, state: State, r: Batch, rules: Rules)
    requires Shaped(f.sender) && Goes(f, state, r, rules)
    ensures Shaped(r.sender)
    ensures r.state == state ==> r.sender == r.filled.sender
    ensures r.state != state ==> state == DisconnectLater && r.state == Disconnecting && r.sender.queue == []
                                 && r.sender.sent == []
                                 && |r.sender.others| == 1 && r.sender.others[0].load == DISCONNECT_LOAD
  {
    hide Fills;
  }

  /** What a batch of commands does to the measure. */
  lemma BatchLightens(f: Filling, v: View, v': View, r: Batch, moves: seq<Move>, rules: Rules, limit: nat)
    requires Orderly(f.sender) && Separable(f.sender.others) && rules.timeout > 0
    requires InOrder(f.sender, limit) && Batched(f, v, v', r, moves, rules)
    ensures InOrder(v'.sender, limit) && Lightens(v, v', moves, rules.now) && Shaped(r.filled.sender)
  {
    hide Plays, NumbersFree, TimeoutsPositive, ControlApart, WorkAt, AfterWait, NotLarger, Smaller, Fills, Orderly,
         IsDue;
    var s, filled, now, due, state := f.sender, r.filled.sender, rules.now, |v.due|, v.state;
    PlaysLighten(s, filled, moves, now, rules.timeout, due, state);
    FilledReady(s, filled, moves, now, rules.timeout, limit);
    WorkIs(due, state, s, now);
    WorkIs(due, state, filled, now);
    if r.state != state {
      WaitLightens(filled, now, due);
      WaitWork(WorkAt(due, state, s, now), WorkAt(due, state, filled, now), WorkAt(0, Disconnecting, r.sender, now));
      OneControlFree(r.sender.others, r.sender.lastControl, limit);
      assert TimeoutsPositive([]) by { NoTimeouts(); }
    }
  }

  lemma WorkIs(due: nat, state: State, s: Sender, now: nat)
    ensures var w := WorkAt(due, state, s, now);
            w.asking == 1 && w.idle == Idle(s) && (s.sent == [] ==> w.idle == 1)
  {
  }

  lemma WaitWork(w0: Work, w1: Work, w2: Work)
    requires NotLarger(w1, w0) && w2.asking == w1.asking && w2.weight < w1.weight && w2.idle == w1.idle
             && w1.weight + w1.idle <= w0.weight + w0.idle
    requires w1.weight <= w0.weight
    ensures Smaller(w2, w0) && NotLarger(w2, w0) && w2.weight < w0.weight && w2.weight + w2.idle < w0.weight + w0.idle
  {
  }

  lemma OneControlFree(q: seq<OutCommand>, last: nat, limit: nat)
    requires |q| == 1 && q[0].load == DISCONNECT_LOAD
    ensures NumbersFree(q, last, limit)
  {
  }

  lemma NoTimeouts()
    ensures TimeoutsPositive([])
  {
  }

  /** The assumptions stay true while commands are sent. */
  lemma FilledReady(s: Sender, s': Sender, moves: seq<Move>, now: nat, timeout: nat, limit: nat)
    requires Shaped(s) && Orderly(s) && Plays(s, s', moves, now, timeout) && ControlApart(s) && Separable(s.others)
    requires NumbersFree(s.others, s.lastControl, limit)
    ensures ControlApart(s') && NumbersFree(s'.others, s'.lastControl, limit) && s'.lastControl == s.lastControl
  {
    hide ControlApart, Plays;
    var n := PlaysLeaves(s, s', moves, now, timeout);
    SuffixFree(s.others, n, s.lastControl, limit);
  }

  lemma SuffixFree(q: seq<OutCommand>, n: nat, last: nat, limit: nat)
    requires n <= |q| && NumbersFree(q, last, limit)
    ensures NumbersFree(q[n..], last, limit)
  {
  }

  /** The timeout check of a pass, */
  method CheckTimeouts(p: Peer, now: Time, event: bool, ghost x: Inputs, ghost v: View, ghost t: Terms)
    returns (gaveUp: bool, ghost at: nat)
    requires p.Valid() && ControlApart(p.State()) && x.now == now && x.event == event
    requires v == ViewOf(p) && t == TermsOf(p, now)
    modifies p`queue, p`others, p`sent, p`inTransit, p`earliestTimeout, p`state, p`acknowledgements, p`channels,
             p`lastControl
    ensures TimesOut(v, ViewOf(p), t, x, at) && t == TermsOf(p, now)
    ensures at <= |v.sender.sent| && (gaveUp <==> at < |v.sender.sent|)
    ensures gaveUp ==> p.state.IsAbsent()
    ensures !gaveUp ==> p.Valid()
                        && ViewOf(p) == v.(sender := Requeue(v.sender, Expired(now), t.rules.timeout),
                           noted := p.earliestTimeout)
  {
    hide Peer.Valid, ControlApart, Requeue, Checked, Progress, TimesOut, Expired, TimeoutOf, FlightOf;
    gaveUp, at := p.CheckTimeouts(now, event);
    TimesOutIs(v, ViewOf(p), t, x, at);
  }

  /** and what it does to the measure. */
  method TakeBack(p: Peer, now: Time, event: bool, ghost limit: nat, ghost x: Inputs, ghost v: View, ghost t: Terms)
    returns (gaveUp: bool, ghost at: nat)
    requires Ready(p, now, limit) && x.now == now && x.event == event && v == ViewOf(p) && t == TermsOf(p, now)
    modifies p`queue, p`others, p`sent, p`inTransit, p`earliestTimeout, p`state, p`acknowledgements, p`channels,
             p`lastControl
    ensures gaveUp ==> p.state.IsAbsent()
    ensures !gaveUp ==> Ready(p, now, limit) && p.acknowledgements == old(p.acknowledgements)
    ensures !gaveUp ==> Reach(p, now) <= old(Reach(p, now))
    ensures !gaveUp ==> Todo(p, now) == old(Todo(p, now)) || Todo(p, now).weight < old(Todo(p, now)).weight
    ensures at <= |v.sender.sent| && (gaveUp <==> at < |v.sender.sent|)
    ensures TimesOut(v, ViewOf(p), t, x, at) && t == TermsOf(p, now)
  {
    hide Peer.Valid, Steady, Todo, Reach, ControlApart, Requeue, TimesOut, TimeoutOf, FlightOf, InOrder, WorkIn,
         ReachIn,
         Expired;
    SteadyParts(p, limit);
    InOrderParts(v.sender, limit);
    ViewWork(p, now);
    gaveUp, at := CheckTimeouts(p, now, event, x, v, t);
    if !gaveUp {
      TakingBackLightens(v, ViewOf(p), now, t.rules.timeout, limit);
      SteadyAgain(p, limit);
      ViewWork(p, now);
    }
  }

  lemma InOrderParts(s: Sender, limit: nat)
    requires InOrder(s, limit)
    ensures ControlApart(s) && TimeoutsPositive(s.sent) && NumbersFree(s.others, s.lastControl, limit)
  {
  }

  lemma TakingBackLightens(v: View, v': View, now: Time, timeout: nat, limit: nat)
    requires InOrder(v.sender, limit)
    requires v' == v.(sender := Requeue(v.sender, Expired(now), timeout), noted := v'.noted)
    ensures InOrder(v'.sender, limit) && ReachIn(v', now) <= ReachIn(v, now)
    ensures WorkIn(v', now) == WorkIn(v, now) || WorkIn(v', now).weight < WorkIn(v, now).weight
  {
    hide ControlApart, TimeoutsPositive, NumbersFree, Requeue, Weight, Idle, Expired;
    SentNowIsNotExpired(v.sender.sent, now);
    RequeueWeighs(v.sender, Expired(now), timeout, now);
    RequeueLeaves(v.sender, Expired(now), timeout);
    SameFree(v.sender.others, v'.sender.others, v.sender.lastControl, limit);
  }

  lemma TimesOutIs(v: View, v': View, t: Terms, x: Inputs, at: nat)
    requires Checked(v.sender.sent, v.noted, v'.noted, at, x.now, t.limits)
    requires v'.again == v.again && v'.counter == v.counter
    requires at >= |v.sender.sent|
             ==> v'.state == v.state && v'.due == v.due
                 && v'.sender == Requeue(v.sender, Expired(x.now), t.rules.timeout)
    requires at < |v.sender.sent| ==> v'.state == v.state.Lost(x.event)
    requires at < |v.sender.sent| && v'.state == Disconnected
             ==> v'.due == [] && v'.sender == Sender([], 0, [], [], [], 0)
    requires at < |v.sender.sent| && v'.state != Disconnected
             ==> v'.due == v.due
                 && Progress(v.sender, v'.sender, v.sender.sent[..at], v.sender.sent[at..], Expired(x.now),
                    t.rules.timeout)
    ensures TimesOut(v, v', t, x, at) && at <= |v.sender.sent|
  {
    hide GivesUp, Earliest, Progress, Requeue, Expired;
  }

  lemma SameFree(q: seq<OutCommand>, q': seq<OutCommand>, last: nat, limit: nat)
    requires NumbersFree(q, last, limit)
    requires forall i :: 0 <= i < |q'| && q'[i].HasPacket() ==> q'[i] in q
    ensures NumbersFree(q', last, limit)
  {
  }

  lemma PingFree(q: seq<OutCommand>, ping: OutCommand, last: nat, limit: nat)
    requires NumbersFree(q, last, limit) && last < limit && !ping.HasPacket()
    ensures forall y :: y in q && y.HasPacket() ==> y.stored != Wire(last + 1) || y.load.unreliable != 0
    ensures NumbersFree(q + [ping], last + 1, limit)
  {
  }

  /** A ping is queued, if the peer is connected. With nothing in flight its number is still within
      the limit. */
  method Ping(p: Peer, now: Time, ghost limit: nat)
    requires Ready(p, now, limit) && p.sent == []
    modifies p`lastControl, p`others
    ensures Steady(p, limit)
    ensures Reach(p, now) <= old(Reach(p, now)) + (if p.state == Connected then 1 else 0)
    ensures if p.state == Connected
            then p.State() == EnqueueControl(old(p.State()), PING_LOAD)
                && Todo(p, now) == old(Todo(p, now).(pings := Todo(p, now).pings + 1))
            else p.State() == old(p.State()) && Todo(p, now) == old(Todo(p, now))
  {
    ghost var s := p.State();
    ghost var s' := EnqueueControl(s, PING_LOAD);
    PingFree(s.others, s'.others[|s.others|], s.lastControl, limit);
    ControlStaysApart(s);
    PingWeighs(s, now, |p.acknowledgements|, p.state);
    hide ValidState, NumbersFree, ControlApart, WorkAt, Weight;
    p.Ping();
  }

  lemma ControlStaysApart(s: Sender)
    requires ControlApart(s)
    ensures ControlApart(EnqueueControl(s, PING_LOAD))
  {
  }

  /** The end of a pass: the datagram has gone, and unreliable commands with it. */
  method Release(p: Peer, d: Datagram, now: Time, ghost limit: nat)
    requires Steady(p, limit)
    modifies p`state, p`acknowledgements, p`channels, p`lastControl, p`others, d`sentUnreliable
    ensures Steady(p, limit) && Reach(p, now) <= old(Reach(p, now))
    ensures NotLarger(Todo(p, now), old(Todo(p, now))) && Todo(p, now).weight <= old(Todo(p, now)).weight
    ensures old(Done(p)) ==> Done(p)
    ensures p.state != old(p.state) ==> Done(p)
    ensures ViewOf(p) == Released(old(ViewOf(p)), old(d.sentUnreliable), 1)
  {
    if d.sentUnreliable == [] { return; }
    ghost var s, before, due := p.State(), p.state, |p.acknowledgements|;
    hide ValidState, NumbersFree, TimeoutsPositive, ControlApart, WorkAt, NotLarger, Smaller, AfterWait;
    d.sentUnreliable := [];
    WorkIs(due, before, s, now);
    p.EndWait();
    if p.state != before {
      WaitLightens(s, now, due);
      LighterIsSmaller(Todo(p, now), WorkAt(due, before, s, now));
      OneControlFree(p.others, p.lastControl, limit);
      assert TimeoutsPositive([]) by { NoTimeouts(); }
    }
  }

  lemma LighterIsSmaller(w: Work, w': Work)
    ensures w.asking == w'.asking && w.weight < w'.weight ==> NotLarger(w, w')
    ensures NotLarger(w, w)
  {
  }

  /** A pass begins with a fresh datagram and the acknowledgements. */
  method Begin(p: Peer, reserved: nat, now: Time, ghost limit: nat) returns (d: Datagram)
    requires Ready(p, now, limit) && reserved <= HEADER_SIZE + CHECKSUM_SIZE
    modifies p`acknowledgements, p`state, p`continueSending
    ensures fresh(d) && Ready(p, now, limit) && d.Within(p.mtu) && d.sentUnreliable == [] && d.commands == []
    ensures d.headerSize == reserved && |d.acknowledged| <= |old(p.acknowledgements)|
    ensures d.acknowledged == old(p.acknowledgements)[..|d.acknowledged|]
    ensures AcksFit(|d.acknowledged|, |old(p.acknowledgements)|, reserved, p.mtu)
    ensures ViewOf(p) == AfterAcks(old(ViewOf(p)), |d.acknowledged|)
    ensures p.continueSending <==> p.acknowledgements != []
    ensures if old(p.acknowledgements) == []
            then p.acknowledgements == [] && d.Fresh() && Todo(p, now) == old(Todo(p, now))
                && Reach(p, now) == old(Reach(p, now))
            else Todo(p, now).weight < old(Todo(p, now)).weight && Reach(p, now) < old(Reach(p, now))
    ensures var w, w' := old(Todo(p, now)), Todo(p, now);
            w'.idle == w.idle && w'.pings == w.pings && w'.asking == w.asking
  {
    hide ValidState, NumbersFree, TimeoutsPositive, ControlApart, Datagram.Within, Datagram.Fresh, Weight, Pings, Idle;
    p.continueSending := false;
    d := new Datagram(reserved);
    assert !AnyDisconnect(p.acknowledgements[..0]);
    p.SendAcknowledgements(d);
    WithinCounts(d, p.mtu);
  }

  lemma WithinCounts(d: Datagram, mtu: nat)
    requires d.Within(mtu)
    ensures d.packetSize == SizeIn(d.headerSize, |d.acknowledged|, d.commands) <= mtu
    ensures d.commandCount == |d.acknowledged| + |d.commands| <= MAXIMUM_COMMANDS
  {
  }

  /** A ping, and a second batch with it. */
  method PingAndServe(p: Peer, d: Datagram, now: Time, ghost limit: nat, ghost first: Batch)
    returns (ghost more: seq<Move>, ghost second: Batch, ghost pinged: View)
    requires Ready(p, now, limit) && p.sent == [] && d.Within(p.mtu) && (p.acknowledgements != [] ==> p.continueSending)
    requires first.filled == Filling(first.filled.sender, p.packetThrottleCounter, d.commands, d.sentUnreliable)
    requires p.State() == first.sender && p.state == first.state
    modifies p`channels, p`queue, p`others, p`sent, p`inTransit, p`packetThrottleCounter, p`continueSending, d
    modifies p`state, p`acknowledgements, p`lastControl
    ensures Steady(p, limit) && d.Within(p.mtu) && d.acknowledged == old(d.acknowledged)
    ensures SecondBatch(old(ViewOf(p)), pinged, ViewOf(p), first, second, more, p.RulesAt(now), true)
    ensures d.commands == second.filled.put && d.sentUnreliable == second.filled.released
    ensures AddsPing(old(ViewOf(p)), pinged, now) && Lightens(pinged, ViewOf(p), more, now)
    ensures (p.continueSending || Done(p)) && (old(p.continueSending) ==> p.continueSending)
    ensures p.continueSending && !old(p.continueSending) && old(d.Fresh()) ==> more != []
  {
    hide Todo, Done, Datagram.Within, Datagram.Fresh, Steady, Reach, EnqueueControl, ValidState, Shaped, Batched,
         Lightens,
         CanPing, TimeoutOf, FlightOf, Peer.Valid, Left, SecondBatch, Pinged, WorkIn, ReachIn;
    ghost var v2 := ViewOf(p);
    ViewWork(p, now);
    Ping(p, now, limit);
    pinged := ViewOf(p);
    ViewWork(p, now);
    PingedIs(first);
    assert p.Stage(d) == Pinged(first) && pinged == v2.(sender := Pinged(first).sender);
    var canPing;
    canPing, more, second := SendCommands(p, d, now, limit);
    LeftIs(p, d, second, canPing, |old(d.commands)|);
    SecondIs(v2, pinged, ViewOf(p), first, second, more, p.RulesAt(now));
  }

  /** A ping adds to the work of a connected peer with nothing in flight. */
  predicate AddsPing(v: View, v': View, now: nat) {
    v.sender.sent == [] && v'.sender.sent == []
    && if v.state == Connected
       then WorkIn(v', now) == WorkIn(v, now).(pings := WorkIn(v, now).pings + 1)
           && ReachIn(v', now) <= ReachIn(v, now) + 1
       else v' == v
  }

  /** The first batch of a pass, if anything waits. */
  method ServeWaiting(p: Peer, d: Datagram, now: Time, ghost limit: nat)
    returns (canPing: bool, ghost moves: seq<Move>, ghost first: Batch)
    requires Steady(p, limit) && d.Within(p.mtu) && (p.acknowledgements != [] ==> p.continueSending)
    requires d.commands == d.sentUnreliable == []
    modifies p`channels, p`queue, p`others, p`sent, p`inTransit, p`packetThrottleCounter, p`continueSending, d
    modifies p`state, p`acknowledgements, p`lastControl
    ensures Steady(p, limit) && d.Within(p.mtu) && d.acknowledged == old(d.acknowledged)
    ensures FirstBatch(old(ViewOf(p)), ViewOf(p), first, moves, p.RulesAt(now))
    ensures Lightens(old(ViewOf(p)), ViewOf(p), moves, now)
    ensures canPing == (old(IsQuiet(p.State())) || CanPing(first, 0, p.FlightLimit())) && Shaped(first.filled.sender)
    ensures first.filled == Filling(first.filled.sender, p.packetThrottleCounter, d.commands, d.sentUnreliable)
    ensures p.State() == first.sender && p.state == first.state
    ensures (p.continueSending || Done(p)) && (p.acknowledgements != [] ==> p.continueSending)
    ensures old(p.continueSending) ==> p.continueSending
    ensures p.continueSending && !old(p.continueSending) && old(d.Fresh()) ==> moves != []
    ensures old(d.Fresh()) && moves == [] ==> d.Fresh()
  {
    hide Done, Datagram.Within, Datagram.Fresh, Steady, EnqueueControl, ValidState, Shaped, Batched, Lightens,
         CanPing, TimeoutOf, FlightOf, Peer.Valid, Left, FirstBatch;
    SteadyIsValid(p, limit);
    ValidIsShaped(p);
    ghost var v := ViewOf(p);
    if p.queue != [] || p.others != [] {
      canPing, moves, first := SendCommands(p, d, now, limit);
      LeftIs(p, d, first, canPing, 0);
      FirstIs(v, ViewOf(p), first, moves, p.RulesAt(now));
    } else {
      canPing, moves, first := true, [], Batch([], p.Stage(d), p.State(), p.state);
      QuietIsDone(p);
      SameLightens(v, now);
      QuietIs(v, first, p.RulesAt(now));
    }
  }

  /** The ping of a pass, and a second batch with it, if there is room and nothing is under way. */
  method ServePing(p: Peer, d: Datagram, now: Time, canPing: bool, pingDue: bool, ghost limit: nat, ghost first: Batch)
    returns (ghost more: seq<Move>, ghost second: Batch, ghost pinged: View)
    requires Steady(p, limit) && d.Within(p.mtu) && (p.acknowledgements != [] ==> p.continueSending)
    requires p.sent == [] ==> Reach(p, now) <= limit
    requires p.continueSending || Done(p)
    requires first.filled == Filling(first.filled.sender, p.packetThrottleCounter, d.commands, d.sentUnreliable)
    requires p.State() == first.sender && p.state == first.state && d.packetSize <= p.mtu
    modifies p`channels, p`queue, p`others, p`sent, p`inTransit, p`packetThrottleCounter, p`continueSending, d
    modifies p`state, p`acknowledgements, p`lastControl
    ensures Steady(p, limit) && d.Within(p.mtu) && d.acknowledged == old(d.acknowledged)
    ensures var asked := canPing && old(p.sent) == [] && pingDue && p.mtu - old(d.packetSize) >= SizeOf(PING);
            && SecondBatch(old(ViewOf(p)), pinged, ViewOf(p), first, second, more, p.RulesAt(now), asked)
            && if asked then AddsPing(old(ViewOf(p)), pinged, now) else pinged == old(ViewOf(p))
    ensures d.commands == second.filled.put && d.sentUnreliable == second.filled.released
    ensures Lightens(pinged, ViewOf(p), more, now)
    ensures (p.continueSending || Done(p)) && (old(p.continueSending) ==> p.continueSending)
    ensures p.continueSending && !old(p.continueSending) && old(d.Fresh()) ==> more != []
  {
    hide Todo, Done, Datagram.Within, Datagram.Fresh, Steady, Reach, ValidState, Lightens, TimeoutOf, FlightOf,
         SecondBatch, WorkIn, ReachIn, AddsPing;
    if canPing && p.sent == [] && pingDue && p.mtu - d.packetSize >= SizeOf(PING) {
      more, second, pinged := PingAndServe(p, d, now, limit, first);
    } else {
      more, second, pinged := [], first, ViewOf(p);
      SameLightens(pinged, now);
      NoSecondIs(pinged, pinged, first, p.RulesAt(now));
    }
  }

  /** The commands of a pass, and a ping if nothing is under way and it is time for one. */
  method Serve(p: Peer, d: Datagram, now: Time, pingDue: bool, ghost limit: nat, ghost x: Inputs)
    returns (ghost first: Batch, ghost second: Batch)
    requires Ready(p, now, limit) && d.Within(p.mtu) && (p.acknowledgements != [] ==> p.continueSending)
    requires x.now == now && x.pingDue == pingDue && x.reserved == d.headerSize && d.commands == d.sentUnreliable == []
    modifies p`channels, p`queue, p`others, p`sent, p`inTransit, p`packetThrottleCounter, p`continueSending, d
    modifies p`state, p`acknowledgements, p`lastControl
    ensures Steady(p, limit) && (p.continueSending || Done(p)) && (old(p.continueSending) ==> p.continueSending)
    ensures Todo(p, now).weight <= old(Todo(p, now)).weight && Reach(p, now) <= old(Reach(p, now)) + 1
    ensures p.continueSending && !old(p.continueSending) && old(d.Fresh()) ==>
              Smaller(Todo(p, now), old(Todo(p, now))) && Reach(p, now) <= old(Reach(p, now))
    ensures Serves(old(ViewOf(p)), ViewOf(p), TermsOf(p, now), x, |d.acknowledged|, first, second)
    ensures d.Within(p.mtu) && d.acknowledged == old(d.acknowledged)
    ensures d.commands == second.filled.put && d.sentUnreliable == second.filled.released
  {
    hide Todo, Done, Datagram.Within, Datagram.Fresh, Steady, Reach, Smaller, NotLarger, EnqueueControl, ValidState,
         Shaped,
         Batched, Lightens, Serves, CanPing, WireSizes, TimeoutOf, FlightOf, Peer.Valid, Pings?, Left, FirstBatch,
         SecondBatch, Pinged, WorkIn, ReachIn, AddsPing, SizeIn;
    ghost var v1, acks, t := ViewOf(p), |d.acknowledged|, TermsOf(p, now);
    ViewWork(p, now);
    var canPing;
    ghost var moves;
    canPing, moves, first := ServeWaiting(p, d, now, limit);
    assert TermsOf(p, now) == t;
    LightensReach(v1, ViewOf(p), moves, now);
    WithinCounts(d, p.mtu);
    ghost var v2 := ViewOf(p);
    ViewWork(p, now);
    PingsIs(v1, t, x, acks, first, canPing, p.mtu - d.packetSize);
    ghost var more, v3;
    more, second, v3 := ServePing(p, d, now, canPing, pingDue, limit, first);
    assert TermsOf(p, now) == t;
    ViewWork(p, now);
    ghost var pinged := Pings?(v1, t, x, acks, first);
    ServesIs(v1, v2, v3, ViewOf(p), t, x, acks, first, second, moves, more, pinged);
    ServeLightens(v1, v2, v3, ViewOf(p), moves, more, pinged, now);
  }

  lemma ViewWork(p: Peer, now: Time)
    ensures Todo(p, now) == WorkIn(ViewOf(p), now) && Reach(p, now) == ReachIn(ViewOf(p), now)
  {
  }

  lemma ViewAsks(v: View, now: nat)
    ensures WorkIn(v, now).asking == 1 && (v.sender.sent == [] ==> WorkIn(v, now).idle == 1)
  {
  }

  lemma LightensReach(v: View, v': View, moves: seq<Move>, now: nat)
    requires Lightens(v, v', moves, now)
    ensures ReachIn(v', now) <= ReachIn(v, now)
  {
  }

  lemma SameLightens(v: View, now: nat)
    ensures Lightens(v, v, [], now)
  {
  }

  /** The test the loop makes before it pings. */
  lemma PingsIs(v: View, t: Terms, x: Inputs, acks: nat, first: Batch, canPing: bool, room: int)
    requires Shaped(first.filled.sender) && room == t.mtu - SizeIn(x.reserved, acks, first.filled.put)
    requires canPing == (IsQuiet(v.sender) || CanPing(first, 0, t.rules.flight))
    ensures Pings?(v, t, x, acks, first) <==> canPing && first.sender.sent == [] && x.pingDue && room >= SizeOf(PING)
  {
    hide CanPing;
  }

  /** The first batch, if anything waits. */
  ghost predicate FirstBatch(v1: View, v2: View, first: Batch, moves: seq<Move>, rules: Rules) {
    && Shaped(v1.sender) && Shaped(first.filled.sender)
    && if IsQuiet(v1.sender) then first == Batch([], Empty(v1), v1.sender, v1.state) && v2 == v1
       else Batched(Empty(v1), v1, v2, first, moves, rules)
  }

  lemma FirstIs(v1: View, v2: View, first: Batch, moves: seq<Move>, rules: Rules)
    requires !IsQuiet(v1.sender) && Batched(Empty(v1), v1, v2, first, moves, rules)
    ensures FirstBatch(v1, v2, first, moves, rules)
  {
  }

  lemma QuietIs(v: View, first: Batch, rules: Rules)
    requires IsQuiet(v.sender) && Shaped(v.sender) && first == Batch([], Empty(v), v.sender, v.state)
    ensures FirstBatch(v, v, first, [], rules)
  {
  }

  /** The ping, if one was `asked` for, and the second batch. */
  ghost predicate SecondBatch(v2: View, v3: View, v4: View, first: Batch, second: Batch, more: seq<Move>, rules: Rules,
                              asked: bool)
  {
    if asked then v3 == v2.(sender := Pinged(first).sender) && Batched(Pinged(first), v3, v4, second, more, rules)
    else v4 == v3 == v2 && second == first
  }

  lemma SecondIs(v2: View, v3: View, v4: View, first: Batch, second: Batch, more: seq<Move>, rules: Rules)
    requires v3 == v2.(sender := Pinged(first).sender) && Batched(Pinged(first), v3, v4, second, more, rules)
    ensures SecondBatch(v2, v3, v4, first, second, more, rules, true)
  {
  }

  lemma NoSecondIs(v2: View, v3: View, first: Batch, rules: Rules)
    requires v3 == v2
    ensures SecondBatch(v2, v3, v3, first, first, [], rules, false)
  {
  }

  lemma PingedIs(first: Batch)
    ensures Pinged(first) == first.filled.(sender := if first.state == Connected
                                                     then EnqueueControl(first.sender, PING_LOAD) else first.sender)
  {
  }

  /** A batch, and a ping with another one or not, are what serving a peer is. */
  lemma ServesIs(v1: View, v2: View, v3: View, v4: View, t: Terms, x: Inputs, acks: nat, first: Batch, second: Batch,
                 moves: seq<Move>, more: seq<Move>, asked: bool)
    requires FirstBatch(v1, v2, first, moves, t.rules) && SecondBatch(v2, v3, v4, first, second, more, t.rules, asked)
    requires asked == Pings?(v1, t, x, acks, first)
    ensures Serves(v1, v4, t, x, acks, first, second)
  {
    hide Fills, Plays, Pings?, AfterWait, CanPing, Pinged;
    if !IsQuiet(v1.sender) { BatchEnds(Empty(v1), v1.state, first, t.rules); }
    if asked { BatchEnds(Pinged(first), first.state, second, t.rules); }
  }

  /** What it does to the measure: a ping adds to it, but what goes before or after it takes off more. */
  lemma ServeLightens(v1: View, v2: View, v3: View, v4: View, moves: seq<Move>, more: seq<Move>, asked: bool, now: nat)
    requires Lightens(v1, v2, moves, now) && Lightens(v3, v4, more, now)
    requires if asked then AddsPing(v2, v3, now) else v3 == v2
    ensures WorkIn(v4, now).weight <= WorkIn(v1, now).weight && ReachIn(v4, now) <= ReachIn(v1, now) + 1
    ensures moves != [] || more != [] ==>
              Smaller(WorkIn(v4, now), WorkIn(v1, now)) && ReachIn(v4, now) <= ReachIn(v1, now)
  {
    hide WorkIn, Smaller, NotLarger;
    ViewAsks(v1, now);
    ViewAsks(v2, now);
    ViewAsks(v3, now);
    ViewAsks(v4, now);
    MovesOutweighPing(WorkIn(v1, now), WorkIn(v2, now), WorkIn(v3, now), WorkIn(v4, now), |moves|, |more|,
                      asked && v2.state == Connected);
  }

  lemma SteadyIsValid(p: Peer, limit: nat)
    requires Steady(p, limit)
    ensures p.Valid()
  {
  }

  /** The function returns at once after this pass for a peer: its connection is lost and the caller
      told, or a datagram `fails` to be sent. */
  ghost predicate Stops(v: View, x: Inputs, log: Log, fails: bool)
    requires log.acks <= |v.due|
  {
    if log.at < |v.sender.sent| then AfterAcks(v, log.acks).state.Tells(x.event)
    else fails && log.acks + |log.second.filled.put| > 0
  }

  lemma LostIs(v: View, w: View, v': View, t: Terms, x: Inputs, log: Log, fails: bool)
    requires AcksFit(log.acks, |v.due|, x.reserved, t.mtu) && w == AfterAcks(v, log.acks)
    requires ChecksTimeouts(w, x) && TimesOut(w, v', t, x, log.at) && log.at < |w.sender.sent| && log.checked == v'
    ensures Passed(v, v', t, x, log) && Stops(v, x, log, fails) == w.state.Tells(x.event)
  {
    hide TimesOut, Serves;
  }

  lemma PassedIs(v: View, w: View, v': View, t: Terms, x: Inputs, log: Log, fails: bool)
    requires AcksFit(log.acks, |v.due|, x.reserved, t.mtu) && w == AfterAcks(v, log.acks) && log.at == |w.sender.sent|
    requires if ChecksTimeouts(w, x) then TimesOut(w, log.checked, t, x, log.at) else log.checked == w
    requires Shaped(log.checked.sender) && Serves(log.checked, log.served, t, x, log.acks, log.first, log.second)
    requires v' == Released(log.served, log.second.filled.released, log.acks + |log.second.filled.put|)
    ensures Passed(v, v', t, x, log) && Stops(v, x, log, fails) == (fails && log.acks + |log.second.filled.put| > 0)
    ensures log.acks <= |v.due|
  {
    hide Serves, TimesOut, Released;
  }

  lemma ReleasedIs(v: View, d: seq<OutCommand>, count: nat, v': View)
    requires if count > 0 then v' == Released(v, d, 1) else v' == v
    ensures v' == Released(v, d, count)
  {
  }

  /** The second half of a pass: the commands, the ping, and the release. */
  method ServeAndRelease(p: Peer, d: Datagram, now: Time, pingDue: bool, ghost limit: nat, ghost x: Inputs,
                         ghost v: View,
                         ghost t: Terms, ghost acks: nat)
    returns (put: bool, ghost first: Batch, ghost second: Batch, ghost served: View)
    requires v == ViewOf(p) && t == TermsOf(p, now) && acks == |d.acknowledged|
    requires Ready(p, now, limit) && d.Within(p.mtu) && (p.acknowledgements != [] ==> p.continueSending)
    requires x.now == now && x.pingDue == pingDue && x.reserved == d.headerSize && d.commands == d.sentUnreliable == []
    modifies p`channels, p`queue, p`others, p`sent, p`inTransit, p`packetThrottleCounter, p`continueSending, d
    modifies p`state, p`acknowledgements, p`lastControl
    ensures Steady(p, limit) && (p.continueSending || Done(p)) && (old(p.continueSending) ==> p.continueSending)
    ensures Todo(p, now).weight <= old(Todo(p, now)).weight && Reach(p, now) <= old(Reach(p, now)) + 1
    ensures p.continueSending && !old(p.continueSending) && old(d.Fresh()) ==>
              Smaller(Todo(p, now), old(Todo(p, now))) && Reach(p, now) <= old(Reach(p, now))
    ensures Serves(v, served, t, x, acks, first, second)
    ensures ViewOf(p) == Released(served, second.filled.released, acks + |second.filled.put|)
    ensures put == (acks + |second.filled.put| > 0)
  {
    hide Todo, Done, Datagram.Within, Datagram.Fresh, Steady, Reach, Smaller, NotLarger, ValidState, Serves, Released,
         TimeoutOf, FlightOf;
    first, second := Serve(p, d, now, pingDue, limit, x);
    served := ViewOf(p);
    WithinCounts(d, p.mtu);
    ghost var w := Todo(p, now);
    put := d.commandCount > 0;
    if put {
      Release(p, d, now, limit);
    } else {
      SameIsNotLarger(w);
    }
    ReleasedIs(served, second.filled.released, |d.acknowledged| + |second.filled.put|, ViewOf(p));
    SmallerStill(Todo(p, now), w, old(Todo(p, now)));
  }

  lemma SameIsNotLarger(w: Work)
    ensures NotLarger(w, w)
  {
  }

  lemma SmallerStill(w: Work, w': Work, w'': Work)
    requires NotLarger(w, w')
    ensures Smaller(w', w'') ==> Smaller(w, w'')
  {
  }

  /** The first half: the acknowledgements and the timeouts. */
  method AcknowledgeAndCheck(p: Peer, now: Time, reserved: nat, timeoutDue: bool, event: bool, ghost limit: nat,
                             ghost x: Inputs, ghost t: Terms)
    returns (d: Datagram, lost: bool, told: bool, ghost w: View, ghost at: nat)
    requires Ready(p, now, limit) && reserved <= HEADER_SIZE + CHECKSUM_SIZE && t == TermsOf(p, now)
    requires x.now == now && x.reserved == reserved && x.timeoutDue == timeoutDue && x.event == event
    modifies p`channels, p`queue, p`others, p`sent, p`inTransit, p`continueSending, p`state, p`acknowledgements
    modifies p`lastControl, p`earliestTimeout
    ensures fresh(d) && d.Within(p.mtu) && d.sentUnreliable == [] && d.commands == [] && d.headerSize == reserved
    ensures t == TermsOf(p, now) && |d.acknowledged| <= |old(p.acknowledgements)|
    ensures AcksFit(|d.acknowledged|, |old(p.acknowledgements)|, reserved, p.mtu)
    ensures w == AfterAcks(old(ViewOf(p)), |d.acknowledged|)
    ensures if ChecksTimeouts(w, x) then TimesOut(w, ViewOf(p), t, x, at) else ViewOf(p) == w
    ensures at <= |w.sender.sent| && (lost <==> at < |w.sender.sent|)
    ensures lost ==> p.state.IsAbsent() && ChecksTimeouts(w, x) && told == w.state.Tells(event)
    ensures !lost ==> Ready(p, now, limit) && (p.acknowledgements != [] ==> p.continueSending)
    ensures !lost && old(p.acknowledgements) == []
            ==> !p.continueSending && d.Fresh() && Reach(p, now) <= old(Reach(p, now))
                && NotLarger(Todo(p, now), old(Todo(p, now)))
    ensures !lost && old(p.acknowledgements) != []
            ==> Todo(p, now).weight < old(Todo(p, now)).weight && Reach(p, now) < old(Reach(p, now))
    ensures !lost ==> Todo(p, now).asking == 1
  {
    hide Todo, Datagram.Within, Datagram.Fresh, ValidState, NumbersFree, TimeoutsPositive, ControlApart, TimesOut,
         AcksFit,
         AfterAcks, Steady, Reach, TimeoutOf, FlightOf;
    TodoAsks(p, now);
    d := Begin(p, reserved, now, limit);
    w, at, lost, told := ViewOf(p), |p.sent|, false, p.state.Tells(event);
    assert t == TermsOf(p, now);
    if timeoutDue && p.sent != [] {
      lost, at := TakeBack(p, now, event, limit, x, w, t);
    }
    TodoAsks(p, now);
  }

  /** One pass for one peer. */
  method Pass(p: Peer, now: Time, reserved: nat, timeoutDue: bool, pingDue: bool, event: bool, fails: bool,
              ghost limit: nat)
    returns (stops: bool, ghost log: Log)
    requires Ready(p, now, limit) && reserved <= HEADER_SIZE + CHECKSUM_SIZE
    modifies p`channels, p`queue, p`others, p`sent, p`inTransit, p`packetThrottleCounter, p`continueSending
    modifies p`state, p`acknowledgements, p`lastControl, p`earliestTimeout
    ensures !p.state.IsAbsent() && !p.continueSending ==> Done(p)
    ensures !p.state.IsAbsent() && p.continueSending
            ==> Ready(p, now, limit) && Smaller(Todo(p, now), old(Todo(p, now)))
    ensures Passed(old(ViewOf(p)), ViewOf(p), old(TermsOf(p, now)), Inputs(now, reserved, timeoutDue, pingDue, event),
            log)
    ensures log.acks <= |old(p.acknowledgements)|
    ensures stops == Stops(old(ViewOf(p)), Inputs(now, reserved, timeoutDue, pingDue, event), log, fails)
  {
    hide Todo, Done, Datagram.Within, Datagram.Fresh, Serves, TimesOut, AcksFit, AfterAcks, Released, Steady, Reach,
         Passed,
         Stops, TimeoutOf, FlightOf, ChecksTimeouts;
    ghost var x, v, t := Inputs(now, reserved, timeoutDue, pingDue, event), ViewOf(p), TermsOf(p, now);
    TodoAsks(p, now);
    var d, lost, told;
    ghost var w, at;
    d, lost, told, w, at := AcknowledgeAndCheck(p, now, reserved, timeoutDue, event, limit, x, t);
    ghost var checked, acks := ViewOf(p), |d.acknowledged|;
    if lost {
      ghost var none := Batch([], Empty(w), w.sender, w.state);
      stops, log := told, Log(acks, checked, at, none, none, checked);
      LostIs(v, w, checked, t, x, log, fails);
      return;
    }
    SteadyParts(p, limit);
    var put;
    ghost var first, second, served;
    put, first, second, served := ServeAndRelease(p, d, now, pingDue, limit, x, checked, t, acks);
    TodoAsks(p, now);
    stops, log := fails && put, Log(acks, checked, at, first, second, served);
    PassedIs(v, w, ViewOf(p), t, x, log, fails);
  }

  // ---------------------------------------------------------------- all peers of a host

  function WorkOf(p: Peer, asking: bool, now: nat): Work
    reads p
  {
    if asking then Todo(p, now) else Work(0, 0, 0, 0)
  }

  /** Pass `pass` will visit peer `p`. */
  predicate Asks(p: Peer, pass: nat)
    reads p
  {
    !p.state.IsAbsent() && (pass == 0 || p.continueSending)
  }

  /** How a peer stands between two visits. */
  ghost predicate Stands(p: Peer, pass: nat, now: Time, limit: nat, work: Work)
    reads p
  {
    && work == WorkOf(p, Asks(p, pass), now)
    && (Asks(p, pass) ==> Ready(p, now, limit))
    && (!p.state.IsAbsent() && !Asks(p, pass) ==> Done(p))
  }

  predicate Skipped(v: View, pass: nat) { v.state.IsAbsent() || (pass > 0 && !v.again) }

  /** A peer is passed over in pass `pass`, or has its turn; the function may return at once after it. */
  ghost predicate Visited(v: View, v': View, t: Terms, x: Inputs, pass: nat, fails: bool, stops: bool) {
    if Skipped(v, pass) then v' == v && !stops
    else exists log: Log :: log.acks <= |v.due| && Passed(v, v', t, x, log) && stops == Stops(v, x, log, fails)
  }

  /** The turn of one peer in a pass: skipped, given up, or served; `another` is a wish for
      one more pass. */
  method Visit(p: Peer, pass: nat, now: Time, reserved: nat, timeoutDue: bool, pingDue: bool, event: bool, fails: bool,
               ghost limit: nat, ghost work: Work)
    returns (another: bool, stops: bool, ghost work': Work)
    requires Stands(p, pass, now, limit, work) && reserved <= HEADER_SIZE + CHECKSUM_SIZE
    modifies p`channels, p`queue, p`others, p`sent, p`inTransit, p`packetThrottleCounter, p`continueSending
    modifies p`state, p`acknowledgements, p`lastControl, p`earliestTimeout
    ensures Stands(p, pass + 1, now, limit, work')
    ensures if another then Smaller(work', work) else work' == work || Smaller(work', work)
    ensures another == (!Skipped(old(ViewOf(p)), pass) && p.continueSending)
    ensures Visited(old(ViewOf(p)), ViewOf(p), old(TermsOf(p, now)),
            Inputs(now, reserved, timeoutDue, pingDue, event), pass,
                    fails, stops)
  {
    hide Ready, Done, Todo, Passed, Stops, TimeoutOf, FlightOf;
    another, stops, work' := false, false, work;
    if p.state.IsAbsent() || (pass > 0 && !p.continueSending) {
      return;
    }
    assert work.asking == 1 by { TodoAsks(p, now); }
    ghost var log;
    stops, log := Pass(p, now, reserved, timeoutDue, pingDue, event, fails, limit);
    another := p.continueSending;
    work' := WorkOf(p, Asks(p, pass + 1), now);
  }

  lemma QuietIsDone(p: Peer)
    requires p.Valid() && p.queue == [] && p.others == []
    ensures p.acknowledgements == [] ==> Done(p)
  {
  }

  lemma TodoAsks(p: Peer, now: nat)
    ensures Todo(p, now).asking == 1 && (p.sent == [] ==> Todo(p, now).idle == 1)
  {
  }

  /** Less work for one peer is less work in all. */
  lemma TotalAfter(work: seq<Work>, i: nat, less: Work, before: Work)
    requires i < |work| && NotLarger(less, work[i]) && NotLarger(Total(work), before)
    ensures NotLarger(Total(work[i := less]), before)
    ensures Smaller(less, work[i]) || Smaller(Total(work), before) ==> Smaller(Total(work[i := less]), before)
  {
    TotalUpdate(work, i, less);
  }

  /** A pass over the peers has come to peer `i`. */
  ghost predicate Midway(peers: seq<Peer>, i: nat, pass: nat, now: Time, limits: seq<nat>, work: seq<Work>,
                         vs: seq<View>, terms: seq<Terms>)
    reads peers
  {
    && |peers| == |limits| == |work| == |vs| == |terms|
    && forall j :: 0 <= j < |peers| ==> Stands(peers[j], if j < i then pass + 1 else pass, now, limits[j], work[j])
                                        && ViewOf(peers[j]) == vs[j] && TermsOf(peers[j], now) == terms[j]
  }

  /** The timers, as a function of the pass and the peer, and what the caller says. */
  type Timers = (nat, nat) -> bool

  function InputsAt(now: Time, reserved: nat, timeoutDue: Timers, pingDue: Timers, event: bool, pass: nat,
                    i: nat): Inputs {
    Inputs(now, reserved, timeoutDue(pass, i), pingDue(pass, i), event)
  }

  /** Pass `pass` takes the peers from `vs` to `vs'`: the first `n` have had their turn, and the last of
      them may have `stopped` it. */
  ghost predicate PassedOver(vs: seq<View>, vs': seq<View>, terms: seq<Terms>, inputs: (nat, nat) -> Inputs, pass: nat,
                             fails: Timers, n: nat, stopped: bool)
  {
    && n <= |vs| == |vs'| == |terms|
    && (forall i: nat :: i < n ==>
          Visited(vs[i], vs'[i], terms[i], inputs(pass, i), pass, fails(pass, i), stopped && i == n - 1))
    && forall i :: n <= i < |vs| ==> vs'[i] == vs[i]
  }

  lemma PassedOneMore(vs: seq<View>, vs': seq<View>, terms: seq<Terms>, inputs: (nat, nat) -> Inputs, pass: nat,
                      fails: Timers, i: nat, v: View, stops: bool)
    requires i < |vs| && PassedOver(vs, vs', terms, inputs, pass, fails, i, false)
    requires Visited(vs[i], v, terms[i], inputs(pass, i), pass, fails(pass, i), stops)
    ensures PassedOver(vs, vs'[i := v], terms, inputs, pass, fails, i + 1, stops)
  {
    hide Visited;
  }

  lemma PassedNone(vs: seq<View>, terms: seq<Terms>, inputs: (nat, nat) -> Inputs, pass: nat, fails: Timers)
    requires |vs| == |terms|
    ensures PassedOver(vs, vs, terms, inputs, pass, fails, 0, false) && !Wanted(vs, vs, pass, 0)
  {
  }

  lemma PassedNext(vs: seq<View>, vs': seq<View>, terms: seq<Terms>, inputs: (nat, nat) -> Inputs, pass: nat,
                   fails: Timers,
                   i: nat)
    requires i < |vs| && PassedOver(vs, vs', terms, inputs, pass, fails, i, false)
    ensures |vs| == |vs'| && vs'[i] == vs[i]
  {
    hide Visited;
  }

  lemma MidwayFits(peers: seq<Peer>, i: nat, pass: nat, now: Time, limits: seq<nat>, work: seq<Work>, vs: seq<View>,
                   terms: seq<Terms>)
    requires Midway(peers, i, pass, now, limits, work, vs, terms)
    ensures |peers| == |limits| == |work| == |vs| == |terms|
  {
  }

  /** One of the first `n` peers had its turn and asks for another pass. */
  predicate Wanted(vs: seq<View>, vs': seq<View>, pass: nat, n: nat)
    requires n <= |vs| == |vs'|
  {
    exists i :: 0 <= i < n && !Skipped(vs[i], pass) && vs'[i].again
  }

  lemma WantedOneMore(vs: seq<View>, vs': seq<View>, pass: nat, i: nat, v: View)
    requires i < |vs| == |vs'|
    ensures Wanted(vs, vs'[i := v], pass, i + 1) <==> Wanted(vs, vs', pass, i) || (!Skipped(vs[i], pass) && v.again)
  {
    hide Skipped;
    if j :| 0 <= j < i && !Skipped(vs[j], pass) && vs'[j].again { assert vs'[i := v][j].again; }
    if !Skipped(vs[i], pass) && v.again { assert vs'[i := v][i].again; }
  }

  /** One peer of a pass. */
  method Turn(ghost peers: seq<Peer>, ghost i: nat, p: Peer, pass: nat, now: Time, reserved: nat, timeoutDue: bool,
              pingDue: bool, event: bool, fails: bool, ghost limits: seq<nat>, ghost work: seq<Work>,
                  ghost vs: seq<View>, ghost terms: seq<Terms>)
    returns (another: bool, stops: bool, ghost less: Work, ghost v: View)
    requires i < |peers| && Midway(peers, i, pass, now, limits, work, vs, terms) && Distinct(peers) && p == peers[i]
    requires reserved <= HEADER_SIZE + CHECKSUM_SIZE
    modifies p`channels, p`queue, p`others, p`sent, p`inTransit, p`packetThrottleCounter
    modifies p`continueSending, p`state, p`acknowledgements, p`lastControl, p`earliestTimeout
    ensures Midway(peers, i + 1, pass, now, limits, work[i := less], vs[i := v], terms)
    ensures if another then Smaller(less, work[i]) else NotLarger(less, work[i])
    ensures another == (!Skipped(vs[i], pass) && v.again)
    ensures Visited(vs[i], v, terms[i], Inputs(now, reserved, timeoutDue, pingDue, event), pass, fails, stops)
  {
    hide Stands, Smaller, Visited, Skipped, TimeoutOf, FlightOf;
    another, stops, less := Visit(p, pass, now, reserved, timeoutDue, pingDue, event, fails, limits[i], work[i]);
    v := ViewOf(p);
  }

  /** One pass over all peers. */
  method Round(peers: seq<Peer>, pass: nat, now: Time, reserved: nat, timeoutDue: Timers, pingDue: Timers, event: bool,
               fails: Timers, ghost inputs: (nat, nat) -> Inputs, ghost limits: seq<nat>, ghost work: seq<Work>,
               ghost vs: seq<View>, ghost terms: seq<Terms>)
    returns (stopped: bool, another: bool, ghost n: nat, ghost work': seq<Work>, ghost vs': seq<View>)
    requires Midway(peers, 0, pass, now, limits, work, vs, terms) && Distinct(peers)
    requires reserved <= HEADER_SIZE + CHECKSUM_SIZE
    requires forall k: nat, i: nat :: inputs(k, i) == InputsAt(now, reserved, timeoutDue, pingDue, event, k, i)
    modifies peers`channels, peers`queue, peers`others, peers`sent, peers`inTransit, peers`packetThrottleCounter
    modifies peers`continueSending, peers`state, peers`acknowledgements, peers`lastControl, peers`earliestTimeout
    ensures Midway(peers, n, pass, now, limits, work', vs', terms)
    ensures PassedOver(vs, vs', terms, inputs, pass, fails, n, stopped)
            && (if stopped then 0 < n <= |vs| else n == |vs|)
    ensures !stopped ==> another == Wanted(vs, vs', pass, n)
    ensures !stopped && another ==> Smaller(Total(work'), Total(work))
  {
    hide Midway, Total, Smaller, Plus, Visited, PassedOver, Wanted, Skipped;
    MidwayFits(peers, 0, pass, now, limits, work, vs, terms);
    PassedNone(vs, terms, inputs, pass, fails);
    stopped, another, n, work', vs' := false, false, 0, work, vs;
    for i := 0 to |peers|
      invariant n == i && Midway(peers, i, pass, now, limits, work', vs', terms)
      invariant |peers| == |work'| == |vs| == |vs'| == |terms|
      invariant PassedOver(vs, vs', terms, inputs, pass, fails, i, false) && another == Wanted(vs, vs', pass, i)
      invariant if another then Smaller(Total(work'), Total(work)) else NotLarger(Total(work'), Total(work))
    {
      var again;
      ghost var less, v;
      PassedNext(vs, vs', terms, inputs, pass, fails, i);
      again, stopped, less, v := Turn(peers, i, peers[i], pass, now, reserved, timeoutDue(pass, i), pingDue(pass, i),
          event,
                                      fails(pass, i), limits, work', vs', terms);
      PassedOneMore(vs, vs', terms, inputs, pass, fails, i, v, stopped);
      WantedOneMore(vs, vs', pass, i, v);
      TotalAfter(work', i, less, Total(work));
      another := another || again;
      work', vs', n := work'[i := less], vs'[i := v], i + 1;
      if stopped { return; }
    }
    stopped := false;
  }

  /** What the passes do: each one finds the peers as the one before left them; there is a next one
      exactly if a peer asks for it, unless the function returned at once, at peer `n` - 1. */
  ghost predicate Ran(history: seq<seq<View>>, terms: seq<Terms>, inputs: (nat, nat) -> Inputs, fails: Timers, n: nat,
                      ended: bool)
  {
    && |history| > 1 && (forall k :: 0 <= k < |history| ==> |history[k]| == |terms|)
    && (if ended then n == |terms| else 0 < n <= |terms|)
    && (forall k: nat :: k < |history| - 2 ==> Passed?(history, terms, inputs, fails, k))
    && PassedOver(history[|history| - 2], history[|history| - 1], terms, inputs, |history| - 2, fails, n, !ended)
    && (ended ==> !Wanted(history[|history| - 2], history[|history| - 1], |history| - 2, n))
  }

  /** Pass `k` goes over all peers, and another is wanted. */
  ghost predicate Passed?(history: seq<seq<View>>, terms: seq<Terms>, inputs: (nat, nat) -> Inputs, fails: Timers,
                          k: nat)
    requires k < |history| - 1 && |history[k]| == |history[k + 1]| == |terms|
  {
    && PassedOver(history[k], history[k + 1], terms, inputs, k, fails, |terms|, false)
    && Wanted(history[k], history[k + 1], k, |terms|)
  }

  /** Whole passes so far, the last of which wants another one or not. */
  ghost predicate Running(history: seq<seq<View>>, terms: seq<Terms>, inputs: (nat, nat) -> Inputs, fails: Timers,
                          more: bool)
  {
    && |history| > 0 && (forall k :: 0 <= k < |history| ==> |history[k]| == |terms|)
    && if more then forall k: nat :: k < |history| - 1 ==> Passed?(history, terms, inputs, fails, k)
       else Ran(history, terms, inputs, fails, |terms|, true)
  }

  lemma RunsOn(history: seq<seq<View>>, terms: seq<Terms>, inputs: (nat, nat) -> Inputs, fails: Timers, vs: seq<View>,
               n: nat, stopped: bool)
    requires Running(history, terms, inputs, fails, true) && |vs| == |terms|
    requires if stopped then 0 < n <= |terms| else n == |terms|
    requires PassedOver(history[|history| - 1], vs, terms, inputs, |history| - 1, fails, n, stopped)
    ensures stopped ==> Ran(history + [vs], terms, inputs, fails, n, false)
    ensures !stopped ==> Running(history + [vs], terms, inputs, fails,
                                 Wanted(history[|history| - 1], vs, |history| - 1, n))
  {
    hide PassedOver, Wanted;
    var h, m := history + [vs], |history| - 1;
    forall k: nat | k < m
      ensures Passed?(h, terms, inputs, fails, k)
    {
      assert Passed?(history, terms, inputs, fails, k);
    }
    assert h[m] == history[m] && h[m + 1] == vs;
  }

  lemma MidwayEnds(peers: seq<Peer>, pass: nat, now: Time, limits: seq<nat>, work: seq<Work>, vs: seq<View>,
                   terms: seq<Terms>)
    requires Midway(peers, |peers|, pass, now, limits, work, vs, terms)
    ensures Midway(peers, 0, pass + 1, now, limits, work, vs, terms)
  {
    hide Stands;
  }

  /** After a pass that wants no other, no peer asks for one, and so they are done. */
  lemma NoneAsks(peers: seq<Peer>, pass: nat, now: Time, limits: seq<nat>, work: seq<Work>, vs: seq<View>,
                 vs': seq<View>,
                 terms: seq<Terms>, inputs: (nat, nat) -> Inputs, fails: Timers)
    requires Midway(peers, |peers|, pass, now, limits, work, vs', terms)
    requires PassedOver(vs, vs', terms, inputs, pass, fails, |peers|, false) && !Wanted(vs, vs', pass, |peers|)
    ensures forall i :: 0 <= i < |peers| ==> peers[i].state.IsAbsent() || Done(peers[i])
  {
    hide Done, Ready, Passed, Stops;
    forall i | 0 <= i < |peers|
      ensures peers[i].state.IsAbsent() || Done(peers[i])
    {
      assert Stands(peers[i], pass + 1, now, limits[i], work[i]) && ViewOf(peers[i]) == vs'[i];
      assert Visited(vs[i], vs'[i], terms[i], inputs(pass, i), pass, fails(pass, i), false);
    }
  }

  /** enet_protocol_send_outgoing_commands: passes over all peers, as long as one of them asks
      for another. `timeoutDue` and `pingDue` stand for the timers, `fails` for the socket; `event` says
      that the caller wants to hear of a lost connection. The function returns at once with that event
      or an error. Otherwise the passes end, and then every peer that is not disconnected or a zombie
      has sent every acknowledgement due and every command that is not blocked; only a peer that waited
      for that may have its disconnect left to send. `history` holds what each pass finds and leaves. */
  method SendOutgoing(peers: seq<Peer>, now: Time, reserved: nat, timeoutDue: Timers, pingDue: Timers, event: bool,
                      fails: Timers, ghost inputs: (nat, nat) -> Inputs, ghost limits: seq<nat>, ghost vs: seq<View>,
                      ghost terms: seq<Terms>)
    returns (ended: bool, ghost n: nat, ghost history: seq<seq<View>>)
    requires |peers| == |limits| == |vs| == |terms| && Distinct(peers)
    requires forall i :: 0 <= i < |peers| && !peers[i].state.IsAbsent() ==> Ready(peers[i], now, limits[i])
    requires forall i :: 0 <= i < |peers| ==> ViewOf(peers[i]) == vs[i] && TermsOf(peers[i], now) == terms[i]
    requires forall k: nat, i: nat :: inputs(k, i) == InputsAt(now, reserved, timeoutDue, pingDue, event, k, i)
    requires reserved <= HEADER_SIZE + CHECKSUM_SIZE
    modifies peers`channels, peers`queue, peers`others, peers`sent, peers`inTransit, peers`packetThrottleCounter
    modifies peers`continueSending, peers`state, peers`acknowledgements, peers`lastControl, peers`earliestTimeout
    ensures ended ==> forall i :: 0 <= i < |peers| ==> peers[i].state.IsAbsent() || Done(peers[i])
    ensures Ran(history, terms, inputs, fails, n, ended) && history[0] == vs
    ensures forall i :: 0 <= i < |peers| ==> ViewOf(peers[i]) == history[|history| - 1][i]
  {
    hide Ready, Done, Todo, Total, Plus, Visited, PassedOver, Wanted, Skipped, Ran, TimeoutOf, FlightOf;
    var pass: nat, last: nat := 0, 0;
    ghost var work := seq(|peers|, i requires 0 <= i < |peers| reads peers => WorkOf(peers[i], Asks(peers[i], 0), now));
    history := [vs];
    while pass <= last
      invariant last <= pass && |history| == pass + 1 && history[0] == vs
      invariant Midway(peers, 0, pass, now, limits, work, history[pass], terms)
      invariant Running(history, terms, inputs, fails, pass <= last)
      invariant pass > last ==> forall i :: 0 <= i < |peers| ==> peers[i].state.IsAbsent() || Done(peers[i])
      decreases pass <= last, Total(work).asking, Total(work).weight, Total(work).idle, Total(work).pings
    {
      var stopped, another;
      ghost var left;
      stopped, another, n, work, left := Round(peers, pass, now, reserved, timeoutDue, pingDue, event, fails, inputs,
          limits,
                                               work, history[pass], terms);
      RunsOn(history, terms, inputs, fails, left, n, stopped);
      if stopped { return false, n, history + [left]; }
      MidwayEnds(peers, pass, now, limits, work, left, terms);
      if another {
        last := pass + 1;
      } else {
        NoneAsks(peers, pass, now, limits, work, history[pass], left, terms, inputs, fails);
      }
      history, pass := history + [left], pass + 1;
    }
    ended, n := true, |peers|;
  }
}
