/** How a host shares its bandwidth among its peers: the two water-filling loops of the
    bandwidth throttle, and the throttle a peer adjusts by round-trip times. */
module Bandwidth {

  const THROTTLE_SCALE: nat := 32
  const WORD: nat := 0x1_0000_0000

  /** What the loops see of a peer. `connected` stands for the states CONNECTED and
      DISCONNECT_LATER; an epoch equal to the current time marks a peer as settled. */
  datatype Peer = Peer(connected: bool, incomingBandwidth: nat, outgoingBandwidth: nat,
                       incomingDataTotal: nat, outgoingDataTotal: nat,
                       packetThrottle: nat, packetThrottleLimit: nat, incomingEpoch: nat, outgoingEpoch: nat)

  function Sum(s: seq<Peer>, f: Peer -> nat): nat {
    if s == [] then 0 else f(s[0]) + Sum(s[1..], f)
  }

  lemma {:induction false} SumUpdate(s: seq<Peer>, i: nat, x: Peer, f: Peer -> nat)
    requires i < |s|
    ensures Sum(s[i := x], f) + f(s[i]) == Sum(s, f) + f(x)
  {
    if i > 0 {
      SumUpdate(s[1..], i - 1, x, f);
      assert s[i := x][1..] == s[1..][i - 1 := x];
    } else {
      assert s[0 := x][1..] == s[1..];
    }
  }

  lemma {:induction false} SumMember(s: seq<Peer>, i: nat, f: Peer -> nat)
    requires i < |s|
    ensures f(s[i]) <= Sum(s, f)
  {
    if i > 0 {
      SumMember(s[1..], i - 1, f);
    }
  }

  // ---------------------------------------------------------------- incoming bandwidth

  function Connected(p: Peer): nat { if p.connected then 1 else 0 }

  /** A connected peer whose share is not settled yet, at time `now`. */
  function Open(now: nat): Peer -> nat {
    (p: Peer) => if p.connected && p.incomingEpoch != now then 1 else 0
  }

  /** What a settled peer takes: all it can send. An unlimited peer, 0, counts as nothing. */
  function Taken(now: nat): Peer -> nat {
    (p: Peer) => if p.connected && p.incomingEpoch == now then p.outgoingBandwidth else 0
  }

  /** Nothing but the mark has changed, and only on connected peers. */
  predicate Marked(before: seq<Peer>, after: seq<Peer>, now: nat) {
    && |before| == |after|
    && forall i :: 0 <= i < |before| ==>
         after[i] == before[i] || (before[i].connected && after[i] == before[i].(incomingEpoch := now))
  }

  /** Settled peers ask for less than the level, or are unlimited. */
  predicate SettledBelow(s: seq<Peer>, now: nat, level: nat) {
    forall i :: 0 <= i < |s| && s[i].connected && s[i].incomingEpoch == now ==>
      s[i].outgoingBandwidth == 0 || s[i].outgoingBandwidth < level
  }

  /** The open ones among the first `n` ask for the level or more. */
  predicate OpenAbove(s: seq<Peer>, n: nat, now: nat, level: nat) {
    forall i :: 0 <= i < n && i < |s| && s[i].connected && s[i].incomingEpoch != now ==>
      s[i].outgoingBandwidth > 0 && s[i].outgoingBandwidth >= level
  }

  lemma DivisionBounds(a: nat, n: nat)
    requires n > 0
    ensures a / n * n <= a < (a / n + 1) * n
  {
    assert a == a / n * n + a % n;
    assert (a / n + 1) * n == a / n * n + n;
  }

  lemma AtLeastQuotient(a: nat, n: nat, q: nat)
    requires n > 0 && q * n <= a
    ensures q <= a / n
  {
    DivisionBounds(a, n);
    if a / n < q { Grows(a / n + 1, q, n); }
  }

  lemma {:induction false} Grows(a: nat, b: nat, n: nat)
    requires a <= b
    ensures a * n <= b * n
  {
    if a < b {
      Grows(a, b - 1, n);
      assert b * n == (b - 1) * n + n;
    }
  }

  /** Taking one peer, which asks for no more than the level, out of those that share. */
  lemma OneLess(bandwidth: nat, level: nat, remaining: nat, demand: nat)
    requires remaining > 0 && level * remaining <= bandwidth && demand <= level
    ensures demand <= bandwidth && level * (remaining - 1) <= bandwidth - demand
  {
    assert level * remaining == level * (remaining - 1) + level;
    assert level * (remaining - 1) >= 0;
  }

  lemma SettleSums(s: seq<Peer>, i: nat, now: nat)
    requires i < |s| && s[i].connected && s[i].incomingEpoch != now
    ensures var s' := s[i := s[i].(incomingEpoch := now)];
            && Sum(s, Open(now)) > 0 && Sum(s', Open(now)) == Sum(s, Open(now)) - 1
            && Sum(s', Taken(now)) == Sum(s, Taken(now)) + s[i].outgoingBandwidth
  {
    hide Sum;
    var x := s[i].(incomingEpoch := now);
    SumUpdate(s, i, x, Open(now));
    SumUpdate(s, i, x, Taken(now));
    SumMember(s, i, Open(now));
  }

  /** One peer of that pass. */
  method SettleTurn(peers: array<Peer>, i: nat, now: nat, level: nat) returns (settled: bool, taken: nat)
    requires i < peers.Length
    modifies peers
    ensures var p := old(peers[i]);
            && (settled <==> p.connected && p.incomingEpoch != now
                             && (p.outgoingBandwidth == 0 || p.outgoingBandwidth < level))
            && peers[..] == (if settled then old(peers[..])[i := p.(incomingEpoch := now)] else old(peers[..]))
            && (settled ==> taken == p.outgoingBandwidth && Sum(old(peers[..]), Open(now)) > 0)
            && Sum(peers[..], Open(now)) == Sum(old(peers[..]), Open(now)) - (if settled then 1 else 0)
            && Sum(peers[..], Taken(now)) == Sum(old(peers[..]), Taken(now)) + (if settled then taken else 0)
  {
    hide Sum, Open, Taken;
    var p := peers[i];
    taken := p.outgoingBandwidth;
    settled := p.connected && p.incomingEpoch != now && !(p.outgoingBandwidth > 0 && p.outgoingBandwidth >= level);
    if settled {
      SettleSums(peers[..], i, now);
      peers[i] := p.(incomingEpoch := now);
      assert peers[..] == old(peers[..])[i := p.(incomingEpoch := now)];
    }
  }

  /** One pass over the peers at a fixed level. */
  method Settle(peers: array<Peer>, now: nat, level: nat, bandwidth: nat, remaining: nat)
    returns (bandwidth': nat, remaining': nat, adjusted: bool)
    requires remaining == Sum(peers[..], Open(now)) > 0
    requires level == bandwidth / remaining && SettledBelow(peers[..], now, level)
    modifies peers
    ensures Marked(old(peers[..]), peers[..], now) && SettledBelow(peers[..], now, level)
    ensures remaining' == Sum(peers[..], Open(now)) <= remaining
    ensures bandwidth' + Sum(peers[..], Taken(now)) == bandwidth + Sum(old(peers[..]), Taken(now))
    ensures level * remaining' <= bandwidth'
    ensures adjusted ==> remaining' < remaining
    ensures !adjusted ==> remaining' == remaining && bandwidth' == bandwidth
                          && OpenAbove(peers[..], peers.Length, now, level)
  {
    bandwidth', remaining', adjusted := bandwidth, remaining, false;
    ghost var start := peers[..];
    DivisionBounds(bandwidth, remaining);
    hide Sum, Open, Taken;
    var i := 0;
    while i < peers.Length
      invariant i <= peers.Length
      invariant Marked(start, peers[..], now) && SettledBelow(peers[..], now, level)
      invariant forall j :: i <= j < peers.Length ==> peers[j] == start[j]
      invariant remaining' == Sum(peers[..], Open(now)) <= remaining
      invariant bandwidth' + Sum(peers[..], Taken(now)) == bandwidth + Sum(start, Taken(now))
      invariant level * remaining' <= bandwidth'
      invariant adjusted ==> remaining' < remaining
      invariant !adjusted ==> remaining' == remaining && bandwidth' == bandwidth
      invariant OpenAbove(peers[..], i, now, level)
    {
      var settled, taken := SettleTurn(peers, i, now, level);
      if settled {
        OneLess(bandwidth', level, remaining', taken);
        adjusted := true;
        remaining' := remaining' - 1;
        bandwidth' := bandwidth' - taken;
      }
      i := i + 1;
    }
  }

  /** What a connected peer asks for if the level is raised by one. */
  function Raised(level: nat): Peer -> nat {
    (p: Peer) => if !p.connected then 0
                 else if p.outgoingBandwidth > 0 && p.outgoingBandwidth >= level then level + 1 else p.outgoingBandwidth
  }

  /** Beyond the level at which peers were settled, each open one asks for no more than that. */
  lemma {:induction false} RaisedIsShared(start: seq<Peer>, s: seq<Peer>, now: nat, settled: nat, level: nat)
    requires Marked(start, s, now) && SettledBelow(s, now, settled) && settled <= level
    requires forall i :: 0 <= i < |start| && start[i].connected ==> start[i].incomingEpoch != now
    ensures Sum(start, Raised(level)) <= (level + 1) * Sum(s, Open(now)) + Sum(s, Taken(now))
  {
    if s != [] {
      RaisedIsShared(start[1..], s[1..], now, settled, level);
      var open := Sum(s[1..], Open(now));
      assert (level + 1) * (open + 1) == (level + 1) * open + (level + 1);
      assert Sum(s, Open(now)) == open + Open(now)(s[0]);
    }
  }

  /** Every level below `level` can be raised by one. */
  predicate LowerFit(start: seq<Peer>, level: nat, bandwidth: nat) {
    forall l: nat :: l < level ==> Sum(start, Raised(l)) <= bandwidth
  }

  lemma MoreFit(start: seq<Peer>, s: seq<Peer>, now: nat, settled: nat, level: nat, bandwidth: nat, total: nat)
    requires Marked(start, s, now) && SettledBelow(s, now, settled) && settled <= level
             && LowerFit(start, settled, total)
    requires forall i :: 0 <= i < |start| && start[i].connected ==> start[i].incomingEpoch != now
    requires level * Sum(s, Open(now)) <= bandwidth && bandwidth + Sum(s, Taken(now)) == total
    ensures LowerFit(start, level, total)
  {
    hide Sum, Marked, SettledBelow, Raised;
    forall l: nat | settled <= l < level
      ensures Sum(start, Raised(l)) <= total
    {
      RaisedIsShared(start, s, now, settled, l);
      Grows(l + 1, level, Sum(s, Open(now)));
    }
  }

  /** The incoming half of enet_host_bandwidth_throttle. The level found shares the bandwidth
      fairly: whoever can send less than the level gets all of that, everyone else gets the
      level, which is the first that the bandwidth does not allow to be raised by one. */
  method ShareIncoming(peers: array<Peer>, incomingBandwidth: nat, connectedPeers: nat, now: nat) returns (level: nat)
    requires connectedPeers == Sum(peers[..], Connected)
    requires forall i :: 0 <= i < peers.Length && peers[i].connected ==> peers[i].incomingEpoch != now
    requires 0 < incomingBandwidth < WORD
    modifies peers
    ensures Marked(old(peers[..]), peers[..], now)
    ensures SettledBelow(peers[..], now, level) && OpenAbove(peers[..], peers.Length, now, level)
    ensures level * Sum(peers[..], Open(now)) + Sum(peers[..], Taken(now)) <= incomingBandwidth
    ensures Sum(peers[..], Open(now)) > 0 ==>
              (level + 1) * Sum(peers[..], Open(now)) + Sum(peers[..], Taken(now)) > incomingBandwidth
    ensures LowerFit(old(peers[..]), level, incomingBandwidth)
  {
    hide LowerFit, Raised;
    NothingSettled(peers[..], now);
    NoneLower(peers[..], incomingBandwidth);
    var remaining, bandwidth, adjust := connectedPeers, incomingBandwidth, true;
    level := 0;
    while remaining > 0 && adjust
      invariant remaining == Sum(peers[..], Open(now))
      invariant bandwidth + Sum(peers[..], Taken(now)) == incomingBandwidth
      invariant Marked(old(peers[..]), peers[..], now) && SettledBelow(peers[..], now, level)
      invariant level * remaining <= bandwidth && LowerFit(old(peers[..]), level, incomingBandwidth)
      invariant !adjust ==> OpenAbove(peers[..], peers.Length, now, level) && bandwidth < (level + 1) * remaining
      decreases remaining, adjust
    {
      AtLeastQuotient(bandwidth, remaining, level);
      DivisionBounds(bandwidth, remaining);
      MoreFit(old(peers[..]), peers[..], now, level, bandwidth / remaining, bandwidth, incomingBandwidth);
      level := bandwidth / remaining;
      bandwidth, remaining, adjust := Settle(peers, now, level, bandwidth, remaining);
    }
    if remaining == 0 {
      NoneOpen(peers[..], now, level);
    }
  }

  lemma NoneLower(start: seq<Peer>, bandwidth: nat)
    ensures LowerFit(start, 0, bandwidth)
  {
  }

  lemma {:induction false} NothingSettled(s: seq<Peer>, now: nat)
    requires forall i :: 0 <= i < |s| && s[i].connected ==> s[i].incomingEpoch != now
    ensures Sum(s, Taken(now)) == 0 && Sum(s, Open(now)) == Sum(s, Connected)
  {
    if s != [] {
      NothingSettled(s[1..], now);
    }
  }

  lemma NoneOpen(s: seq<Peer>, now: nat, level: nat)
    requires Sum(s, Open(now)) == 0
    ensures OpenAbove(s, |s|, now, level)
  {
    forall i | 0 <= i < |s|
      ensures !(s[i].connected && s[i].incomingEpoch != now)
    {
      SumMember(s, i, Open(now));
    }
  }

  /** A connected peer's share at a water level: all it can send, or the level. */
  function Share(level: nat): Peer -> nat {
    (p: Peer) => if p.connected then Min(p.outgoingBandwidth, level) else 0
  }

  /** What the loop leaves is the water-filling at its level, peer by peer and in sum. */
  lemma {:induction false} SharesAreTheLevel(s: seq<Peer>, now: nat, level: nat)
    requires SettledBelow(s, now, level) && OpenAbove(s, |s|, now, level)
    ensures Sum(s, Share(level)) == level * Sum(s, Open(now)) + Sum(s, Taken(now))
  {
    if s != [] {
      TailSettled(s, now, level);
      hide SettledBelow, OpenAbove;
      SharesAreTheLevel(s[1..], now, level);
      var open := Sum(s[1..], Open(now));
      assert level * (open + 1) == level * open + level;
      assert Sum(s, Open(now)) == open + Open(now)(s[0]);
      assert Sum(s, Taken(now)) == Sum(s[1..], Taken(now)) + Taken(now)(s[0]);
    }
  }

  /** The shares told to the connected peers: each is its peer's share of the water-filling. For a
      peer that is not connected nothing is queued. */
  method Announce(peers: array<Peer>, now: nat, level: nat) returns (told: seq<(nat, nat)>)
    requires SettledBelow(peers[..], now, level) && OpenAbove(peers[..], peers.Length, now, level)
    ensures forall k, l :: 0 <= k < l < |told| ==> told[k].0 < told[l].0
    ensures forall k :: 0 <= k < |told| ==>
              told[k].0 < peers.Length && peers[told[k].0].connected && told[k].1 == Share(level)(peers[told[k].0])
    ensures forall i :: 0 <= i < peers.Length && peers[i].connected ==> exists k :: 0 <= k < |told| && told[k].0 == i
  {
    told := [];
    for i := 0 to peers.Length
      invariant forall k, l :: 0 <= k < l < |told| ==> told[k].0 < told[l].0
      invariant forall k ::
                0 <= k < |told|
                ==> told[k].0 < i && peers[told[k].0].connected && told[k].1 == Share(level)(peers[told[k].0])
      invariant forall j :: 0 <= j < i && peers[j].connected ==> exists k :: 0 <= k < |told| && told[k].0 == j
    {
      if peers[i].connected {
        ghost var before := told;
        assert peers[..][i] == peers[i];
        told := told + [(i, if peers[i].incomingEpoch == now then peers[i].outgoingBandwidth else level)];
        assert told[|before|].0 == i;
        forall j | 0 <= j < i && peers[j].connected
          ensures exists k :: 0 <= k < |told| && told[k].0 == j
        {
          var k :| 0 <= k < |before| && before[k].0 == j;
          assert told[k].0 == j;
        }
      }
    }
  }

  lemma TailSettled(s: seq<Peer>, now: nat, level: nat)
    requires s != [] && SettledBelow(s, now, level) && OpenAbove(s, |s|, now, level)
    ensures SettledBelow(s[1..], now, level) && OpenAbove(s[1..], |s| - 1, now, level)
    ensures Share(level)(s[0]) == level * Open(now)(s[0]) + Taken(now)(s[0])
  {
    assert forall i :: 0 <= i < |s| - 1 ==> s[1..][i] == s[i + 1];
  }

  // ---------------------------------------------------------------- outgoing bandwidth

  /** What a peer can take in the time that went by. */
  function Quota(p: Peer, elapsed: nat): nat { p.incomingBandwidth * elapsed / 1000 }

  function Unthrottled(now: nat): Peer -> nat {
    (p: Peer) => if p.connected && p.outgoingEpoch != now then 1 else 0
  }

  function Wanted(now: nat): Peer -> nat {
    (p: Peer) => if p.connected && p.outgoingEpoch != now then p.outgoingDataTotal else 0
  }

  function Spent(now: nat, elapsed: nat): Peer -> nat {
    (p: Peer) => if p.connected && p.outgoingEpoch == now then Quota(p, elapsed) else 0
  }

  function Min(a: nat, b: nat): nat { if a < b then a else b }

  function WithLimit(p: Peer, limit: nat): Peer {
    p.(packetThrottleLimit := limit, packetThrottle := Min(p.packetThrottle, limit), incomingDataTotal := 0,
        outgoingDataTotal := 0)
  }

  /** A peer limited to the share of its data that it can take, and to at least 1 part in 32. */
  function Limited(p: Peer, elapsed: nat, now: nat): Peer
    requires p.outgoingDataTotal > 0
  {
    var limit := Quota(p, elapsed) * THROTTLE_SCALE / p.outgoingDataTotal;
    WithLimit(p, if limit == 0 then 1 else limit).(outgoingEpoch := now)
  }

  /** The data a peer is meant to get at throttle `t` exceeds what it can take. */
  predicate Exceeds(p: Peer, t: nat, elapsed: nat) {
    p.incomingBandwidth != 0 && t * p.outgoingDataTotal / THROTTLE_SCALE > Quota(p, elapsed)
  }

  /** What a round at throttle `t` makes of a peer. */
  function Turned(p: Peer, t: nat, elapsed: nat, now: nat): Peer {
    if p.connected && p.outgoingEpoch != now && Exceeds(p, t, elapsed)
    then assert p.outgoingDataTotal > 0; Limited(p, elapsed, now)
    else p
  }

  /** A round at throttle `t`: just those that it would give more than they can take are limited. */
  predicate Round(before: seq<Peer>, after: seq<Peer>, t: nat, elapsed: nat, now: nat) {
    |before| == |after| && forall i :: 0 <= i < |before| ==> after[i] == Turned(before[i], t, elapsed, now)
  }

  /** The throttle in a round: what is left of both sums once the limited peers have their quotas. */
  function Level(s: seq<Peer>, budget: nat, total: nat, elapsed: nat, now: nat): (t: nat)
    ensures t <= THROTTLE_SCALE
  {
    var spent := Sum(s, Spent(now, elapsed));
    if spent <= budget && spent <= total then ThrottleFor(budget - spent, total - spent) else 0
  }

  /** Rounds, each at the throttle that the one before left. */
  ghost predicate Rounds(stages: seq<seq<Peer>>, budget: nat, total: nat, elapsed: nat, now: nat) {
    && |stages| > 0
    && forall k: nat :: k < |stages| - 1 ==> RoundAt(stages, k, budget, total, elapsed, now)
  }

  ghost predicate RoundAt(stages: seq<seq<Peer>>, k: nat, budget: nat, total: nat, elapsed: nat, now: nat)
    requires k < |stages| - 1
  {
    Round(stages[k], stages[k + 1], Level(stages[k], budget, total, elapsed, now), elapsed, now)
  }

  lemma OneMoreRound(stages: seq<seq<Peer>>, next: seq<Peer>, budget: nat, total: nat, elapsed: nat, now: nat)
    requires Rounds(stages, budget, total, elapsed, now)
    requires var last := stages[|stages| - 1]; Round(last, next, Level(last, budget, total, elapsed, now), elapsed, now)
    ensures Rounds(stages + [next], budget, total, elapsed, now)
  {
    hide Round, Level;
    var more := stages + [next];
    forall k: nat | k < |stages|
      ensures RoundAt(more, k, budget, total, elapsed, now)
    {
      if k < |stages| - 1 { assert RoundAt(stages, k, budget, total, elapsed, now); }
    }
  }

  lemma LevelIs(s: seq<Peer>, budget: nat, total: nat, elapsed: nat, now: nat, bandwidth: nat, dataTotal: nat)
    requires bandwidth + Sum(s, Spent(now, elapsed)) == budget && dataTotal + Sum(s, Spent(now, elapsed)) == total
    ensures Level(s, budget, total, elapsed, now) == ThrottleFor(bandwidth, dataTotal)
  {
  }

  /** What rounds do to a peer. */
  predicate SlowLimited(before: seq<Peer>, after: seq<Peer>, elapsed: nat, now: nat) {
    && |before| == |after|
    && forall i :: 0 <= i < |before| ==>
         || after[i] == before[i]
         || (&& before[i].connected && before[i].outgoingEpoch != now
            && before[i].outgoingDataTotal > Quota(before[i], elapsed)
             && after[i] == Limited(before[i], elapsed, now))
  }

  function ThrottleFor(bandwidth: nat, dataTotal: nat): (t: nat)
    ensures t <= THROTTLE_SCALE && t * dataTotal <= THROTTLE_SCALE * bandwidth
  {
    if dataTotal <= bandwidth then
      ScaleFits(bandwidth, dataTotal);
      THROTTLE_SCALE
    else
      QuotientFits(bandwidth, dataTotal);
      bandwidth * THROTTLE_SCALE / dataTotal
  }

  lemma ScaleFits(bandwidth: nat, dataTotal: nat)
    requires dataTotal <= bandwidth
    ensures THROTTLE_SCALE * dataTotal <= THROTTLE_SCALE * bandwidth
  {
  }

  lemma QuotientFits(bandwidth: nat, dataTotal: nat)
    requires dataTotal > bandwidth
    ensures var t := bandwidth * THROTTLE_SCALE / dataTotal;
            0 <= t <= THROTTLE_SCALE && t * dataTotal <= THROTTLE_SCALE * bandwidth
  {
    QuotientBelow(bandwidth * THROTTLE_SCALE, dataTotal, THROTTLE_SCALE);
  }

  lemma QuotientBelow(a: nat, n: nat, q: nat)
    requires n > 0 && a < q * n
    ensures 0 <= a / n < q && a / n * n <= a
  {
    DivisionBounds(a, n);
    if a / n >= q { Grows(q, a / n, n); }
  }

  /** Taking a peer that exceeds its quota out of those that share, at a fixed throttle. */
  lemma OneLimited(t: nat, wanted: nat, bandwidth: nat, dataTotal: nat, out: nat, quota: nat)
    requires t <= THROTTLE_SCALE && t * wanted <= THROTTLE_SCALE * bandwidth && out <= wanted <= dataTotal
    requires t * out / THROTTLE_SCALE > quota
    ensures quota < out && quota <= bandwidth && wanted - out <= dataTotal - quota
    ensures t * (wanted - out) <= THROTTLE_SCALE * (bandwidth - quota)
  {
    assert t * wanted == t * (wanted - out) + t * out;
    assert t * (wanted - out) >= 0;
    assert t * out <= THROTTLE_SCALE * out by { Grows(t, THROTTLE_SCALE, out); }
  }

  /** No product the loops form leaves 32 bits. */
  predicate Fits(p: Peer, elapsed: nat) {
    p.incomingBandwidth * elapsed < WORD && THROTTLE_SCALE * p.outgoingDataTotal < WORD
  }

  predicate AllFit(s: seq<Peer>, elapsed: nat) {
    forall i :: 0 <= i < |s| && s[i].connected ==> Fits(s[i], elapsed)
  }

  lemma ProductsFit(p: Peer, t: nat, elapsed: nat)
    requires Fits(p, elapsed) && t <= THROTTLE_SCALE
    ensures t * p.outgoingDataTotal < WORD
    ensures Quota(p, elapsed) < p.outgoingDataTotal ==> Quota(p, elapsed) * THROTTLE_SCALE < WORD
  {
    Grows(t, THROTTLE_SCALE, p.outgoingDataTotal);
  }

  /** What limiting peer `i` does to the sums. */
  lemma LimitSums(s: seq<Peer>, i: nat, t: nat, elapsed: nat, now: nat, bandwidth: nat, dataTotal: nat)
    requires i < |s| && t <= THROTTLE_SCALE && s[i].connected && s[i].outgoingEpoch != now && Exceeds(s[i], t, elapsed)
    requires t * Sum(s, Wanted(now)) <= THROTTLE_SCALE * bandwidth && Sum(s, Wanted(now)) <= dataTotal
    ensures var quota := Quota(s[i], elapsed);
            && quota < s[i].outgoingDataTotal && quota <= bandwidth && quota <= dataTotal
            && Sum(s, Unthrottled(now)) > 0
            && var s' := s[i := Limited(s[i], elapsed, now)];
               && Sum(s', Unthrottled(now)) == Sum(s, Unthrottled(now)) - 1
               && Sum(s', Spent(now, elapsed)) == Sum(s, Spent(now, elapsed)) + quota
               && Sum(s', Wanted(now)) <= dataTotal - quota
               && t * Sum(s', Wanted(now)) <= THROTTLE_SCALE * (bandwidth - quota)
  {
    hide Sum;
    SumMember(s, i, Wanted(now));
    SumMember(s, i, Unthrottled(now));
    OneLimited(t, Sum(s, Wanted(now)), bandwidth, dataTotal, s[i].outgoingDataTotal, Quota(s[i], elapsed));
    var x := Limited(s[i], elapsed, now);
    SumUpdate(s, i, x, Wanted(now));
    SumUpdate(s, i, x, Unthrottled(now));
    SumUpdate(s, i, x, Spent(now, elapsed));
  }

  method LimitOne(peers: array<Peer>, i: nat, quota: nat, elapsed: nat, now: nat)
    requires i < peers.Length && quota == Quota(peers[i], elapsed) && peers[i].outgoingDataTotal > 0
    modifies peers
    ensures peers[..] == old(peers[..])[i := Limited(old(peers[i]), elapsed, now)]
  {
    var p := peers[i];
    var limit := quota * THROTTLE_SCALE / p.outgoingDataTotal;
    if limit == 0 { limit := 1; }
    var throttle := if p.packetThrottle > limit then limit else p.packetThrottle;
    peers[i] := p.(packetThrottleLimit := limit, packetThrottle := throttle, outgoingEpoch := now,
                   incomingDataTotal := 0, outgoingDataTotal := 0);
  }

  /** One pass over the peers at a fixed throttle. */
  method LimitSlow(peers: array<Peer>, t: nat, elapsed: nat, now: nat, bandwidth: nat, dataTotal: nat, remaining: nat)
    returns (bandwidth': nat, dataTotal': nat, remaining': nat, adjusted: bool)
    requires remaining == Sum(peers[..], Unthrottled(now)) && Sum(peers[..], Wanted(now)) <= dataTotal
    requires t == ThrottleFor(bandwidth, dataTotal) && AllFit(peers[..], elapsed)
    modifies peers
    ensures SlowLimited(old(peers[..]), peers[..], elapsed, now) && AllFit(peers[..], elapsed)
    ensures Round(old(peers[..]), peers[..], t, elapsed, now)
    ensures remaining' == Sum(peers[..], Unthrottled(now)) <= remaining && Sum(peers[..], Wanted(now)) <= dataTotal'
    ensures bandwidth' + Sum(peers[..], Spent(now, elapsed)) == bandwidth + Sum(old(peers[..]), Spent(now, elapsed))
    ensures bandwidth' <= bandwidth && dataTotal' - bandwidth' == dataTotal - bandwidth
    ensures adjusted ==> remaining' < remaining
    ensures !adjusted ==> remaining' == remaining && bandwidth' == bandwidth
    ensures !adjusted ==> NoneExceeds(peers[..], peers.Length, t, elapsed, now)
  {
    bandwidth', dataTotal', remaining', adjusted := bandwidth, dataTotal, remaining, false;
    ghost var start := peers[..];
    Scales(t, Sum(start, Wanted(now)), dataTotal, bandwidth);
    RoundBegins(start, t, elapsed, now);
    hide Sum, ThrottleFor, Exceeds, Limited, Quota, Fits, RoundUpTo, Turned, Round, SlowLimited, AllFit;
    var i := 0;
    while i < peers.Length
      invariant i <= peers.Length
      invariant RoundUpTo(start, peers[..], i, t, elapsed, now) && AllFit(peers[..], elapsed)
      invariant remaining' == Sum(peers[..], Unthrottled(now)) <= remaining && Sum(peers[..], Wanted(now)) <= dataTotal'
      invariant bandwidth' + Sum(peers[..], Spent(now, elapsed)) == bandwidth + Sum(start, Spent(now, elapsed))
      invariant bandwidth' <= bandwidth && dataTotal' - bandwidth' == dataTotal - bandwidth
      invariant t * Sum(peers[..], Wanted(now)) <= THROTTLE_SCALE * bandwidth'
      invariant adjusted ==> remaining' < remaining
      invariant !adjusted ==> remaining' == remaining && bandwidth' == bandwidth
      invariant !adjusted ==> NoneExceeds(peers[..], i, t, elapsed, now)
    {
      ghost var before := peers[..];
      NextInRound(start, before, i, t, elapsed, now);
      var limited, quota := LimitTurn(peers, i, t, elapsed, now, bandwidth', dataTotal');
      if limited {
        adjusted := true;
        remaining' := remaining' - 1;
        bandwidth' := bandwidth' - quota;
        dataTotal' := dataTotal' - quota;
      }
      i := i + 1;
    }
    RoundEnds(start, peers[..], t, elapsed, now);
  }

  /** A round has come to peer `n`. */
  predicate RoundUpTo(before: seq<Peer>, after: seq<Peer>, n: nat, t: nat, elapsed: nat, now: nat) {
    |before| == |after| && forall i :: 0 <= i < |before| ==>
        after[i] == if i < n then Turned(before[i], t, elapsed, now) else before[i]
  }

  lemma RoundBegins(before: seq<Peer>, t: nat, elapsed: nat, now: nat)
    ensures RoundUpTo(before, before, 0, t, elapsed, now)
  {
  }

  lemma NextInRound(before: seq<Peer>, after: seq<Peer>, n: nat, t: nat, elapsed: nat, now: nat)
    requires n < |before| && RoundUpTo(before, after, n, t, elapsed, now)
    ensures |after| == |before| && after[n] == before[n]
    ensures RoundUpTo(before, after[n := Turned(before[n], t, elapsed, now)], n + 1, t, elapsed, now)
    ensures Turned(before[n], t, elapsed, now) == before[n] ==> RoundUpTo(before, after, n + 1, t, elapsed, now)
  {
    hide Turned;
  }

  lemma RoundEnds(before: seq<Peer>, after: seq<Peer>, t: nat, elapsed: nat, now: nat)
    requires RoundUpTo(before, after, |before|, t, elapsed, now) && t <= THROTTLE_SCALE
    ensures Round(before, after, t, elapsed, now) && SlowLimited(before, after, elapsed, now)
  {
    forall i | 0 <= i < |before| && Exceeds(before[i], t, elapsed)
      ensures before[i].outgoingDataTotal > Quota(before[i], elapsed)
    {
      Grows(t, THROTTLE_SCALE, before[i].outgoingDataTotal);
    }
  }

  /** One peer of that loop: it is limited if it exceeds its quota, and no product wraps. */
  method LimitTurn(peers: array<Peer>, i: nat, t: nat, elapsed: nat, now: nat, ghost bandwidth: nat,
                   ghost dataTotal: nat)
    returns (limited: bool, quota: nat)
    requires i < peers.Length && AllFit(peers[..], elapsed) && t <= THROTTLE_SCALE
    requires t * Sum(peers[..], Wanted(now)) <= THROTTLE_SCALE * bandwidth && Sum(peers[..], Wanted(now)) <= dataTotal
    modifies peers
    ensures AllFit(peers[..], elapsed)
    ensures limited <==> old(peers[i]).connected && old(peers[i]).outgoingEpoch != now
                         && Exceeds(old(peers[i]), t, elapsed)
    ensures peers[i] == Turned(old(peers[i]), t, elapsed, now)
    ensures !limited ==> peers[..] == old(peers[..])
    ensures limited ==> quota == Quota(old(peers[i]), elapsed) < old(peers[i]).outgoingDataTotal
                        && peers[..] == old(peers[..])[i := Limited(old(peers[i]), elapsed, now)]
    ensures limited ==> quota <= bandwidth && quota <= dataTotal
                        && Sum(peers[..], Unthrottled(now)) == Sum(old(peers[..]), Unthrottled(now)) - 1
                        && Sum(peers[..], Spent(now, elapsed)) == Sum(old(peers[..]), Spent(now, elapsed)) + quota
                        && Sum(peers[..], Wanted(now)) <= dataTotal - quota
                        && t * Sum(peers[..], Wanted(now)) <= THROTTLE_SCALE * (bandwidth - quota)
  {
    hide Sum;
    var p := peers[i];
    limited, quota := false, 0;
    if p.connected && p.incomingBandwidth != 0 && p.outgoingEpoch != now {
      ProductsFit(p, t, elapsed);
      quota := p.incomingBandwidth * elapsed / 1000;
      if t * p.outgoingDataTotal / THROTTLE_SCALE > quota {
        limited := true;
        LimitSums(peers[..], i, t, elapsed, now, bandwidth, dataTotal);
        assert p.incomingBandwidth * elapsed < WORD && t * p.outgoingDataTotal < WORD && quota * THROTTLE_SCALE < WORD;
        hide Limited, Wanted, Spent, Unthrottled;
        LimitOne(peers, i, quota, elapsed, now);
        LimitedFits(p, elapsed, now);
      }
    }
  }

  lemma LimitedFits(p: Peer, elapsed: nat, now: nat)
    requires Fits(p, elapsed) && p.outgoingDataTotal > 0
    ensures Fits(Limited(p, elapsed, now), elapsed)
  {
  }

  /** The first `n` peers can all take what they are meant to get at throttle `t`. */
  predicate NoneExceeds(s: seq<Peer>, n: nat, t: nat, elapsed: nat, now: nat) {
    forall i :: 0 <= i < n && i < |s| && s[i].connected && s[i].outgoingEpoch != now ==> !Exceeds(s[i], t, elapsed)
  }

  lemma Scales(t: nat, wanted: nat, dataTotal: nat, bandwidth: nat)
    requires wanted <= dataTotal && t * dataTotal <= THROTTLE_SCALE * bandwidth
    ensures t * wanted <= THROTTLE_SCALE * bandwidth
  {
    Grows(wanted, dataTotal, t);
  }

  /** The sum of the data all connected peers were sent. */
  method TotalData(peers: array<Peer>, now: nat) returns (total: nat)
    requires forall i :: 0 <= i < peers.Length && peers[i].connected ==> peers[i].outgoingEpoch != now
    ensures total == Sum(peers[..], Wanted(now))
  {
    total := 0;
    assert peers[0..] == peers[..];
    for i := 0 to peers.Length
      invariant total + Sum(peers[i..], Wanted(now)) == Sum(peers[..], Wanted(now))
    {
      assert peers[i..] == [peers[i]] + peers[i + 1..];
      if peers[i].connected { total := total + peers[i].outgoingDataTotal; }
    }
  }

  /** What becomes of every peer when the rest share at throttle `t`. */
  predicate RestLimited(before: seq<Peer>, after: seq<Peer>, t: nat, now: nat) {
    && |before| == |after|
    && forall i :: 0 <= i < |before| ==>
         after[i] == if before[i].connected && before[i].outgoingEpoch != now then WithLimit(before[i], t)
             else before[i]
  }

  method LimitRest(peers: array<Peer>, t: nat, now: nat)
    modifies peers
    ensures RestLimited(old(peers[..]), peers[..], t, now)
  {
    for i := 0 to peers.Length
      invariant RestLimited(old(peers[..])[..i], peers[..i], t, now)
      invariant forall j :: i <= j < peers.Length ==> peers[j] == old(peers[j])
    {
      var p := peers[i];
      if p.connected && p.outgoingEpoch != now {
        var throttle := if p.packetThrottle > t then t else p.packetThrottle;
        peers[i] := p.(packetThrottleLimit := t, packetThrottle := throttle, incomingDataTotal := 0,
            outgoingDataTotal := 0);
      }
    }
    assert old(peers[..])[..peers.Length] == old(peers[..]) && peers[..peers.Length] == peers[..];
  }

  /** A connected peer is never let through more than its limit, or the limit more than all. */
  predicate ThrottleOk(p: Peer) {
    p.connected ==> p.packetThrottle <= p.packetThrottleLimit <= THROTTLE_SCALE
  }

  /** The rounds: as long as some peer is limited in one, another follows. */
  method LimitRounds(peers: array<Peer>, budget: nat, total: nat, connectedPeers: nat, limitedPeers: bool, elapsed: nat,
                     now: nat)
    returns (bandwidth: nat, dataTotal: nat, remaining: nat, t: nat, ghost stages: seq<seq<Peer>>)
    requires connectedPeers == Sum(peers[..], Unthrottled(now)) && Sum(peers[..], Wanted(now)) <= total
    requires Sum(peers[..], Spent(now, elapsed)) == 0 && AllFit(peers[..], elapsed)
    requires total <= budget || budget * THROTTLE_SCALE < WORD
    requires !limitedPeers ==> NoneExceeds(peers[..], peers.Length, ThrottleFor(budget, total), elapsed, now)
    modifies peers
    ensures remaining == Sum(peers[..], Unthrottled(now)) && Sum(peers[..], Wanted(now)) <= dataTotal
    ensures bandwidth + Sum(peers[..], Spent(now, elapsed)) == budget
    ensures dataTotal + Sum(peers[..], Spent(now, elapsed)) == total
    ensures dataTotal <= bandwidth || bandwidth * THROTTLE_SCALE < WORD
    ensures |stages| > 0 && stages[0] == old(peers[..]) && stages[|stages| - 1] == peers[..]
    ensures Rounds(stages, budget, total, elapsed, now) && SlowLimited(old(peers[..]), peers[..], elapsed, now)
    ensures t <= THROTTLE_SCALE
    ensures remaining > 0 ==> NoneExceeds(peers[..], peers.Length, ThrottleFor(bandwidth, dataTotal), elapsed, now)
  {
    hide Sum, ThrottleFor, Exceeds, Limited, Quota, Fits, NoneExceeds, Round, Rounds, Level, SlowLimited, AllFit;
    FirstStage(peers[..], budget, total, elapsed, now);
    bandwidth, dataTotal, remaining, t, stages := budget, total, connectedPeers, 0, [peers[..]];
    var adjust := limitedPeers;
    while remaining > 0 && adjust
      invariant remaining == Sum(peers[..], Unthrottled(now)) && Sum(peers[..], Wanted(now)) <= dataTotal
      invariant bandwidth + Sum(peers[..], Spent(now, elapsed)) == budget
      invariant dataTotal + Sum(peers[..], Spent(now, elapsed)) == total
      invariant |stages| > 0 && stages[0] == old(peers[..]) && stages[|stages| - 1] == peers[..]
      invariant Rounds(stages, budget, total, elapsed, now)
      invariant (dataTotal <= bandwidth || bandwidth * THROTTLE_SCALE < WORD) && t <= THROTTLE_SCALE
      invariant SlowLimited(old(peers[..]), peers[..], elapsed, now) && AllFit(peers[..], elapsed)
      invariant !adjust ==> NoneExceeds(peers[..], peers.Length, ThrottleFor(bandwidth, dataTotal), elapsed, now)
      decreases remaining, adjust
    {
      t := FindThrottle(bandwidth, dataTotal);
      ghost var s := peers[..];
      LevelIs(s, budget, total, elapsed, now, bandwidth, dataTotal);
      bandwidth, dataTotal, remaining, adjust := LimitSlow(peers, t, elapsed, now, bandwidth, dataTotal, remaining);
      OneMoreRound(stages, peers[..], budget, total, elapsed, now);
      stages := stages + [peers[..]];
      SlowTwice(old(peers[..]), s, peers[..], elapsed, now);
    }
  }

  /** The outgoing half of enet_host_bandwidth_throttle, `elapsed` milliseconds after the last
      time. `limitedPeers` says that some peer has announced a bandwidth. First the peers that
      cannot take their share are limited to what they can take; the rest then share what is
      left at one throttle, `t`. */
  method ShareOutgoing(peers: array<Peer>, outgoingBandwidth: nat, connectedPeers: nat, limitedPeers: bool,
                       elapsed: nat, now: nat)
    returns (t: nat, ghost stages: seq<seq<Peer>>, ghost budget: nat)
    requires connectedPeers == Sum(peers[..], Connected)
    requires forall i :: 0 <= i < peers.Length && peers[i].connected ==> peers[i].outgoingEpoch != now
    requires !limitedPeers ==> forall i ::
             0 <= i < peers.Length && peers[i].connected ==> peers[i].incomingBandwidth == 0
    requires AllFit(peers[..], elapsed) && outgoingBandwidth * elapsed < WORD
    requires outgoingBandwidth * elapsed / 1000 * THROTTLE_SCALE < WORD && Sum(peers[..], Wanted(now)) < WORD
    modifies peers
    ensures budget == if outgoingBandwidth != 0 then outgoingBandwidth * elapsed / 1000 else WORD - 1
    ensures var total := if outgoingBandwidth != 0 then Sum(old(peers[..]), Wanted(now)) else WORD - 1;
            && Rounds(stages, budget, total, elapsed, now) && stages[0] == old(peers[..])
            && var middle := stages[|stages| - 1];
               Sum(middle, Unthrottled(now)) > 0 ==> t == Level(middle, budget, total, elapsed, now)
    ensures SlowLimited(old(peers[..]), stages[|stages| - 1], elapsed, now)
    ensures RestLimited(stages[|stages| - 1], peers[..], t, now)
    ensures var middle := stages[|stages| - 1];
            NoneExceeds(middle, |middle|, t, elapsed, now)
    ensures var middle := stages[|stages| - 1];
            t * Sum(middle, Wanted(now)) + THROTTLE_SCALE * Sum(middle, Spent(now, elapsed)) <= THROTTLE_SCALE * budget
    ensures forall i :: 0 <= i < peers.Length && old(peers[i]).connected ==> ThrottleOk(peers[i])
  {
    var dataTotal: nat, bandwidth: nat := WORD - 1, WORD - 1;
    if outgoingBandwidth != 0 {
      dataTotal := TotalData(peers, now);
      bandwidth := outgoingBandwidth * elapsed / 1000;
    }
    budget := bandwidth;
    ghost var total := dataTotal;
    NoneThrottled(peers[..], now, elapsed);
    assert !limitedPeers ==> NoneExceeds(peers[..], peers.Length, ThrottleFor(bandwidth, dataTotal), elapsed, now);
    hide Sum, ThrottleFor, Exceeds, Limited, Quota, NoneExceeds, Round, Rounds, Level, SlowLimited, AllFit, Fits,
         ThrottleOk, RestLimited;
    var remaining;
    bandwidth, dataTotal, remaining, t, stages :=
      LimitRounds(peers, bandwidth, dataTotal, connectedPeers, limitedPeers, elapsed, now);
    ghost var middle := peers[..];
    if remaining > 0 {
      LevelIs(middle, budget, total, elapsed, now, bandwidth, dataTotal);
      t := FindThrottle(bandwidth, dataTotal);
      LimitRest(peers, t, now);
      Scales(t, Sum(middle, Wanted(now)), dataTotal, bandwidth);
    } else {
      NoneLeft(middle, t, elapsed, now);
    }
    AllThrottlesOk(old(peers[..]), middle, peers[..], t, elapsed, now);
  }

  method FindThrottle(bandwidth: nat, dataTotal: nat) returns (t: nat)
    requires dataTotal <= bandwidth || bandwidth * THROTTLE_SCALE < WORD
    ensures t == ThrottleFor(bandwidth, dataTotal)
  {
    if dataTotal <= bandwidth {
      t := THROTTLE_SCALE;
    } else {
      t := bandwidth * THROTTLE_SCALE / dataTotal;
    }
  }

  lemma {:induction false} NoneThrottled(s: seq<Peer>, now: nat, elapsed: nat)
    requires forall i :: 0 <= i < |s| && s[i].connected ==> s[i].outgoingEpoch != now
    ensures Sum(s, Unthrottled(now)) == Sum(s, Connected) && Sum(s, Spent(now, elapsed)) == 0
  {
    if s != [] {
      NoneThrottled(s[1..], now, elapsed);
    }
  }

  lemma FirstStage(s: seq<Peer>, budget: nat, total: nat, elapsed: nat, now: nat)
    ensures Rounds([s], budget, total, elapsed, now) && SlowLimited(s, s, elapsed, now)
  {
  }

  lemma SlowTwice(a: seq<Peer>, b: seq<Peer>, c: seq<Peer>, elapsed: nat, now: nat)
    requires SlowLimited(a, b, elapsed, now) && SlowLimited(b, c, elapsed, now)
    ensures SlowLimited(a, c, elapsed, now)
  {
  }

  lemma NoneLeft(s: seq<Peer>, t: nat, elapsed: nat, now: nat)
    requires Sum(s, Unthrottled(now)) == 0
    ensures NoneExceeds(s, |s|, t, elapsed, now) && RestLimited(s, s, t, now) && Sum(s, Wanted(now)) == 0
  {
    forall i | 0 <= i < |s|
      ensures !(s[i].connected && s[i].outgoingEpoch != now)
    {
      SumMember(s, i, Unthrottled(now));
    }
    NothingWanted(s, now);
  }

  lemma {:induction false} NothingWanted(s: seq<Peer>, now: nat)
    requires forall i :: 0 <= i < |s| ==> !(s[i].connected && s[i].outgoingEpoch != now)
    ensures Sum(s, Wanted(now)) == 0
  {
    if s != [] {
      NothingWanted(s[1..], now);
    }
  }

  lemma LimitIsSmall(p: Peer, elapsed: nat, now: nat)
    requires p.outgoingDataTotal > Quota(p, elapsed)
    ensures 1 <= Limited(p, elapsed, now).packetThrottleLimit <= THROTTLE_SCALE
  {
    QuotientBelow(Quota(p, elapsed) * THROTTLE_SCALE, p.outgoingDataTotal, THROTTLE_SCALE);
  }

  lemma AllThrottlesOk(before: seq<Peer>, middle: seq<Peer>, after: seq<Peer>, t: nat, elapsed: nat, now: nat)
    requires SlowLimited(before, middle, elapsed, now) && RestLimited(middle, after, t, now) && t <= THROTTLE_SCALE
    requires forall i :: 0 <= i < |before| && before[i].connected ==> before[i].outgoingEpoch != now
    ensures forall i :: 0 <= i < |before| && before[i].connected ==> ThrottleOk(after[i])
  {
    forall i | 0 <= i < |before| && before[i].connected
      ensures ThrottleOk(after[i])
    {
      if middle[i] != before[i] {
        LimitIsSmall(before[i], elapsed, now);
      }
    }
  }

  // ---------------------------------------------------------------- the throttle of one peer

  /** enet_peer_throttle: by the round-trip time measured, up, down or unchanged. The addition
      is 32 bits wide; whatever the acceleration, the limit is kept. */
  method AdjustThrottle(p: Peer, last: nat, variance: nat, threshold: nat, acceleration: nat, deceleration: nat,
                        rtt: nat)
    returns (p': Peer, direction: int)
    requires ThrottleOk(p) && p.connected && acceleration < WORD
    requires last + (variance + 1) / 2 < WORD && last + threshold + 2 * variance < WORD
    ensures ThrottleOk(p') && p' == p.(packetThrottle := p'.packetThrottle)
    ensures direction in {-1, 0, 1}
    ensures direction == 1 <==> last > variance && rtt < last + (variance + 1) / 2
    ensures direction == -1 <==> last > variance && rtt > last + threshold + 2 * variance
    ensures direction == 1 ==> p'.packetThrottle == Min((p.packetThrottle + acceleration) % WORD, p.packetThrottleLimit)
    ensures direction == -1 ==> p'.packetThrottle + Min(p.packetThrottle, deceleration) == p.packetThrottle
    ensures direction == 0 ==> p'.packetThrottle == if last <= variance then p.packetThrottleLimit else p.packetThrottle
  {
    if last <= variance {
      return p.(packetThrottle := p.packetThrottleLimit), 0;
    }
    if rtt < last + (variance + 1) / 2 {
      var throttle := (p.packetThrottle + acceleration) % WORD;
      if throttle > p.packetThrottleLimit { throttle := p.packetThrottleLimit; }
      return p.(packetThrottle := throttle), 1;
    }
    if rtt > last + threshold + 2 * variance {
      return p.(packetThrottle := if p.packetThrottle > deceleration then p.packetThrottle - deceleration else 0), -1;
    }
    return p, 0;
  }
}
