/** Reference counts of packets: how the queues of all peers share them, and when a packet is
    destroyed. */
module PacketReferences {

  /** A queued command, by the packet it holds; NO_PACKET for a control command. */
  const NO_PACKET := -1

  function Times(q: seq<int>, id: int): nat { multiset(q)[id] }

  function Held(queues: seq<seq<int>>, id: int): nat {
    if queues == [] then 0 else Times(queues[0], id) + Held(queues[1..], id)
  }

  lemma {:induction false} HeldUpdate(queues: seq<seq<int>>, i: nat, q: seq<int>, id: int)
    requires i < |queues|
    ensures Held(queues[i := q], id) + Times(queues[i], id) == Held(queues, id) + Times(q, id)
  {
    if i > 0 {
      HeldUpdate(queues[1..], i - 1, q, id);
      assert queues[i := q][1..] == queues[1..][i - 1 := q];
    } else {
      assert queues[0 := q][1..] == queues[1..];
    }
  }

  lemma {:induction false} HeldSome(queues: seq<seq<int>>, i: nat, id: int)
    requires i < |queues| && id in queues[i]
    ensures Held(queues, id) > 0
  {
    if i > 0 { HeldSome(queues[1..], i - 1, id); }
  }

  function WithoutAt(q: seq<int>, k: nat): seq<int>
    requires k < |q|
  {
    q[..k] + q[k + 1..]
  }

  /** What happens to queued commands: one joins a queue, goes from one to another, or is done with. */
  datatype Op = Queued(i: nat, id: int) | Moved(i: nat, k: nat, j: nat, at: nat) | Released(i: nat, k: nat)

  predicate CanDo(queues: seq<seq<int>>, op: Op) {
    && op.i < |queues|
    && match op
       case Queued(_, _) => true
       case Moved(i, k, j, at) => i != j && j < |queues| && k < |queues[i]| && at <= |queues[j]|
       case Released(i, k) => k < |queues[i]|
  }

  function AfterOp(queues: seq<seq<int>>, op: Op): seq<seq<int>>
    requires CanDo(queues, op)
  {
    match op
    case Queued(i, id) => queues[i := queues[i] + [id]]
    case Moved(i, k, j, at) =>
      queues[i := WithoutAt(queues[i], k)][j := queues[j][..at] + [queues[i][k]] + queues[j][at..]]
    case Released(i, k) => queues[i := WithoutAt(queues[i], k)]
  }

  /** The operations in turn, leaving out any that cannot be done when its turn comes. */
  function AfterOps(queues: seq<seq<int>>, ops: seq<Op>): seq<seq<int>>
    decreases |ops|
  {
    if ops == [] then queues
    else
      var before, op := AfterOps(queues, ops[..|ops| - 1]), ops[|ops| - 1];
      if CanDo(before, op) then AfterOp(before, op) else before
  }

  /** Sending does this with the commands of any peer; only control commands join a queue. */
  predicate Shuffles(ops: seq<Op>) {
    forall o :: 0 <= o < |ops| && ops[o].Queued? ==> ops[o].id == NO_PACKET
  }

  /** How one of the sends of a broadcast goes: it is refused, queues the packet whole, or in
      fragments. */
  datatype Sending = Refused | Whole | Fragments(n: nat)

  /** The queues after one send; only a packet queued whole is flushed at once. */
  function AfterSend(queues: seq<seq<int>>, target: nat, id: int, instant: bool, sending: Sending,
                     flush: seq<Op>): seq<seq<int>>
    requires target < |queues|
  {
    match sending
    case Refused => queues
    case Fragments(n) => queues[target := queues[target] + seq(n, _ => id)]
    case Whole =>
      var queued := queues[target := queues[target] + [id]];
      if instant then AfterOps(queued, flush) else queued
  }

  lemma TimesWithout(q: seq<int>, k: nat, id: int)
    requires k < |q|
    ensures Times(q, id) == Times(WithoutAt(q, k), id) + if q[k] == id then 1 else 0
  {
    assert q == q[..k] + [q[k]] + q[k + 1..];
  }

  lemma OneLess(queues: seq<seq<int>>, i: nat, k: nat)
    requires i < |queues| && k < |queues[i]|
    ensures var id := queues[i][k];
            && Held(queues, id) > 0
            && forall x :: Held(queues, x) == Held(queues[i := WithoutAt(queues[i], k)], x) + if x == id then 1 else 0
  {
    HeldSome(queues, i, queues[i][k]);
    forall x
      ensures Held(queues, x) == Held(queues[i := WithoutAt(queues[i], k)], x) + if x == queues[i][k] then 1 else 0
    {
      HeldUpdate(queues, i, WithoutAt(queues[i], k), x);
      TimesWithout(queues[i], k, x);
    }
  }

  ghost predicate Counted(queues: seq<seq<int>>, counts: map<int, nat>, hold: int) {
    && (forall id :: id in counts ==> id >= 0 && counts[id] == Held(queues, id) + if hold == id then 1 else 0)
    && (forall id :: id >= 0 && Held(queues, id) > 0 ==> id in counts)
    && (hold >= 0 ==> hold in counts)
  }

  ghost predicate GoneOnce(destroyed: seq<int>, counts: map<int, nat>) {
    && (forall k :: 0 <= k < |destroyed| ==> destroyed[k] !in counts)
    && forall k, l :: 0 <= k < l < |destroyed| ==> destroyed[k] != destroyed[l]
  }

  /** The counts after one command that held `id` is gone. */
  function Decremented(counts: map<int, nat>, id: int): map<int, nat>
    requires id in counts && counts[id] > 0
  {
    if counts[id] == 1 then counts - {id} else counts[id := counts[id] - 1]
  }

  lemma ReleaseCounts(queues: seq<seq<int>>, counts: map<int, nat>, hold: int, i: nat, k: nat)
    requires Counted(queues, counts, hold) && i < |queues| && k < |queues[i]|
    ensures var id, queues' := queues[i][k], queues[i := WithoutAt(queues[i], k)];
            if id < 0 then Counted(queues', counts, hold)
            else id in counts && counts[id] > 0 && Counted(queues', Decremented(counts, id), hold)
  {
    OneLess(queues, i, k);
    hide Held, WithoutAt;
  }

  lemma QueueCounts(queues: seq<seq<int>>, counts: map<int, nat>, hold: int, i: nat, id: int)
    requires Counted(queues, counts, hold) && i < |queues| && (id == NO_PACKET || id in counts)
    ensures Counted(queues[i := queues[i] + [id]], if id == NO_PACKET then counts
            else counts[id := counts[id] + 1], hold)
  {
    forall x ensures Held(queues[i := queues[i] + [id]], x) == Held(queues, x) + if x == id then 1 else 0 {
      HeldUpdate(queues, i, queues[i] + [id], x);
    }
    hide Held;
  }

  /** Every queue of every peer, outgoing, in flight and incoming alike. `counts` has the packets
      that exist; `hold` is the packet a broadcast keeps alive, NO_PACKET for none. */
  class Host {
    var queues: seq<seq<int>>
    var counts: map<int, nat>
    var hold: int
    ghost var destroyed: seq<int>

    constructor (count: nat)
      ensures Valid() && |queues| == count && counts == map[] && hold == NO_PACKET && destroyed == []
    {
      queues := seq(count, _ => []);
      counts, hold, destroyed := map[], NO_PACKET, [];
      new;
      forall id ensures Held(queues, id) == 0 { NothingHeld(queues, id); }
    }

    /** Each packet's count is the number of commands that hold it, and one more while a
        broadcast does; no command holds a packet that is gone; and none has gone twice. */
    ghost predicate Valid()
      reads this
    {
      Counted(queues, counts, hold) && GoneOnce(destroyed, counts)
    }

    method Create(id: int)
      requires Valid() && id >= 0 && id !in counts && id !in destroyed
      modifies this
      ensures Valid() && counts == old(counts)[id := 0] && queues == old(queues) && destroyed == old(destroyed)
              && hold == old(hold)
    {
      counts := counts[id := 0];
    }

    /** A command joins queue `i`. */
    method Queue(i: nat, id: int)
      requires Valid() && i < |queues| && (id == NO_PACKET || id in counts)
      modifies this
      ensures Valid() && queues == old(queues)[i := old(queues)[i] + [id]] && destroyed == old(destroyed)
              && hold == old(hold)
      ensures counts == if id == NO_PACKET then old(counts) else old(counts)[id := old(counts)[id] + 1]
    {
      hide Counted;
      QueueCounts(queues, counts, hold, i, id);
      if id != NO_PACKET { counts := counts[id := counts[id] + 1]; }
      queues := queues[i := queues[i] + [id]];
    }

    /** The fragments of one packet: its count goes up by their number before any is queued. */
    method QueueFragments(i: nat, id: int, n: nat)
      requires Valid() && i < |queues| && id in counts
      modifies this
      ensures Valid() && queues == old(queues)[i := old(queues)[i] + seq(n, _ => id)] && destroyed == old(destroyed)
              && hold == old(hold)
      ensures counts == old(counts)[id := old(counts)[id] + n]
    {
      counts := counts[id := counts[id] + n];
      ghost var was := queues;
      assert was[i] + seq(0, _ => id) == was[i];
      for k := 0 to n
        invariant queues == was[i := was[i] + seq(k, _ => id)]
        modifies `queues
      {
        assert seq(k + 1, _ => id) == seq(k, _ => id) + [id];
        assert was[i] + seq(k + 1, _ => id) == (was[i] + seq(k, _ => id)) + [id];
        queues := queues[i := queues[i] + [id]];
      }
      forall x ensures Held(queues, x) == Held(was, x) + if x == id then n else 0 {
        HeldUpdate(was, i, was[i] + seq(n, _ => id), x);
        Repeated(id, n, x);
      }
    }

    /** A command goes from one queue to another, as when it is sent, times out or is dispatched. */
    method Move(i: nat, k: nat, j: nat, at: nat)
      requires Valid() && i < |queues| && j < |queues| && i != j && k < |queues[i]| && at <= |queues[j]|
      modifies this
      ensures Valid() && counts == old(counts) && destroyed == old(destroyed) && hold == old(hold)
      ensures var q := old(queues); queues == q[i := WithoutAt(q[i], k)][j := q[j][..at] + [q[i][k]] + q[j][at..]]
    {
      ghost var q := queues;
      var id := queues[i][k];
      ghost var middle := q[i := WithoutAt(q[i], k)];
      queues := queues[i := WithoutAt(queues[i], k)];
      queues := queues[j := queues[j][..at] + [id] + queues[j][at..]];
      forall x ensures Held(queues, x) == Held(q, x) {
        HeldUpdate(q, i, WithoutAt(q[i], k), x);
        TimesWithout(q[i], k, x);
        HeldUpdate(middle, j, queues[j], x);
        assert q[j] == q[j][..at] + q[j][at..];
      }
    }

    /** A command is done with; its packet is destroyed with the last one. */
    method Release(i: nat, k: nat)
      requires Valid() && i < |queues| && k < |queues[i]|
      modifies this
      ensures Valid() && queues == old(queues)[i := WithoutAt(old(queues[i]), k)] && hold == old(hold)
      ensures var id, c := old(queues[i])[k], old(counts);
              if id < 0 then counts == c && destroyed == old(destroyed)
              else id in c && c[id] > 0 && counts == Decremented(c, id)
                   && destroyed == if c[id] == 1 then old(destroyed) + [id] else old(destroyed)
    {
      var id := queues[i][k];
      ReleaseCounts(queues, counts, hold, i, k);
      hide Counted, WithoutAt;
      queues := queues[i := WithoutAt(queues[i], k)];
      if id >= 0 {
        counts := counts[id := counts[id] - 1];
        if counts[id] == 0 {
          counts := counts - {id};
          destroyed := destroyed + [id];
        }
        assert counts == Decremented(old(counts), id);
      }
    }

    /** The flush of an instant packet: the commands of all peers are sent, dropped and released
        in any way. */
    method Flush(ops: seq<Op>)
      requires Valid() && Shuffles(ops)
      modifies this
      ensures Valid() && queues == AfterOps(old(queues), ops) && |queues| == |old(queues)| && hold == old(hold)
      ensures OnlyReleased(old(counts), old(destroyed))
    {
      hide AfterOps, AfterOp, CanDo, Counted, GoneOnce;
      assert ops[..0] == [] && ops[..|ops|] == ops;
      assert AfterOps(queues, []) == queues by { NoOps(queues); }
      for o := 0 to |ops|
        invariant Valid() && queues == AfterOps(old(queues), ops[..o]) && |queues| == |old(queues)| && hold == old(hold)
        invariant OnlyReleased(old(counts), old(destroyed))
      {
        OneMoreOp(old(queues), ops, o);
        if CanDo(queues, ops[o]) {
          Do(ops[o]);
        }
      }
    }

    /** One of these operations. */
    method Do(op: Op)
      requires Valid() && CanDo(queues, op) && (op.Queued? ==> op.id == NO_PACKET)
      modifies this
      ensures Valid() && queues == AfterOp(old(queues), op) && |queues| == |old(queues)| && hold == old(hold)
      ensures OnlyReleased(old(counts), old(destroyed))
    {
      hide Counted, GoneOnce;
      match op
      case Queued(i, _) => Queue(i, NO_PACKET);
      case Moved(i, k, j, at) => Move(i, k, j, at);
      case Released(i, k) => Release(i, k);
    }

    /** Since then packets have gone with their last command: each that lost it, and no other. */
    ghost predicate GoneWithLast(counts0: map<int, nat>, destroyed0: seq<int>)
      reads this
    {
      && counts.Keys <= counts0.Keys && destroyed0 <= destroyed
      && (forall x :: x in counts && counts[x] == 0 ==> counts0[x] == 0)
      && (forall x :: x in counts0 && x !in counts ==> counts0[x] > 0 && x in destroyed)
      && forall k :: |destroyed0| <= k < |destroyed| ==> destroyed[k] in counts0
    }

    /** As far as packets other than `id` go. */
    ghost predicate GoneApartFrom(id: int, counts0: map<int, nat>, destroyed0: seq<int>)
      reads this
    {
      && counts.Keys <= counts0.Keys && destroyed0 <= destroyed
      && (forall x :: x in counts && x != id ==> counts[x] <= counts0[x] && (counts[x] == 0 ==> counts0[x] == 0))
      && (forall x :: x in counts0 && x !in counts && x != id ==> counts0[x] > 0 && x in destroyed)
      && forall k :: |destroyed0| <= k < |destroyed| ==> destroyed[k] in counts0
    }

    /** And no packet has gained one. */
    ghost predicate OnlyReleased(counts0: map<int, nat>, destroyed0: seq<int>)
      reads this
    {
      GoneWithLast(counts0, destroyed0) && forall x :: x in counts ==> counts[x] <= counts0[x]
    }

    /** A packet with the last of its commands is handed to the application, not destroyed. */
    method Receive(i: nat) returns (id: int)
      requires Valid() && i < |queues| && queues[i] != [] && queues[i][0] >= 0
      modifies this
      ensures Valid() && id == old(queues[i])[0] && id in counts && id in old(counts)
              && queues == old(queues)[i := old(queues[i])[1..]]
      ensures counts == old(counts)[id := counts[id]] && old(counts)[id] == counts[id] + 1
      ensures destroyed == old(destroyed) && hold == old(hold)
    {
      id := queues[i][0];
      OneLess(queues, i, 0);
      assert WithoutAt(queues[i], 0) == queues[i][1..];
      queues := queues[i := queues[i][1..]];
      counts := counts[id := counts[id] - 1];
    }

    /** The application lets a packet go that no command holds. */
    method Dispose(id: int)
      requires Valid() && id in counts && counts[id] == 0
      modifies this
      ensures Valid() && counts == old(counts) - {id} && destroyed == old(destroyed) + [id]
      ensures queues == old(queues) && hold == old(hold)
    {
      counts := counts - {id};
      destroyed := destroyed + [id];
    }

    /** Queue `i` is empty, and packets have gone if their last command was in it. */
    twostate predicate IsEmptied(i: nat)
      reads this
    {
      i < |old(queues)| && queues == old(queues)[i := []] && hold == old(hold)
          && OnlyReleased(old(counts), old(destroyed))
    }

    /** Empties a queue from its head: enet_peer_reset_outgoing_commands and its like, and the
        release of unreliable commands once they are sent. */
    method ReleaseAll(i: nat)
      requires Valid() && i < |queues|
      modifies this
      ensures Valid() && IsEmptied(i)
    {
      while queues[i] != []
        invariant Valid() && i < |queues| == |old(queues)| && hold == old(hold)
        invariant queues == old(queues)[i := queues[i]] && OnlyReleased(old(counts), old(destroyed))
        decreases |queues[i]|
      {
        Release(i, 0);
      }
    }

    /** One send of a broadcast. */
    method Send(target: nat, id: int, instant: bool, sending: Sending, flush: seq<Op>)
      requires Valid() && target < |queues| && id in counts && hold == (if instant then id else NO_PACKET)
               && Shuffles(flush)
      modifies this
      ensures Valid() && hold == old(hold) && id in counts && |queues| == |old(queues)|
      ensures queues == AfterSend(old(queues), target, id, instant, sending, flush)
      ensures GoneWithLast(old(counts), old(destroyed)) && GoneApartFrom(id, old(counts), old(destroyed))
    {
      match sending
      case Refused =>
      case Fragments(n) => QueueFragments(target, id, n);
      case Whole =>
        Queue(target, id);
        if instant { Flush(flush); }
    }

    /** enet_host_broadcast to the peers whose outgoing queues are `targets`. Each send may be
        refused or fragmented; an instant packet is flushed after each whole one, which can
        release every command that holds it. The hold keeps it until the end: if it goes then, it
        is the last to go; otherwise it goes with its last command. */
    method Broadcast(targets: seq<nat>, id: int, instant: bool, sendings: seq<Sending>, flushes: seq<seq<Op>>)
      requires Valid() && hold == NO_PACKET && id in counts && forall t :: 0 <= t < |targets| ==> targets[t] < |queues|
      requires |sendings| == |flushes| == |targets| && forall t :: 0 <= t < |flushes| ==> Shuffles(flushes[t])
      modifies this
      ensures Valid() && hold == NO_PACKET && |queues| == |old(queues)|
      ensures queues == AfterSends(old(queues), targets, id, instant, sendings, flushes)
      ensures id in counts <==> Held(queues, id) > 0
      ensures id !in counts ==> destroyed != [] && destroyed[|destroyed| - 1] == id
      ensures GoneApartFrom(id, old(counts), old(destroyed))
    {
      hide Counted, GoneOnce, AfterSend, Held;
      if instant { Hold(id); }
      for t := 0 to |targets|
        invariant Valid() && |queues| == |old(queues)| && id in counts
        invariant hold == if instant then id else NO_PACKET
        invariant queues == AfterSends(old(queues), targets[..t], id, instant, sendings[..t], flushes[..t])
        invariant GoneApartFrom(id, old(counts), old(destroyed))
      {
        Send(targets[t], id, instant, sendings[t], flushes[t]);
        assert targets[..t + 1][..t] == targets[..t] && sendings[..t + 1][..t] == sendings[..t]
               && flushes[..t + 1][..t] == flushes[..t];
      }
      assert targets[..|targets|] == targets && sendings[..|targets|] == sendings && flushes[..|targets|] == flushes;
      if instant { Unhold(id); }
      CountIsHeld(queues, counts, id);
      if counts[id] == 0 {
        Dispose(id);
      }
    }

    method Hold(id: int)
      requires Valid() && hold == NO_PACKET && id in counts
      modifies `hold, `counts
      ensures Valid() && hold == id && counts == old(counts)[id := old(counts)[id] + 1]
    {
      hold := id;
      counts := counts[id := counts[id] + 1];
    }

    method Unhold(id: int)
      requires Valid() && hold == id && id in counts
      modifies `hold, `counts
      ensures Valid() && hold == NO_PACKET && id in old(counts) && id in counts
      ensures counts == old(counts)[id := counts[id]] && old(counts)[id] == counts[id] + 1
    {
      hold := NO_PACKET;
      counts := counts[id := counts[id] - 1];
    }
  }

  /** The queues after the sends in turn. */
  function AfterSends(queues: seq<seq<int>>, targets: seq<nat>, id: int, instant: bool, sendings: seq<Sending>,
                      flushes: seq<seq<Op>>): seq<seq<int>>
    requires |sendings| == |flushes| == |targets|
    decreases |targets|
  {
    if targets == [] then queues
    else
      var last := |targets| - 1;
      var before := AfterSends(queues, targets[..last], id, instant, sendings[..last], flushes[..last]);
      if targets[last] < |before| then AfterSend(before, targets[last], id, instant, sendings[last], flushes[last])
          else before
  }

  lemma NoOps(queues: seq<seq<int>>)
    ensures AfterOps(queues, []) == queues
  {
  }

  lemma OneMoreOp(queues: seq<seq<int>>, ops: seq<Op>, o: nat)
    requires o < |ops|
    ensures var before := AfterOps(queues, ops[..o]);
            AfterOps(queues, ops[..o + 1]) == if CanDo(before, ops[o]) then AfterOp(before, ops[o]) else before
  {
    assert ops[..o + 1][..o] == ops[..o];
  }

  lemma CountIsHeld(queues: seq<seq<int>>, counts: map<int, nat>, id: int)
    requires Counted(queues, counts, NO_PACKET) && id in counts
    ensures counts[id] == Held(queues, id)
  {
  }

  lemma {:induction false} NothingHeld(queues: seq<seq<int>>, id: int)
    requires forall i :: 0 <= i < |queues| ==> queues[i] == []
    ensures Held(queues, id) == 0
  {
    if queues != [] {
      NothingHeld(queues[1..], id);
    }
  }

  lemma {:induction false} Repeated(id: int, n: nat, x: int)
    ensures Times(seq(n, _ => id), x) == if x == id then n else 0
  {
    if n > 0 {
      Repeated(id, n - 1, x);
      assert seq(n, _ => id) == seq(n - 1, _ => id) + [id];
    }
  }
}
