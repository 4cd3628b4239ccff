/** The states of a host's peers, and the books the host keeps about them: how many are
    connected, how many of those have a bandwidth limit, and which wait in its dispatch queue. */
module PeerStates {
  import opened Commands
  import opened Lists
  import opened States

  /** Where an acknowledged command is found, if at all. */
  datatype Found = Nowhere | InFlight | Waiting

  /** `outgoing` counts the commands in both outgoing queues, `sent` those in flight, and
      `dispatched` the packets that wait for the application. */
  datatype Peer = Peer(state: State, incomingBandwidth: nat, needsDispatch: bool, dispatched: nat, outgoing: nat,
      sent: nat)
  {
    predicate IsConnected() { state == Connected || state == DisconnectLater }

    predicate HasOutgoing() { outgoing > 0 || sent > 0 }

    /** What a command found there leaves. */
    predicate Has(found: Found) { (found == InFlight ==> sent > 0) && (found == Waiting ==> outgoing > 0) }

    function Settled(found: Found): Peer
      requires Has(found)
    {
      match found
      case Nowhere => this
      case InFlight => this.(sent := sent - 1)
      case Waiting => this.(outgoing := outgoing - 1)
    }

    predicate IsGone() {
      state == Disconnecting || state == Disconnected || state == AcknowledgingDisconnect || state == Zombie
    }
  }

  /** What resetting its queues, or all of it, leaves of a peer. */
  function Emptied(p: Peer): Peer { p.(needsDispatch := false, dispatched := 0, outgoing := 0, sent := 0) }

  function Blank(p: Peer): Peer { Emptied(p).(state := Disconnected, incomingBandwidth := 0) }

  function CountConnected(s: seq<Peer>): nat {
    if s == [] then 0 else (if s[0].IsConnected() then 1 else 0) + CountConnected(s[1..])
  }

  function CountLimited(s: seq<Peer>): nat {
    if s == [] then 0 else (if s[0].IsConnected() && s[0].incomingBandwidth != 0 then 1 else 0) + CountLimited(s[1..])
  }

  lemma {:induction false} CountsUpdate(s: seq<Peer>, i: nat, p: Peer)
    requires i < |s|
    ensures CountConnected(s[i := p]) + (if s[i].IsConnected() then 1 else 0)
            == CountConnected(s) + (if p.IsConnected() then 1 else 0)
    ensures CountLimited(s[i := p]) + (if s[i].IsConnected() && s[i].incomingBandwidth != 0 then 1 else 0)
            == CountLimited(s) + (if p.IsConnected() && p.incomingBandwidth != 0 then 1 else 0)
  {
    if i > 0 {
      CountsUpdate(s[1..], i - 1, p);
      assert s[i := p][1..] == s[1..][i - 1 := p];
    } else {
      assert s[0 := p][1..] == s[1..];
    }
  }

  function Without(q: seq<nat>, i: nat): seq<nat> {
    if q == [] then [] else if q[0] == i then q[1..] else [q[0]] + Without(q[1..], i)
  }

  lemma {:induction false} WithoutIs(q: seq<nat>, i: nat)
    requires Distinct(q)
    ensures Distinct(Without(q, i)) && forall j :: j in Without(q, i) <==> j in q && j != i
  {
    if q != [] {
      var first, tail := q[0], q[1..];
      assert q == [first] + tail;
      assert Distinct(tail) && first !in tail by {
        assert forall a :: 0 <= a < |tail| ==> tail[a] == q[a + 1];
      }
      WithoutIs(tail, i);
      DistinctMore(first, Without(tail, i));
    }
  }

  lemma DistinctMore(first: nat, rest: seq<nat>)
    requires Distinct(rest)
    ensures first !in rest ==> Distinct([first] + rest)
  {
    if first !in rest {
      forall a, b | 0 <= a < b < |[first] + rest|
        ensures ([first] + rest)[a] != ([first] + rest)[b]
      {
        assert ([first] + rest)[b] == rest[b - 1];
        if a > 0 { assert ([first] + rest)[a] == rest[a - 1]; }
      }
    }
  }

  datatype Event = NoEvent | ConnectEvent(peer: nat) | DisconnectEvent(peer: nat) | ReceiveEvent(peer: nat)

  class Host {
    var peers: seq<Peer>
    var connectedPeers: nat
    var bandwidthLimitedPeers: nat
    var dispatchQueue: seq<nat>

    constructor (count: nat)
      ensures Valid() && |peers| == count && dispatchQueue == []
      ensures forall i :: 0 <= i < count ==> peers[i] == Peer(Disconnected, 0, false, 0, 0, 0)
    {
      peers := seq(count, _ => Peer(Disconnected, 0, false, 0, 0, 0));
      connectedPeers, bandwidthLimitedPeers, dispatchQueue := 0, 0, [];
      new;
      NoneConnected(peers);
      assert Queued(peers, []);
    }

    /** The books are right: both counts are those of the peers, and a peer is in the dispatch
        queue exactly once if it is marked, and not at all otherwise. */
    ghost predicate Valid()
      reads this
    {
      && connectedPeers == CountConnected(peers) && bandwidthLimitedPeers == CountLimited(peers)
      && Queued(peers, dispatchQueue)
    }

    /** Only peer `i` has changed, to `p`. */
    twostate predicate Becomes(i: nat, p: Peer)
      reads this
    {
      i < |old(peers)| && peers == old(peers)[i := p]
    }

    twostate predicate Stays()
      reads this
    {
      dispatchQueue == old(dispatchQueue)
    }

    /** It is put at the end of the dispatch queue, unless it is in it. */
    twostate predicate Joins(i: nat)
      reads this
    {
      i < |old(peers)| && dispatchQueue == if old(peers[i]).needsDispatch then old(dispatchQueue)
          else old(dispatchQueue) + [i]
    }

    twostate predicate Leaves(i: nat)
      reads this
    {
      dispatchQueue == Without(old(dispatchQueue), i)
    }

    /** enet_protocol_change_state with enet_peer_on_connect and enet_peer_on_disconnect. */
    method ChangeState(i: nat, state: State)
      requires Valid() && i < |peers|
      modifies this
      ensures Valid() && Becomes(i, old(peers[i]).(state := state)) && dispatchQueue == old(dispatchQueue)
    {
      var p := peers[i];
      CountsUpdate(peers, i, p.(state := state));
      if state == Connected || state == DisconnectLater {
        if !p.IsConnected() {
          if p.incomingBandwidth != 0 { bandwidthLimitedPeers := bandwidthLimitedPeers + 1; }
          connectedPeers := connectedPeers + 1;
        }
      } else if p.IsConnected() {
        if p.incomingBandwidth != 0 { bandwidthLimitedPeers := bandwidthLimitedPeers - 1; }
        connectedPeers := connectedPeers - 1;
      }
      peers := peers[i := p.(state := state)];
      QueuedSame(old(peers), peers, dispatchQueue);
    }

    /** Puts a peer into the dispatch queue, once. */
    method Note(i: nat)
      requires Valid() && i < |peers|
      modifies this
      ensures Valid() && Becomes(i, old(peers[i]).(needsDispatch := true)) && Joins(i)
    {
      if !peers[i].needsDispatch {
        CountsUpdate(peers, i, peers[i].(needsDispatch := true));
        QueuedMore(peers, dispatchQueue, i);
        dispatchQueue := dispatchQueue + [i];
        peers := peers[i := peers[i].(needsDispatch := true)];
      }
    }

    method DispatchState(i: nat, state: State)
      requires Valid() && i < |peers|
      modifies this
      ensures Valid() && Becomes(i, old(peers[i]).(state := state, needsDispatch := true)) && Joins(i)
    {
      ChangeState(i, state);
      Note(i);
    }

    method ResetQueues(i: nat)
      requires Valid() && i < |peers|
      modifies this
      ensures Valid() && Becomes(i, Emptied(old(peers[i]))) && dispatchQueue == Without(old(dispatchQueue), i)
    {
      CountsUpdate(peers, i, Emptied(peers[i]));
      QueuedLess(peers, dispatchQueue, i);
      if peers[i].needsDispatch {
        dispatchQueue := Without(dispatchQueue, i);
      }
      peers := peers[i := Emptied(peers[i])];
    }

    /** enet_peer_reset. */
    method Reset(i: nat)
      requires Valid() && i < |peers|
      modifies this
      ensures Valid() && Becomes(i, Blank(old(peers[i]))) && dispatchQueue == Without(old(dispatchQueue), i)
    {
      ChangeState(i, Disconnected);
      SetBandwidth(i, 0);
      ResetQueues(i);
    }

    /** A field that counts for nothing while the peer is not connected. */
    method SetBandwidth(i: nat, bandwidth: nat)
      requires Valid() && i < |peers| && !peers[i].IsConnected()
      modifies this
      ensures Valid() && Becomes(i, old(peers[i]).(incomingBandwidth := bandwidth))
              && dispatchQueue == old(dispatchQueue)
    {
      CountsUpdate(peers, i, peers[i].(incomingBandwidth := bandwidth));
      peers := peers[i := peers[i].(incomingBandwidth := bandwidth)];
      QueuedSame(old(peers), peers, dispatchQueue);
    }

    method QueueOutgoing(i: nat)
      requires Valid() && i < |peers|
      modifies this
      ensures Valid() && Becomes(i, old(peers[i]).(outgoing := old(peers[i]).outgoing + 1))
              && dispatchQueue == old(dispatchQueue)
    {
      CountsUpdate(peers, i, peers[i].(outgoing := peers[i].outgoing + 1));
      peers := peers[i := peers[i].(outgoing := peers[i].outgoing + 1)];
      QueuedSame(old(peers), peers, dispatchQueue);
    }

    // -------------------------------------------------------------- what the application asks for

    /** enet_host_connect, for the first free peer: its number, or |peers|. */
    method Connect() returns (i: nat)
      requires Valid()
      modifies this
      ensures Valid() && i <= |peers| == |old(peers)| && forall j :: 0 <= j < i ==> old(peers[j]).state != Disconnected
      ensures if i == |peers| then peers == old(peers)
              else old(peers[i]).state == Disconnected
                   && Becomes(i, old(peers[i]).(state := Connecting, outgoing := old(peers[i]).outgoing + 1))
      ensures Stays()
    {
      i := FirstFree();
      if i < |peers| {
        ChangeState(i, Connecting);
        QueueOutgoing(i);
      }
    }

    method FirstFree() returns (i: nat)
      ensures i <= |peers| && (i < |peers| ==> peers[i].state == Disconnected)
      ensures forall j :: 0 <= j < i ==> peers[j].state != Disconnected
    {
      i := 0;
      while i < |peers| && peers[i].state != Disconnected
        invariant i <= |peers| && forall j :: 0 <= j < i ==> peers[j].state != Disconnected
      {
        i := i + 1;
      }
    }

    /** enet_peer_disconnect; what the flush in it sends is left out. */
    method Disconnect(i: nat)
      requires Valid() && i < |peers|
      modifies this
      ensures Valid()
      ensures Becomes(i, var p := old(peers[i]);
                         if p.IsGone() then p
                         else if p.IsConnected() then Emptied(p).(state := Disconnecting, outgoing := 1)
                         else Blank(p))
      ensures if old(peers[i]).IsGone() then Stays() else Leaves(i)
    {
      if peers[i].IsGone() { return; }
      LeftOnce(peers, dispatchQueue, i);
      ResetQueues(i);
      QueueOutgoing(i);
      if peers[i].IsConnected() {
        ChangeState(i, Disconnecting);
      } else {
        Reset(i);
      }
    }

    method DisconnectNow(i: nat)
      requires Valid() && i < |peers|
      modifies this
      ensures Valid() && Becomes(i, if old(peers[i]).state == Disconnected then old(peers[i]) else Blank(old(peers[i])))
      ensures if old(peers[i]).state == Disconnected then Stays() else Leaves(i)
    {
      if peers[i].state == Disconnected { return; }
      LeftOnce(peers, dispatchQueue, i);
      if peers[i].state != Zombie && peers[i].state != Disconnecting {
        ResetQueues(i);
        QueueOutgoing(i);
      }
      Reset(i);
    }

    method DisconnectWhenSent(i: nat)
      requires Valid() && i < |peers|
      modifies this
      ensures Valid()
      ensures var p := old(peers[i]);
              if p.IsConnected() && p.HasOutgoing() then Becomes(i, p.(state := DisconnectLater)) && Stays()
              else if p.IsConnected() then Becomes(i, Emptied(p).(state := Disconnecting, outgoing := 1)) && Leaves(i)
              else if p.IsGone() then Becomes(i, p) && Stays()
              else Becomes(i, Blank(p)) && Leaves(i)
    {
      if peers[i].IsConnected() && peers[i].HasOutgoing() {
        ChangeState(i, DisconnectLater);
      } else {
        Disconnect(i);
      }
    }

    /** What the sending loop, the release of unreliable commands and the handling of an
        acknowledgement do at their end: a peer that waits to disconnect starts to, on its own,
        only once nothing is queued or in flight. */
    method EndWait(i: nat, unreliableWaiting: bool)
      requires Valid() && i < |peers|
      modifies this
      ensures Valid()
      ensures var p := old(peers[i]);
              if p.state == DisconnectLater && p.outgoing == 0 && p.sent == 0 && !unreliableWaiting
              then Becomes(i, Emptied(p).(state := Disconnecting, outgoing := 1)) && Leaves(i)
              else Becomes(i, p) && Stays()
    {
      if peers[i].state == DisconnectLater && !peers[i].HasOutgoing() && !unreliableWaiting {
        Disconnect(i);
      } else {
        assert peers == peers[i := peers[i]];
      }
    }

    // -------------------------------------------------------------- what arrives

    /** enet_protocol_notify_connect. */
    method NotifyConnect(i: nat, event: bool)
      requires Valid() && i < |peers|
      modifies this
      ensures Valid()
      ensures var p := old(peers[i]);
              Becomes(i, if event then p.(state := Connected)
                         else p.(state := if p.state == Connecting then ConnectionSucceeded
                             else ConnectionPending, needsDispatch := true))
      ensures if event then Stays() else Joins(i)
    {
      if event {
        ChangeState(i, Connected);
      } else {
        DispatchState(i, if peers[i].state == Connecting then ConnectionSucceeded else ConnectionPending);
      }
    }

    /** enet_protocol_notify_disconnect, and the same after a timeout. */
    method NotifyDisconnect(i: nat, event: bool)
      requires Valid() && i < |peers|
      modifies this
      ensures Valid()
      ensures var p := old(peers[i]);
              Becomes(i, if p.state.Lost(event) == Disconnected then Blank(p)
                  else p.(state := Zombie, needsDispatch := true))
      ensures if old(peers[i]).state.Lost(event) == Disconnected then Leaves(i) else Joins(i)
    {
      var state := peers[i].state;
      if state == Disconnected || state == AcknowledgingConnect || state == ConnectionPending {
        Reset(i);
      } else if event {
        Reset(i);
      } else {
        DispatchState(i, Zombie);
      }
    }

    /** enet_protocol_handle_connect, for the first free peer. */
    method HandleConnect(bandwidth: nat) returns (i: nat)
      requires Valid()
      modifies this
      ensures Valid() && i <= |peers| == |old(peers)| && Stays()
      ensures forall j :: 0 <= j < i ==> old(peers[j]).state != Disconnected
      ensures i == |peers| ==> peers == old(peers)
      ensures i < |peers| ==> old(peers[i]).state == Disconnected
      ensures i < |peers|
              ==> Becomes(i, old(peers[i]).(state := AcknowledgingConnect, incomingBandwidth := bandwidth,
                                            outgoing := old(peers[i]).outgoing + 1))
    {
      i := FirstFree();
      if i < |peers| {
        ChangeState(i, AcknowledgingConnect);
        SetBandwidth(i, bandwidth);
        QueueOutgoing(i);
      }
    }

    /** enet_protocol_handle_verify_connect; `agrees` says that the parameters are those asked for. */
    method HandleVerifyConnect(i: nat, agrees: bool, bandwidth: nat, event: bool)
      requires Valid() && i < |peers|
      modifies this
      ensures Valid()
      ensures var p := old(peers[i]);
              Becomes(i, if p.state != Connecting then p
                         else if !agrees then p.(state := Zombie, needsDispatch := true)
                         else if event then p.(state := Connected, incomingBandwidth := bandwidth)
                         else p.(state := ConnectionSucceeded, incomingBandwidth := bandwidth, needsDispatch := true))
      ensures if old(peers[i]).state == Connecting && (!agrees || !event) then Joins(i) else Stays()
    {
      if peers[i].state != Connecting { return; }
      if !agrees {
        DispatchState(i, Zombie);
        return;
      }
      SetBandwidth(i, bandwidth);
      NotifyConnect(i, event);
    }

    /** enet_protocol_handle_disconnect; `wanted` says that it is to be acknowledged. */
    method HandleDisconnect(i: nat, wanted: bool)
      requires Valid() && i < |peers|
      modifies this
      ensures Valid()
      ensures var p := old(peers[i]);
              Becomes(i, match p.state
                         case Disconnected => p
                         case Zombie => p
                         case AcknowledgingDisconnect => p
                         case AcknowledgingConnect => Blank(p)
                         case ConnectionPending => Blank(p)
                         case Connected => if wanted then Emptied(p).(state := AcknowledgingDisconnect)
                                           else Emptied(p).(state := Zombie, needsDispatch := true)
                         case DisconnectLater => if wanted then Emptied(p).(state := AcknowledgingDisconnect)
                                                 else Emptied(p).(state := Zombie, needsDispatch := true)
                         case _ => Emptied(p).(state := Zombie, needsDispatch := true))
      ensures var before, after := old(peers[i]).state, peers[i].state;
              if before == Disconnected || before == Zombie || before == AcknowledgingDisconnect then Stays()
              else if after == Zombie then dispatchQueue == Without(old(dispatchQueue), i) + [i]
              else Leaves(i)
    {
      var state := peers[i].state;
      if state == Disconnected || state == Zombie || state == AcknowledgingDisconnect { return; }
      LeftOnce(peers, dispatchQueue, i);
      ResetQueues(i);
      if state == ConnectionSucceeded || state == Disconnecting || state == Connecting {
        DispatchState(i, Zombie);
      } else if state != Connected && state != DisconnectLater {
        Reset(i);
      } else if wanted {
        ChangeState(i, AcknowledgingDisconnect);
      } else {
        DispatchState(i, Zombie);
      }
    }

    /** enet_protocol_handle_acknowledge, for a command of kind `kind` found where `found` says: it is
        taken out, and it may be what the peer's state waits for. `accepted` is false where the
        program reports an error. */
    method HandleAcknowledge(i: nat, found: Found, kind: nat, event: bool) returns (accepted: bool)
      requires Valid() && i < |peers| && peers[i].Has(found)
      modifies this
      ensures Valid()
      ensures var p := old(peers[i]);
              var q := p.Settled(found);
              if p.state == Disconnected || p.state == Zombie then accepted && Becomes(i, p) && Stays()
              else if p.state == AcknowledgingConnect then
                && (accepted <==> found != Nowhere && kind == VERIFY_CONNECT)
                && (if !accepted then Becomes(i, q) && Stays()
                    else if event then Becomes(i, q.(state := Connected)) && Stays()
                    else Becomes(i, q.(state := ConnectionPending, needsDispatch := true)) && Joins(i))
              else if p.state == Disconnecting then
                && (accepted <==> found != Nowhere && kind == DISCONNECT)
                && (if !accepted then Becomes(i, q) && Stays()
                    else if event then Becomes(i, Blank(q)) && Leaves(i)
                    else Becomes(i, q.(state := Zombie, needsDispatch := true)) && Joins(i))
              else if p.state == DisconnectLater && !q.HasOutgoing() then
                accepted && Becomes(i, Emptied(q).(state := Disconnecting, outgoing := 1)) && Leaves(i)
              else accepted && Becomes(i, q) && Stays()
    {
      accepted := true;
      if peers[i].state == Disconnected || peers[i].state == Zombie {
        assert peers == peers[i := peers[i]];
        return;
      }
      Settle(i, found);
      match peers[i].state {
        case AcknowledgingConnect =>
          if found == Nowhere || kind != VERIFY_CONNECT { return false; }
          NotifyConnect(i, event);
        case Disconnecting =>
          if found == Nowhere || kind != DISCONNECT { return false; }
          NotifyDisconnect(i, event);
        case DisconnectLater => EndWait(i, false);
        case _ =>
      }
    }

    method Settle(i: nat, found: Found)
      requires Valid() && i < |peers| && peers[i].Has(found)
      modifies this
      ensures Valid() && Becomes(i, old(peers[i]).Settled(found)) && dispatchQueue == old(dispatchQueue)
    {
      CountsUpdate(peers, i, peers[i].Settled(found));
      peers := peers[i := peers[i].Settled(found)];
      QueuedSame(old(peers), peers, dispatchQueue);
    }

    /** enet_protocol_handle_bandwidth_limit. */
    method HandleBandwidthLimit(i: nat, bandwidth: nat)
      requires Valid() && i < |peers|
      modifies this
      ensures Valid()
      ensures Becomes(i, if old(peers[i]).IsConnected() then old(peers[i]).(incomingBandwidth := bandwidth)
              else old(peers[i])) && Stays()
    {
      var p := peers[i];
      if !p.IsConnected() { return; }
      CountsUpdate(peers, i, p.(incomingBandwidth := bandwidth));
      CountsUpdate(peers, i, p.(incomingBandwidth := 0));
      if p.incomingBandwidth != 0 { bandwidthLimitedPeers := bandwidthLimitedPeers - 1; }
      peers := peers[i := p.(incomingBandwidth := bandwidth)];
      if bandwidth != 0 { bandwidthLimitedPeers := bandwidthLimitedPeers + 1; }
      QueuedSame(old(peers), peers, dispatchQueue);
    }

    /** Packets become ready for the application. */
    method Deliver(i: nat, packets: nat)
      requires Valid() && i < |peers|
      modifies this
      ensures Valid() && Becomes(i, old(peers[i]).(dispatched := old(peers[i]).dispatched + packets,
              needsDispatch := true)) && Joins(i)
    {
      CountsUpdate(peers, i, peers[i].(dispatched := peers[i].dispatched + packets));
      peers := peers[i := peers[i].(dispatched := peers[i].dispatched + packets)];
      QueuedSame(old(peers), peers, dispatchQueue);
      Note(i);
    }

    // -------------------------------------------------------------- what the application hears

    method TakeFirst() returns (i: nat)
      requires Valid() && dispatchQueue != []
      modifies this
      ensures Valid() && i < |old(peers)| && i == old(dispatchQueue[0])
      ensures Becomes(i, old(peers[i]).(needsDispatch := false))
              && dispatchQueue == old(dispatchQueue)[1..]
    {
      i := dispatchQueue[0];
      assert i in dispatchQueue;
      CountsUpdate(peers, i, peers[i].(needsDispatch := false));
      QueuedFirst(peers, dispatchQueue);
      dispatchQueue := dispatchQueue[1..];
      peers := peers[i := peers[i].(needsDispatch := false)];
    }

    /** What a peer just taken off the queue has to report, if anything. */
    method Report(i: nat) returns (event: Event)
      requires Valid() && i < |peers| && !peers[i].needsDispatch
      modifies this
      ensures Valid()
      ensures var p := old(peers[i]);
              if Reports(p) then event == EventOf(p, i) && Becomes(i, Reported(p))
              else event == NoEvent && Becomes(i, p)
      ensures dispatchQueue == old(dispatchQueue) + if peers[i].needsDispatch then [i] else []
    {
      match peers[i].state {
        case ConnectionPending =>
          ChangeState(i, Connected);
          return ConnectEvent(i);
        case ConnectionSucceeded =>
          ChangeState(i, Connected);
          return ConnectEvent(i);
        case Zombie =>
          assert i !in dispatchQueue;
          WithoutNone(dispatchQueue, i);
          Reset(i);
          return DisconnectEvent(i);
        case Connected =>
          if peers[i].dispatched > 0 {
            Receive(i);
            return ReceiveEvent(i);
          }
        case _ =>
      }
      assert peers == peers[i := peers[i]];
      return NoEvent;
    }

    /** enet_protocol_dispatch_incoming_commands. The first peer of the queue that has something to
        report does so, at place `k`; those before it just leave the queue. A peer with more packets
        goes back to the end of it. */
    method DispatchIncoming() returns (event: Event, ghost k: nat)
      requires Valid()
      modifies this
      ensures Valid() && k <= |old(dispatchQueue)|
      ensures Heard(old(peers), old(dispatchQueue), k, event, peers, dispatchQueue)
    {
      hide Queued, Heard, PassedOver, Reports, Reported, EventOf, CountConnected, CountLimited;
      ghost var before, q := peers, dispatchQueue;
      k := 0;
      PassedNone(before, q);
      InQueue(before, q);
      while dispatchQueue != []
        invariant Valid() && k <= |q| && dispatchQueue == q[k..] && |peers| == |before|
                  && PassedOver(before, peers, q[..k])
        invariant forall j :: 0 <= j < k ==> !Reports(before[q[j]])
        decreases |dispatchQueue|
      {
        ghost var mid := peers;
        assert dispatchQueue[0] == q[k] && dispatchQueue[1..] == q[k + 1..];
        var i := TakeFirst();
        ghost var p := peers[i];
        event := Report(i);
        assert mid[i := p][i := peers[i]] == mid[i := peers[i]];
        NextIsHeard(before, q, k, mid, event, peers, dispatchQueue);
        if event != NoEvent { return; }
        k := k + 1;
      }
      event := NoEvent;
      assert q[..k] == q;
      NoneIsHeard(before, q, peers);
    }

    /** enet_peer_receive, called by the application: the next packet, if any. The peer stays in the
        dispatch queue, or out of it. */
    method ReceivePacket(i: nat) returns (received: bool)
      requires Valid() && i < |peers|
      modifies this
      ensures Valid() && dispatchQueue == old(dispatchQueue) && received == (old(peers[i]).dispatched > 0)
      ensures Becomes(i, if received then old(peers[i]).(dispatched := old(peers[i]).dispatched - 1) else old(peers[i]))
    {
      received := peers[i].dispatched > 0;
      if received {
        CountsUpdate(peers, i, peers[i].(dispatched := peers[i].dispatched - 1));
        peers := peers[i := peers[i].(dispatched := peers[i].dispatched - 1)];
        QueuedSame(old(peers), peers, dispatchQueue);
      } else {
        assert peers == peers[i := peers[i]];
      }
    }

    /** enet_peer_receive for a peer just taken off the queue. */
    method Receive(i: nat)
      requires Valid() && i < |peers| && peers[i].dispatched > 0 && !peers[i].needsDispatch
      modifies this
      ensures Valid() && Becomes(i, old(peers[i]).(dispatched := old(peers[i]).dispatched - 1,
              needsDispatch := old(peers[i]).dispatched > 1))
      ensures dispatchQueue == if old(peers[i]).dispatched > 1 then old(dispatchQueue) + [i] else old(dispatchQueue)
    {
      var p := peers[i].(dispatched := peers[i].dispatched - 1);
      CountsUpdate(peers, i, p);
      peers := peers[i := p];
      QueuedSame(old(peers), peers, dispatchQueue);
      if p.dispatched > 0 { Note(i); }
    }
  }

  /** What the application is to hear of a peer in the dispatch queue, if anything. */
  predicate Reports(p: Peer) {
    p.state in {ConnectionPending, ConnectionSucceeded, Zombie} || (p.state == Connected && p.dispatched > 0)
  }

  function EventOf(p: Peer, i: nat): Event {
    if p.state == Zombie then DisconnectEvent(i) else if p.state == Connected then ReceiveEvent(i) else ConnectEvent(i)
  }

  /** The peer afterwards: connected, gone, or with one packet fewer. */
  function Reported(p: Peer): Peer
    requires Reports(p)
  {
    if p.state == Zombie then Blank(p)
    else if p.state == Connected then p.(dispatched := p.dispatched - 1, needsDispatch := p.dispatched > 1)
    else p.(state := Connected, needsDispatch := false)
  }

  /** The marks of those in `gone` are taken off. */
  predicate PassedOver(before: seq<Peer>, after: seq<Peer>, gone: seq<nat>) {
    |after| == |before| && forall i :: 0 <= i < |before| ==>
        after[i] == if i in gone then before[i].(needsDispatch := false) else before[i]
  }

  /** What the application hears of queue `q`, and what is left: an event for the peer at place `k`, the
      first that has something to report; or, if that is no place, none. */
  ghost predicate Heard(before: seq<Peer>, q: seq<nat>, k: nat, event: Event, after: seq<Peer>, left: seq<nat>) {
    && k <= |q| && |after| == |before| && (forall j :: 0 <= j < |q| ==> q[j] < |before|)
    && (forall j :: 0 <= j < k ==> !Reports(before[q[j]]))
    && if k == |q| then event == NoEvent && PassedOver(before, after, q) && left == []
       else && Reports(before[q[k]]) && event == EventOf(before[q[k]], q[k])
            && after[q[k]] == Reported(before[q[k]])
            && (forall i: nat :: i < |before| && i != q[k]
                  ==> after[i] == if i in q[..k] then before[i].(needsDispatch := false) else before[i])
            && left == q[k + 1..] + if after[q[k]].needsDispatch then [q[k]] else []
  }

  lemma InQueue(peers: seq<Peer>, q: seq<nat>)
    requires Queued(peers, q)
    ensures forall j :: 0 <= j < |q| ==> q[j] < |peers|
  {
    assert forall j :: 0 <= j < |q| ==> q[j] in q;
  }

  lemma PassedNone(before: seq<Peer>, q: seq<nat>)
    ensures PassedOver(before, before, q[..0])
  {
  }

  lemma NoneIsHeard(before: seq<Peer>, q: seq<nat>, after: seq<Peer>)
    requires Queued(before, q) && PassedOver(before, after, q) && forall j :: 0 <= j < |q| ==> q[j] < |before|
    requires forall j :: 0 <= j < |q| ==> !Reports(before[q[j]])
    ensures Heard(before, q, |q|, NoEvent, after, [])
  {
    hide Reports;
  }

  lemma NextIsHeard(before: seq<Peer>, q: seq<nat>, k: nat, mid: seq<Peer>, event: Event, after: seq<Peer>,
                    left: seq<nat>)
    requires Queued(before, q) && k < |q| && q[k] < |before| == |mid| && PassedOver(before, mid, q[..k])
    requires forall j :: 0 <= j < k ==> q[j] < |before| && !Reports(before[q[j]])
    requires var p := mid[q[k]].(needsDispatch := false);
             if Reports(p) then event == EventOf(p, q[k]) && after == mid[q[k] := Reported(p)]
             else event == NoEvent && after == mid[q[k] := p]
    requires left == q[k + 1..] + if after[q[k]].needsDispatch then [q[k]] else []
    ensures if event != NoEvent then Heard(before, q, k, event, after, left)
            else !Reports(before[q[k]]) && PassedOver(before, after, q[..k + 1]) && left == q[k + 1..]
  {
    InQueue(before, q);
    assert q[k] !in q[..k] && q[..k + 1] == q[..k] + [q[k]];
  }

  ghost predicate Queued(peers: seq<Peer>, q: seq<nat>) {
    Distinct(q) && forall i: nat :: i in q <==> i < |peers| && peers[i].needsDispatch
  }

  lemma QueuedSame(before: seq<Peer>, after: seq<Peer>, q: seq<nat>)
    requires Queued(before, q) && |after| == |before|
    requires forall i :: 0 <= i < |before| ==> after[i].needsDispatch == before[i].needsDispatch
    ensures Queued(after, q)
  {
  }

  lemma QueuedMore(peers: seq<Peer>, q: seq<nat>, i: nat)
    requires Queued(peers, q) && i < |peers| && !peers[i].needsDispatch
    ensures Queued(peers[i := peers[i].(needsDispatch := true)], q + [i])
  {
  }

  lemma QueuedLess(peers: seq<Peer>, q: seq<nat>, i: nat)
    requires Queued(peers, q) && i < |peers|
    ensures Queued(peers[i := Emptied(peers[i])], Without(q, i))
    ensures !peers[i].needsDispatch ==> Without(q, i) == q
  {
    WithoutIs(q, i);
    if !peers[i].needsDispatch { WithoutNone(q, i); }
  }

  lemma LeftOnce(peers: seq<Peer>, q: seq<nat>, i: nat)
    requires Queued(peers, q)
    ensures Without(Without(q, i), i) == Without(q, i)
  {
    WithoutIs(q, i);
    WithoutNone(Without(q, i), i);
  }

  lemma {:induction false} WithoutNone(q: seq<nat>, i: nat)
    requires i !in q
    ensures Without(q, i) == q
  {
    if q != [] {
      WithoutNone(q[1..], i);
    }
  }

  lemma QueuedFirst(peers: seq<Peer>, q: seq<nat>)
    requires Queued(peers, q) && q != []
    ensures q[0] < |peers| && Queued(peers[q[0] := peers[q[0]].(needsDispatch := false)], q[1..])
  {
    assert q[0] in q;
    var rest := q[1..];
    assert q == [q[0]] + rest;
    assert forall a :: 0 <= a < |rest| ==> rest[a] == q[a + 1];
    assert q[0] !in rest;
    assert forall i: nat :: i in q <==> i == q[0] || i in rest;
  }

  lemma {:induction false} NoneConnected(s: seq<Peer>)
    requires forall i :: 0 <= i < |s| ==> s[i].state == Disconnected
    ensures CountConnected(s) == 0 && CountLimited(s) == 0
  {
    if s != [] {
      NoneConnected(s[1..]);
    }
  }
}
