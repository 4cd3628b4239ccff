/** The imperative receiver of one channel, proved to compute what ReliableReceiver specifies. */
module ReceivingChannel {
  import opened Lists
  import opened Windows
  import opened R = ReliableReceiver

  class Channel {
    /** incomingReliableSequenceNumber, incomingReliableCommands, and the packets of this channel
        that went to dispatchedCommands. */
    var position: Word16
    var waiting: seq<InCommand>
    var delivered: seq<seq<Byte>>

    constructor ()
      ensures State() == Receiver(0, [], [])
    {
      position, waiting, delivered := 0, [], [];
    }

    function State(): Receiver
      reads this
    {
      Receiver(position, waiting, delivered)
    }

    /** The search for the place of `q`, from the tail of the list. */
    method FindPlace(q: Word16) returns (place: Place)
      ensures place == Scan(waiting, position, q)
    {
      var current := |waiting|;
      assert waiting[..current] == waiting;
      while current > 0
        invariant 0 <= current <= |waiting|
        invariant Scan(waiting, position, q) == Scan(waiting[..current], position, q)
      {
        assert waiting[..current][..current - 1] == waiting[..current - 1];
        var other := waiting[current - 1].stored;
        if q >= position {
          if other < position {
            current := current - 1;
            continue;
          }
        } else if other >= position {
          break;
        }
        if other <= q {
          if other < q {
            break;
          }
          return Duplicate(current - 1);
        }
        current := current - 1;
      }
      place := Slot(current);
    }

    /** The first part of enet_peer_dispatch_incoming_reliable_commands walks over the ready run,
        advancing the position; the second moves the run to the dispatched list. */
    method DispatchReady()
      modifies this
      ensures State() == Dispatch(old(State()))
    {
      var current := 0;
      var moved: seq<seq<Byte>> := [];
      assert waiting[0..] == waiting && delivered + moved == delivered;
      while current < |waiting|
        invariant 0 <= current <= |waiting| == |old(waiting)|
        invariant waiting == old(waiting) && delivered == old(delivered)
        invariant Dispatch(old(State())) == Dispatch(Receiver(position, waiting[current..], delivered + moved))
      {
        var x := waiting[current];
        if x.remaining > 0 || x.stored != (position + 1) % MODULUS {
          break;
        }
        position := x.stored;
        if x.fragmentCount > 0 {
          position := (position + x.fragmentCount - 1) % MODULUS;
        }
        assert waiting[current..][1..] == waiting[current + 1..];
        assert delivered + (moved + [x.data]) == (delivered + moved) + [x.data];
        moved := moved + [x.data];
        current := current + 1;
      }
      delivered := delivered + moved;
      waiting := waiting[current..];
    }

    /** enet_protocol_handle_send_reliable with the reliable half of
        enet_peer_queue_incoming_command. */
    method HandleSendReliable(q: Word16, data: seq<Byte>, maximum: nat, full: bool) returns (ok: bool)
      modifies this
      ensures ok == ReceivePacket(old(State()), q, data, maximum, full).Taken?
      ensures State() == if ok then ReceivePacket(old(State()), q, data, maximum, full).rx else old(State())
    {
      if |data| > maximum {
        return false;
      }
      if !Accepts(q, position) || q == position {
        return true;
      }
      var place := FindPlace(q);
      if place.Duplicate? {
        return true;
      }
      if full {
        return false;
      }
      waiting := Inserted(waiting, place.index, InCommand(q, 0, 0, [], data));
      DispatchReady();
      ok := true;
    }

    /** Marks one fragment, copies its bytes, and dispatches when it was the last one missing. */
    method Fill(index: nat, f: Fragment, maximum: nat)
      requires f.Sound(maximum) && index < |waiting| && BelongsTo(f, waiting[index])
      modifies this
      ensures State() == FillAt(old(State()), index, f, maximum)
    {
      var x := waiting[index];
      if x.marks[f.number] || x.remaining == 0 {
        return;
      }
      waiting := waiting[index := Filled(x, f, maximum)];
      if waiting[index].remaining == 0 {
        DispatchReady();
      }
    }

    /** enet_protocol_handle_send_fragment. */
    method HandleSendFragment(f: Fragment, maximum: nat, full: bool) returns (ok: bool)
      modifies this
      ensures ok == ReceiveFragment(old(State()), f, maximum, full).Taken?
      ensures State() == if ok then ReceiveFragment(old(State()), f, maximum, full).rx else old(State())
    {
      if |f.data| == 0 || |f.data| > maximum {
        return false;
      }
      if !Accepts(f.start, position) {
        return true;
      }
      if !f.Sound(maximum) {
        return false;
      }
      var place := FindPlace(f.start);
      if place.Duplicate? {
        if !BelongsTo(f, waiting[place.index]) {
          return false;
        }
        Fill(place.index, f, maximum);
        return true;
      }
      if f.start == position || full {
        return false;
      }
      waiting := Inserted(waiting, place.index,
          InCommand(f.start, f.count, f.count, Unmarked(f.count), Blank(f.total)));
      var before := |waiting|;
      ghost var longer := State();
      DispatchStops(longer, place.index);
      DispatchReady();
      var moved := before - |waiting|;
      assert waiting[place.index - moved] == longer.waiting[place.index];
      Fill(place.index - moved, f, maximum);
      ok := true;
    }
  }
}
