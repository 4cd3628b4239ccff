/** The receiving half of one reliable channel: where an arriving command goes in the sorted
    waiting list, what is dispatched to the application, and what is acknowledged.

    Nothing here knows a true sequence number: like the program, these functions only see
    16-bit fields. They are the specification of class Channel of module ReceivingChannel. */
module ReliableReceiver {
  import opened Lists
  import opened Windows

  type Byte = b: int | 0 <= b < 256

  /** A command that waits. `fragmentCount` is 0 for a whole packet; for a fragmented one
      `marks` is the bitmap of the fragments seen. */
  datatype InCommand = InCommand(stored: Word16, fragmentCount: nat, remaining: nat, marks: seq<bool>, data: seq<Byte>)

  datatype Receiver = Receiver(position: Word16, waiting: seq<InCommand>, delivered: seq<seq<Byte>>)

  /** Taken: handled, the packet is stored or already known. Refused: the handler reports an
      error, so no acknowledgement is queued. */
  datatype Outcome = Taken(rx: Receiver) | Refused

  // ---------------------------------------------------------------- waiting list

  /** Walks the list from its tail; both 16-bit numbers are compared as the program does,
      around the current position. */
  function Scan(waiting: seq<InCommand>, position: Word16, q: Word16): (p: Place)
    ensures p.Slot? ==> p.index <= |waiting|
    ensures p.Duplicate? ==> p.index < |waiting| && waiting[p.index].stored == q
  {
    if waiting == [] then Slot(0)
    else
      var front, other := waiting[..|waiting| - 1], waiting[|waiting| - 1].stored;
      if q >= position && other < position then Scan(front, position, q)
      else if q < position && other >= position then Slot(|waiting|)
      else if other < q then Slot(|waiting|)
      else if other == q then Duplicate(|waiting| - 1)
      else Scan(front, position, q)
  }

  predicate Ready(x: InCommand, position: Word16) {
    x.remaining == 0 && x.stored == (position + 1) % MODULUS
  }

  function Past(x: InCommand): Word16 {
    (x.stored + (if x.fragmentCount > 0 then x.fragmentCount - 1 else 0)) % MODULUS
  }

  /** Moves the ready run at the head of the list to the application. */
  function Dispatch(rx: Receiver): (r: Receiver)
    ensures |r.waiting| <= |rx.waiting|
    decreases |rx.waiting|
  {
    if rx.waiting == [] || !Ready(rx.waiting[0], rx.position) then rx
    else Dispatch(Receiver(Past(rx.waiting[0]), rx.waiting[1..], rx.delivered + [rx.waiting[0].data]))
  }

  function Blank(length: nat): (r: seq<Byte>)
    ensures |r| == length
  {
    seq(length, _ => 0)
  }

  function Unmarked(count: nat): (r: seq<bool>)
    ensures |r| == count
  {
    seq(count, _ => false)
  }

  // ---------------------------------------------------------------- whole packets

  /** A whole reliable packet numbered `q` arrives; `full` says that too much data waits. */
  function ReceivePacket(rx: Receiver, q: Word16, data: seq<Byte>, maximum: nat, full: bool): Outcome {
    if |data| > maximum then Refused
    else if !Accepts(q, rx.position) || q == rx.position then Taken(rx)
    else
      var place := Scan(rx.waiting, rx.position, q);
      if place.Duplicate? then Taken(rx)
      else if full then Refused
      else Taken(Dispatch(rx.(waiting := Inserted(rx.waiting, place.index, InCommand(q, 0, 0, [], data)))))
  }

  // ---------------------------------------------------------------- fragments

  /** The fields of a fragment command. */
  datatype Fragment = Fragment(start: Word16, count: nat, number: nat, total: nat, offset: nat, data: seq<Byte>)
  {
    predicate Sound(maximum: nat) {
      && count <= 1024 * 1024 && number < count
      && total <= maximum && total >= count
      && offset < total && |data| <= total - offset
    }
  }

  predicate BelongsTo(f: Fragment, x: InCommand) {
    && x.fragmentCount > 0 && x.fragmentCount == f.count && |x.data| == f.total
    && |x.marks| == x.fragmentCount
  }

  function Overwrite(data: seq<Byte>, offset: nat, piece: seq<Byte>): (r: seq<Byte>)
    requires offset + |piece| <= |data|
    ensures |r| == |data|
  {
    data[..offset] + piece + data[offset + |piece|..]
  }

  /** Marks fragment `f` in the command it belongs to and copies its bytes. */
  function Filled(x: InCommand, f: Fragment, maximum: nat): InCommand
    requires f.Sound(maximum) && BelongsTo(f, x) && x.remaining > 0
  {
    x.(remaining := x.remaining - 1, marks := x.marks[f.number := true], data := Overwrite(x.data, f.offset, f.data))
  }

  function FillAt(rx: Receiver, index: nat, f: Fragment, maximum: nat): Receiver
    requires f.Sound(maximum) && index < |rx.waiting| && BelongsTo(f, rx.waiting[index])
  {
    var x := rx.waiting[index];
    if x.marks[f.number] || x.remaining == 0 then rx
    else
      var filled := rx.(waiting := rx.waiting[index := Filled(x, f, maximum)]);
      if x.remaining == 1 then Dispatch(filled) else filled
  }

  /** The list with room made at `index` for the packet `f` belongs to, nothing of it seen yet. */
  function Opened(rx: Receiver, index: nat, f: Fragment): (r: Receiver)
    requires index <= |rx.waiting|
    ensures |r.waiting| == |rx.waiting| + 1
  {
    var empty := InCommand(f.start, f.count, f.count, Unmarked(f.count), Blank(f.total));
    rx.(waiting := Inserted(rx.waiting, index, empty))
  }

  /** Queues the new packet, which dispatches what is ready, and then fills the fragment in. */
  function OpenAndFill(rx: Receiver, index: nat, f: Fragment, maximum: nat): Receiver
    requires f.Sound(maximum) && index <= |rx.waiting|
  {
    var longer := Opened(rx, index, f);
    var dispatched := Dispatch(longer);
    var moved := |longer.waiting| - |dispatched.waiting|;
    assert moved <= index && dispatched.waiting == longer.waiting[moved..] by {
      DispatchStops(longer, index);
    }
    FillAt(dispatched, index - moved, f, maximum)
  }

  /** A fragment arrives. The packet it belongs to is found, or made, by its start number. */
  function ReceiveFragment(rx: Receiver, f: Fragment, maximum: nat, full: bool): Outcome {
    if |f.data| == 0 || |f.data| > maximum then Refused
    else if !Accepts(f.start, rx.position) then Taken(rx)
    else if !f.Sound(maximum) then Refused
    else
      var place := Scan(rx.waiting, rx.position, f.start);
      if place.Duplicate? then
        if BelongsTo(f, rx.waiting[place.index]) then Taken(FillAt(rx, place.index, f, maximum)) else Refused
      else if f.start == rx.position || full then Refused
      else Taken(OpenAndFill(rx, place.index, f, maximum))
  }

  /** Dispatching takes a run off the head and never reaches past an incomplete command. */
  lemma {:induction false} DispatchStops(rx: Receiver, index: nat)
    requires index < |rx.waiting| && rx.waiting[index].remaining > 0
    ensures |rx.waiting| - |Dispatch(rx).waiting| <= index
    ensures Dispatch(rx).waiting == rx.waiting[|rx.waiting| - |Dispatch(rx).waiting|..]
    decreases index
  {
    if Ready(rx.waiting[0], rx.position) {
      DispatchStops(Receiver(Past(rx.waiting[0]), rx.waiting[1..], rx.delivered + [rx.waiting[0].data]), index - 1);
    }
  }
}
