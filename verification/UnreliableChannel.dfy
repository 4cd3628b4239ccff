/** The unreliable half of a channel, end to end: the numbers a sender gives to sequenced
    unreliable packets, a network that loses, duplicates and reorders, and the receiver that
    holds packets back until its reliable position is the one they were sent under.

    Packets may be dropped and given up at any time. Waiting unsequenced commands can mislead the
    search for an arrival's place; WellPlaced says when they do not. */
module UnreliableChannel {
  import opened Lists
  import opened Windows
  import opened UnreliableQueue

  // ---------------------------------------------------------------- the system

  /** A sequenced unreliable packet: the true reliable number it was sent under, its unreliable
      number, and its number of fragments, 0 for a whole one. */
  datatype Sent = Sent(reliable: nat, unreliable: Word16, fragments: nat)

  /** Packet `index` of the sent ones was handed over when the receiver was at `position`. */
  datatype Delivery = Delivery(index: nat, position: nat)

  /** `reliable` and `unreliable` are the sender's counters; `position` and `number` the
      receiver's. `truth` tells for each arrival by its id which sent packet it carries. */
  datatype System = System(reliable: nat, unreliable: Word16, sent: seq<Sent>,
                           position: nat, number: Word16, q: seq<Arrival>, truth: seq<nat>, delivered: seq<Delivery>)

  function Handed(items: seq<Arrival>, truth: seq<nat>, position: nat): seq<Delivery> {
    if items == [] then []
    else
      var front, x := items[..|items| - 1], items[|items| - 1];
      if x.unsequenced || x.id >= |truth| then Handed(front, truth, position)
      else Handed(front, truth, position) + [Delivery(truth[x.id], position)]
  }

  /** The dispatch pass. */
  function Passed(s: System, queued: int): System {
    var r := Dispatch(s.q, Wire(s.position), s.number, queued);
    s.(q := r.waiting, number := r.unreliable, delivered := s.delivered + Handed(r.delivered, s.truth, s.position))
  }

  /** A new command for packet `k` goes into the list at `index`, and the pass follows. */
  function Queued(s: System, index: nat, k: nat): System
    requires index <= |s.q| && k < |s.sent|
  {
    var p := s.sent[k];
    var x := Arrival(|s.truth|, false, Wire(p.reliable), p.unreliable, p.fragments);
    Passed(s.(q := Inserted(s.q, index, x), truth := s.truth + [k]), |s.truth|)
  }

  /** One more fragment of the waiting command at `index`; `seen` says it is a repetition. */
  function Filled(s: System, index: nat, seen: bool): System
    requires index < |s.q|
  {
    var x := s.q[index];
    if seen || x.remaining == 0 then s
    else
      var filled := s.(q := s.q[index := x.(remaining := x.remaining - 1)]);
      if x.remaining == 1 then Passed(filled, -1) else filled
  }

  function Find(q: seq<Arrival>, id: nat): (i: nat)
    ensures i <= |q| && (i < |q| ==> q[i].id == id)
    ensures forall j :: 0 <= j < i ==> q[j].id != id
  {
    if q == [] || q[0].id == id then 0 else 1 + Find(q[1..], id)
  }

  datatype Step =
    | SubmitReliable(commands: nat)
    | SubmitUnreliable(fragments: nat)
    | Advance(distance: nat)
    | ArrivePacket(k: nat)
    | ArriveFragment(k: nat, seen: bool)
    | ArriveUnsequenced

  /** Nothing arrives more than 36864 = 65536 - 7*4096 reliable numbers late. How early it may
      arrive is not limited: reliable commands wait to be sent, and unreliable ones pass them. */
  predicate Timely(s: System, k: nat)
    requires k < |s.sent|
  {
    s.position <= s.sent[k].reliable + 36864
  }

  /** One dispatch of reliable commands takes the position on by less than eight windows; more is
      allowed here. */
  predicate Enabled(s: System, step: Step) {
    match step
    case SubmitReliable(commands) => commands > 0
    case SubmitUnreliable(_) => true
    case Advance(distance) => 0 < distance <= 36864
    case ArrivePacket(k) => k < |s.sent| && s.sent[k].fragments == 0 && Timely(s, k)
    case ArriveFragment(k, _) => k < |s.sent| && s.sent[k].fragments > 0 && Timely(s, k)
    case ArriveUnsequenced => true
  }

  /** What the receiver does with sequenced packet `k`. */
  function Arrive(s: System, k: nat, seen: bool): System
    requires k < |s.sent|
  {
    var r, u, at := Wire(s.sent[k].reliable), s.sent[k].unreliable, Wire(s.position);
    if !Accepts(r, at) || (r == at && u <= s.number) then s
    else
      var place := Scan(s.q, at, r, u);
      if s.sent[k].fragments == 0 then
        if place.Duplicate? then s else Queued(s, place.index, k)
      else if place.Duplicate? then Filled(s, place.index, seen)
      else
        var opened' := Queued(s, place.index, k);
        var i := Find(opened'.q, |s.truth|);
        if i < |opened'.q| then Filled(opened', i, false) else opened'
  }

  /** A packet to be sent as unreliable goes reliably once the unreliable numbers are used up. */
  function After(s: System, step: Step): System
    requires Enabled(s, step)
  {
    match step
    case SubmitReliable(commands) => s.(reliable := s.reliable + commands, unreliable := 0)
    case SubmitUnreliable(fragments) =>
      if s.unreliable < 0xFFFF
      then s.(unreliable := s.unreliable + 1, sent := s.sent + [Sent(s.reliable, s.unreliable + 1, fragments)])
      else s.(reliable := s.reliable + (if fragments == 0 then 1 else fragments), unreliable := 0)
    case Advance(distance) =>
      var moved := s.(position := s.position + distance, number := 0);
      if s.q == [] then moved else Passed(moved, -1)
    case ArrivePacket(k) => Arrive(s, k, false)
    case ArriveFragment(k, seen) => Arrive(s, k, seen)
    case ArriveUnsequenced =>
      Passed(s.(q := s.q + [Arrival(|s.truth|, true, 0, 0, 0)], truth := s.truth + [0]), |s.truth|)
  }

  // ---------------------------------------------------------------- well-placed arrivals

  /** A waiting command's numbers, counted from the position, come before `r` and `u`. */
  predicate Precedes(x: Arrival, r: Word16, u: Word16, at: Word16) {
    var a, b := Ahead(x.reliable, at), Ahead(r, at);
    a < b || (a == b && x.unreliable < u)
  }

  /** The scan passes a waiting unsequenced command only if the arriving one is numbered at or
      above a position other than zero. */
  predicate PassesUnsequenced(r: Word16, at: Word16) {
    r >= at > 0
  }

  /** No sequenced command at or beyond the arriving one stands before an unsequenced one. */
  ghost predicate NoneBeyond(q: seq<Arrival>, at: Word16, r: Word16, u: Word16) {
    forall a, b :: 0 <= a < b < |q| && !q[a].unsequenced && q[b].unsequenced ==> Precedes(q[a], r, u, at)
  }

  /** Waiting unsequenced commands do not mislead the scan for the arriving packet. */
  ghost predicate WellPlaced(s: System, step: Step)
    requires Enabled(s, step)
  {
    match step
    case ArrivePacket(k) => PacketWellPlaced(s, k)
    case ArriveFragment(k, _) => PacketWellPlaced(s, k)
    case _ => true
  }

  ghost predicate PacketWellPlaced(s: System, k: nat)
    requires k < |s.sent|
  {
    var at, r := Wire(s.position), Wire(s.sent[k].reliable);
    PassesUnsequenced(r, at) || NoneBeyond(s.q, at, r, s.sent[k].unreliable)
  }

  // ---------------------------------------------------------------- packets sent in turn

  /** A packet is sent less than a whole turn of reliable numbers ahead of the receiver, which is
      for the caller to see to: neither side checks it. */
  predicate SentInTurn(s: System, step: Step) {
    step.SubmitUnreliable? && s.unreliable < 0xFFFF ==> s.reliable < s.position + MODULUS
  }

  ghost predicate InTurn(s: System) {
    forall k :: 0 <= k < |s.sent| ==> s.sent[k].reliable < s.position + MODULUS
  }

  predicate Initial(s: System) {
    s == System(0, 0, [], 0, 0, [], [], [])
  }

  ghost predicate Run(states: seq<System>, steps: seq<Step>) {
    && |states| == |steps| + 1
    && Initial(states[0])
    && forall i :: 0 <= i < |steps| ==> Enabled(states[i], steps[i]) && states[i + 1] == After(states[i], steps[i])
  }

  // ---------------------------------------------------------------- the invariant

  predicate SentBefore(a: Sent, b: Sent) {
    a.reliable < b.reliable || (a.reliable == b.reliable && a.unreliable < b.unreliable)
  }

  /** The sender's numbers ascend, and never wrap under one reliable number. */
  ghost predicate SenderOk(s: System) {
    && (forall k :: 0 <= k < |s.sent| ==>
          && s.sent[k].unreliable >= 1 && s.sent[k].reliable <= s.reliable
          && (s.sent[k].reliable == s.reliable ==> s.sent[k].unreliable <= s.unreliable))
    && forall k, l :: 0 <= k < l < |s.sent| ==> SentBefore(s.sent[k], s.sent[l])
  }

  predicate Known(s: System, x: Arrival) {
    x.id < |s.truth| && s.truth[x.id] < |s.sent|
  }

  function Origin(s: System, x: Arrival): Sent
    requires Known(s, x)
  {
    s.sent[s.truth[x.id]]
  }

  /** A waiting sequenced command, possibly overtaken by the reliable position. */
  predicate Tracked(s: System, x: Arrival) {
    && !x.unsequenced && Known(s, x)
    && x.reliable == Wire(Origin(s, x).reliable) && x.unreliable == Origin(s, x).unreliable
    && s.position <= Origin(s, x).reliable + 36864
    && Origin(s, x).reliable / WINDOW_SIZE <= s.position / WINDOW_SIZE + 6
    && (Origin(s, x).reliable == s.position ==> x.unreliable > s.number)
  }

  ghost predicate Ascending(s: System) {
    forall i, j :: 0 <= i < j < |s.q| && Tracked(s, s.q[i]) && Tracked(s, s.q[j])
        ==> s.truth[s.q[i].id] < s.truth[s.q[j].id]
  }

  /** What was handed over: in sending order, each under its own reliable number, and nothing
      beyond what the receiver's counters tell. */
  ghost predicate DeliveredOk(s: System) {
    && (forall a, b :: 0 <= a < b < |s.delivered| ==> s.delivered[a].index < s.delivered[b].index)
    && forall a :: 0 <= a < |s.delivered| ==>
         var d := s.delivered[a];
         && d.index < |s.sent| && s.sent[d.index].reliable == d.position <= s.position
         && (d.position == s.position ==> s.sent[d.index].unreliable <= s.number)
  }

  predicate Fresh(s: System, x: Arrival) {
    && Tracked(s, x) && Origin(s, x).reliable >= s.position
    && (Origin(s, x).reliable == s.position ==> x.remaining > 0)
  }

  predicate Bare(x: Arrival) { x.unsequenced && x.reliable == x.unreliable == x.remaining == 0 }

  ghost predicate Inv(s: System) {
    && SenderOk(s) && DeliveredOk(s) && Ascending(s)
    && forall i :: 0 <= i < |s.q| ==> Bare(s.q[i]) || Fresh(s, s.q[i])
  }

  // ---------------------------------------------------------------- a packet given up in a run

  predicate Steps(s: System, step: Step, s': System) { Enabled(s, step) && s' == After(s, step) }

  /** The receiver at position 0 after three packets of two fragments were sent. */
  function Assembling(q: seq<Arrival>, truth: seq<nat>): System {
    System(0, 3, [Sent(0, 1, 2), Sent(0, 2, 2), Sent(0, 3, 2)], 0, 0, q, truth, [])
  }

  /** A command that has seen one of its two fragments. */
  function Half(id: nat, unreliable: Word16): Arrival { Arrival(id, false, 0, unreliable, 1) }

  lemma FewIncompleteStay(q: seq<Arrival>, queued: int)
    requires |q| <= 2 && forall i :: 0 <= i < |q| ==> q[i].Incomplete(0)
    ensures Dispatch(q, 0, 0, queued) == Result([], q, [], 0)
  {
    hide Going, Staying, Trailing, Latest, Spared, Freed;
    StopIndexIs(q, 0, |q|);
    assert q[..|q|] == q && q[|q|..] == [];
    NothingComplete(q, 0, 0);
    if q != [] { TrailingFrom(q, 0, 0); }
    NoneSpared(queued);
    assert q[..0] == [] && q[0..] == q;
  }

  lemma NoneSpared(queued: int)
    ensures Spared([], queued) == [] && Freed([], queued) == []
  {
  }

  /** The first of three incomplete commands stays if it was queued just now. */
  lemma FirstOfThreeIsSpared(a: Arrival, b: Arrival, c: Arrival)
    requires a.Incomplete(0) && b.Incomplete(0) && c.Incomplete(0)
    ensures Dispatch([a, b, c], 0, 0, a.id).waiting == [a, b, c] && Dispatch([a, b, c], 0, 0, a.id).delivered == []
    ensures Dispatch([a, b, c], 0, 0, a.id).unreliable == 0
  {
    hide Going, Staying, Trailing, Latest, StopIndex, Dispatch, Freed, Spared;
    var q := [a, b, c];
    assert forall i :: 0 <= i < 3 ==> q[i].Incomplete(0);
    StopIndexIs(q, 0, 3);
    assert q[..3] == q && q[..1] == [a] && q[1..] == [b, c] && [a] + [b, c] == q;
    TrailingFrom(q, 0, 0);
    DispatchCuts(q, 0, 0, a.id);
    NothingComplete(q, 0, 0);
    NothingComplete([a], 0, 0);
    assert Spared([a], a.id) == [a] by { SpareSingle(a); }
    LatestReached(q, 0, 0, a.id);
  }

  lemma SpareSingle(a: Arrival)
    ensures Spared([a], a.id) == [a]
  {
    assert [a][..0] == [];
  }

  ghost predicate Opens(q: seq<Arrival>, truth: seq<nat>, k: nat, place: nat, waiting: seq<Arrival>) {
    && k < 3 && place <= |q|
    && var r := Dispatch(Inserted(q, place, Arrival(|truth|, false, 0, (k + 1) as Word16, 2)), 0, 0, |truth|);
       r.delivered == [] && r.waiting == waiting && r.unreliable == 0
  }

  lemma OpensFull(q: seq<Arrival>, truth: seq<nat>, k: nat, place: nat, waiting: seq<Arrival>)
    requires Opens(q, truth, k, place, waiting)
    ensures Queued(Assembling(q, truth), place, k) == Assembling(waiting, truth + [k])
  {
    hide Dispatch, Inserted;
    assert Handed([], truth + [k], 0) == [] && Assembling(q, truth).delivered + [] == [];
  }

  lemma FillsHalf(waiting: seq<Arrival>, truth: seq<nat>, i: nat, id: nat, u: Word16)
    requires i < |waiting| && waiting[i] == Arrival(id, false, 0, u, 2)
    ensures Filled(Assembling(waiting, truth), i, false) == Assembling(waiting[i := Half(id, u)], truth)
  {
  }

  /** The new command for a fragment goes in at `place`, where the pass leaves `waiting` with it
      at `i`; then the fragment is filled in. */
  lemma OpensHalf(q: seq<Arrival>, truth: seq<nat>, k: nat, place: nat, waiting: seq<Arrival>, i: nat)
    requires Opens(q, truth, k, place, waiting) && Scan(q, 0, 0, (k + 1) as Word16) == Slot(place)
    requires i < |waiting| && waiting[i] == Arrival(|truth|, false, 0, (k + 1) as Word16, 2)
    requires forall j :: 0 <= j < i ==> waiting[j].id != |truth|
    ensures Steps(Assembling(q, truth), ArriveFragment(k, false),
            Assembling(waiting[i := Half(|truth|, (k + 1) as Word16)], truth + [k]))
  {
    hide Dispatch, Scan, Queued, Filled, Half;
    OpensFull(q, truth, k, place, waiting);
    FillsHalf(waiting, truth + [k], i, |truth|, (k + 1) as Word16);
    assert Accepts(0, 0);
  }

  lemma FirstHalf()
    ensures Steps(Assembling([], []), ArriveFragment(0, false), Assembling([Half(0, 1)], [0]))
  {
    var a := Arrival(0, false, 0, 1, 2);
    assert Scan([], 0, 0, 1) == Slot(0) && Inserted([], 0, a) == [a];
    FewIncompleteStay([a], 0);
    hide Dispatch, Scan, Inserted, Steps, Assembling;
    OpensHalf([], [], 0, 0, [a], 0);
    assert [a][0 := Half(0, 1)] == [Half(0, 1)] && [] + [0] == [0];
  }

  lemma SecondHalf()
    ensures Steps(Assembling([Half(0, 1)], [0]), ArriveFragment(1, false), Assembling([Half(0, 1), Half(1, 2)], [0, 1]))
  {
    var q, b := [Half(0, 1)], Arrival(1, false, 0, 2, 2);
    assert Scan(q, 0, 0, 2) == Slot(1) && Inserted(q, 1, b) == [Half(0, 1), b];
    FewIncompleteStay([Half(0, 1), b], 1);
    hide Dispatch, Scan, Inserted, Steps, Assembling;
    OpensHalf(q, [0], 1, 1, [Half(0, 1), b], 1);
    assert [Half(0, 1), b][1 := Half(1, 2)] == [Half(0, 1), Half(1, 2)] && [0] + [1] == [0, 1];
  }

  lemma ThirdHalf()
    ensures Steps(Assembling([Half(0, 1), Half(1, 2)], [0, 1]), ArriveFragment(2, false),
            Assembling([Half(1, 2), Half(2, 3)], [0, 1, 2]))
  {
    var q, c := [Half(0, 1), Half(1, 2)], Arrival(2, false, 0, 3, 2);
    assert Scan(q, 0, 0, 3) == Slot(2) by { hide Inserted; }
    assert Inserted(q, 2, c) == [Half(0, 1), Half(1, 2), c] by { hide Scan; }
    hide Scan, Inserted;
    FirstOfThreeIsLost(Half(0, 1), Half(1, 2), c, 0);
    hide Dispatch, Steps, Assembling;
    OpensHalf(q, [0, 1], 2, 2, [Half(1, 2), c], 1);
    assert [Half(1, 2), c][1 := Half(2, 3)] == [Half(1, 2), Half(2, 3)] && [0, 1] + [2] == [0, 1, 2];
  }

  lemma ScanPastTwo()
    ensures Scan([Half(1, 2), Half(2, 3)], 0, 0, 1) == Slot(0)
  {
    assert [Half(1, 2), Half(2, 3)][..1] == [Half(1, 2)] && [Half(1, 2)][..0] == [];
    assert Scan([Half(1, 2)], 0, 0, 1) == Slot(0);
  }

  lemma OtherHalf()
    ensures Steps(Assembling([Half(1, 2), Half(2, 3)], [0, 1, 2]), ArriveFragment(0, false),
                  Assembling([Half(3, 1), Half(1, 2), Half(2, 3)], [0, 1, 2, 0]))
  {
    var q, a := [Half(1, 2), Half(2, 3)], Arrival(3, false, 0, 1, 2);
    ScanPastTwo();
    assert Inserted(q, 0, a) == [a, Half(1, 2), Half(2, 3)];
    FirstOfThreeIsSpared(a, Half(1, 2), Half(2, 3));
    hide Dispatch, Scan, Inserted, Steps, Assembling;
    OpensHalf(q, [0, 1, 2], 0, 0, [a, Half(1, 2), Half(2, 3)], 0);
    assert [a, Half(1, 2), Half(2, 3)][0 := Half(3, 1)] == [Half(3, 1), Half(1, 2), Half(2, 3)];
    assert [0, 1, 2] + [0] == [0, 1, 2, 0];
  }

  lemma ThreeAreSent() returns (s0: System, s1: System, s2: System)
    ensures Initial(s0) && Steps(s0, SubmitUnreliable(2), s1) && Steps(s1, SubmitUnreliable(2), s2)
    ensures Steps(s2, SubmitUnreliable(2), Assembling([], []))
  {
    s0, s1 := System(0, 0, [], 0, 0, [], [], []), System(0, 1, [Sent(0, 1, 2)], 0, 0, [], [], []);
    s2 := System(0, 2, [Sent(0, 1, 2), Sent(0, 2, 2)], 0, 0, [], [], []);
  }

  lemma AssemblingHas(q: seq<Arrival>, truth: seq<nat>)
    ensures Assembling(q, truth).q == q && Assembling(q, truth).delivered == [] && Assembling(q, truth).number == 0
  {
  }

  lemma SevenSteps(states: seq<System>, steps: seq<Step>)
    requires |states| == 8 && |steps| == 7 && Initial(states[0])
    requires Steps(states[0], steps[0], states[1]) && Steps(states[1], steps[1], states[2])
             && Steps(states[2], steps[2], states[3])
    requires Steps(states[3], steps[3], states[4]) && Steps(states[4], steps[4], states[5])
             && Steps(states[5], steps[5], states[6])
    requires Steps(states[6], steps[6], states[7])
    ensures Run(states, steps)
  {
    hide Initial, After, Enabled;
  }

  /** A run in which a fragmented packet is lost though nothing overtakes it and nothing is lost
      by the network: three packets of two fragments are sent, the first fragments of all three
      arrive, and then the second one of the first packet. By then the first packet was given
      up, and the receiver starts it anew, with one fragment missing for good. */
  lemma FirstOfThreeIsLostInRun() returns (states: seq<System>, steps: seq<Step>)
    ensures Run(states, steps) && |steps| == 7
    ensures steps[3..] == [ArriveFragment(0, false), ArriveFragment(1, false), ArriveFragment(2, false),
            ArriveFragment(0, false)]
    ensures states[5].q == [Half(0, 1), Half(1, 2)] && states[6].q == [Half(1, 2), Half(2, 3)]
    ensures states[7].q == [Half(3, 1), Half(1, 2), Half(2, 3)] && states[7].delivered == [] && states[7].number == 0
  {
    hide Initial, Steps, Assembling, Run, Half;
    FirstHalf();
    SecondHalf();
    ThirdHalf();
    OtherHalf();
    var s0, s1, s2 := ThreeAreSent();
    var s3, s4, s5 := Assembling([], []), Assembling([Half(0, 1)], [0]), Assembling([Half(0, 1), Half(1, 2)], [0, 1]);
    var s6 := Assembling([Half(1, 2), Half(2, 3)], [0, 1, 2]);
    var s7 := Assembling([Half(3, 1), Half(1, 2), Half(2, 3)], [0, 1, 2, 0]);
    AssemblingHas([Half(0, 1), Half(1, 2)], [0, 1]);
    AssemblingHas([Half(1, 2), Half(2, 3)], [0, 1, 2]);
    AssemblingHas([Half(3, 1), Half(1, 2), Half(2, 3)], [0, 1, 2, 0]);
    var sent, rest := [SubmitUnreliable(2), SubmitUnreliable(2), SubmitUnreliable(2)],
                      [ArriveFragment(0, false), ArriveFragment(1, false), ArriveFragment(2, false),
                          ArriveFragment(0, false)];
    states, steps := [s0, s1, s2, s3, s4, s5, s6, s7], sent + rest;
    SevenSteps(states, steps);
  }
}
