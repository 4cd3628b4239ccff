/** Unsequenced packets: each group is taken at most once, by a window of 1024 bits that moves
    on over the 16-bit group numbers. */
module Unsequenced {
  import opened Windows

  const SIZE: nat := 1024

  /** 32 windows ahead of the current one a group counts as too old. */
  const REACH: nat := 32 * SIZE

  datatype Window = Window(base: Word16, bits: seq<bool>)

  function Clear(): (r: seq<bool>)
    ensures |r| == SIZE
  {
    seq(SIZE, _ => false)
  }

  datatype Verdict = Verdict(window: Window, queued: bool)

  /** enet_protocol_handle_send_unsequenced on a packet of group `group`; `room` says whether
      the packet can be queued. */
  function Handle(w: Window, group: Word16, room: bool): Verdict
    requires |w.bits| == SIZE
  {
    var index := group % SIZE;
    var ahead := if group < w.base then group + MODULUS else group;
    if ahead >= w.base + REACH then Verdict(w, false)
    else if group - index != w.base then
      var moved := Window(group - index, Clear());
      if room then Verdict(moved.(bits := moved.bits[index := true]), true) else Verdict(moved, false)
    else if w.bits[index] || !room then Verdict(w, false)
    else Verdict(w.(bits := w.bits[index := true]), true)
  }

  // ---------------------------------------------------------------- in true group numbers

  /** The window starts at true number `base`; bit `i` tells whether group `base + i` was taken,
      and nothing beyond the window was. */
  ghost predicate Tracks(w: Window, base: nat, taken: set<nat>) {
    && |w.bits| == SIZE && w.base == Wire(base) && base % SIZE == 0
    && (forall i :: 0 <= i < SIZE ==> (w.bits[i] <==> base + i in taken))
    && forall g :: g in taken ==> g < base + SIZE
  }

  /** No packet is more than 32768 groups behind the window, nor 65536 ahead of it. */
  predicate Recent(base: nat, group: nat) {
    base <= group + REACH && group < base + MODULUS
  }

  /** Where the window stands after a packet of true group `group`. */
  function BaseAfter(base: nat, group: nat): nat {
    if base <= group < base + REACH then group - group % SIZE else base
  }

  lemma BlockStart(group: nat)
    ensures Wire(group) % SIZE == group % SIZE
    ensures Wire(group - group % SIZE) == Wire(group) - group % SIZE
  {
    var q, r := group / SIZE, group % SIZE;
    var turn, block := q / 64, q % 64;
    assert group == turn * MODULUS + (block * SIZE + r);
    assert Wire(group) == block * SIZE + r;
    assert group - r == turn * MODULUS + block * SIZE;
  }

  /** The handler measures the distance to the window rightly. */
  lemma Distance(base: nat, group: nat)
    requires Recent(base, group) && base % SIZE == 0
    ensures var ahead := if Wire(group) < Wire(base) then Wire(group) + MODULUS else Wire(group);
            ahead >= Wire(base) + REACH <==> !(base <= group < base + REACH)
    ensures base <= group < base + REACH ==> (Wire(group) - group % SIZE == Wire(base) <==> group < base + SIZE)
  {
    if base <= group {
      AheadIsDistance(group, base);
      if group < base + REACH { SameWindow(base, group); }
    } else {
      BehindIsComplement(group, base);
    }
  }

  lemma SameWindow(base: nat, group: nat)
    requires base % SIZE == 0 && base <= group < base + REACH
    ensures Wire(group) - group % SIZE == Wire(base) <==> group < base + SIZE
  {
    BlockStart(group);
    if group < base + SIZE {
      SameBlock(base, group);
    } else if Wire(group - group % SIZE) == Wire(base) {
      LaterBlock(base, group);
      NoAlias(group - group % SIZE, base);
    }
  }

  /** One packet: it is queued exactly if there is room, it was not taken before, and it is not
      behind the window or too far ahead; and the window still tells what was taken. */
  lemma HandleTracks(w: Window, base: nat, taken: set<nat>, group: nat, room: bool)
    requires Tracks(w, base, taken) && Recent(base, group)
    ensures var v := Handle(w, Wire(group), room);
            && (v.queued <==> room && group !in taken && base <= group < base + REACH)
            && Tracks(v.window, BaseAfter(base, group), if v.queued then taken + {group} else taken)
  {
    Distance(base, group);
    BlockStart(group);
    var v, base' := Handle(w, Wire(group), room), BaseAfter(base, group);
    if base <= group < base + SIZE {
      assert group == base + group % SIZE by { SameBlock(base, group); }
    } else if base + SIZE <= group < base + REACH {
      LaterBlock(base, group);
    }
  }

  lemma SameBlock(base: nat, group: nat)
    requires base % SIZE == 0 && base <= group < base + SIZE
    ensures group % SIZE == group - base
  {
    assert group == base / SIZE * SIZE + (group - base);
  }

  lemma LaterBlock(base: nat, group: nat)
    requires base % SIZE == 0 && base + SIZE <= group
    ensures base + SIZE <= group - group % SIZE && (group - group % SIZE) % SIZE == 0
  {
    assert base == base / SIZE * SIZE && group - group % SIZE == group / SIZE * SIZE;
    assert group / SIZE >= base / SIZE + 1;
  }

  // ---------------------------------------------------------------- over a run

  /** A packet arrives: its true group, and whether there is room. */
  datatype Arrival = Arrival(group: nat, room: bool)

  function Run(w: Window, arrivals: seq<Arrival>): (r: Window)
    requires |w.bits| == SIZE
    ensures |r.bits| == SIZE
  {
    if arrivals == [] then w
    else Handle(Run(w, arrivals[..|arrivals| - 1]), Wire(arrivals[|arrivals| - 1].group),
        arrivals[|arrivals| - 1].room).window
  }

  function Base(arrivals: seq<Arrival>): nat {
    if arrivals == [] then 0 else BaseAfter(Base(arrivals[..|arrivals| - 1]), arrivals[|arrivals| - 1].group)
  }

  /** Was the packet that arrived as number `i` queued? */
  predicate Queued(arrivals: seq<Arrival>, i: nat)
    requires i < |arrivals|
  {
    Handle(Run(Window(0, Clear()), arrivals[..i]), Wire(arrivals[i].group), arrivals[i].room).queued
  }

  ghost predicate AllRecent(arrivals: seq<Arrival>) {
    forall i :: 0 <= i < |arrivals| ==> Recent(Base(arrivals[..i]), arrivals[i].group)
  }

  ghost function Taken(arrivals: seq<Arrival>): (r: set<nat>)
    ensures forall g :: g in r <==> exists i :: 0 <= i < |arrivals| && Queued(arrivals, i) && arrivals[i].group == g
  {
    set i | 0 <= i < |arrivals| && Queued(arrivals, i) :: arrivals[i].group
  }

  lemma QueuedBefore(arrivals: seq<Arrival>, n: nat, i: nat)
    requires i < n <= |arrivals|
    ensures arrivals[..n][i] == arrivals[i] && Queued(arrivals[..n], i) == Queued(arrivals, i)
  {
    assert arrivals[..n][..i] == arrivals[..i];
  }

  lemma TakenGrows(arrivals: seq<Arrival>)
    requires arrivals != []
    ensures var n := |arrivals| - 1;
            Taken(arrivals) == Taken(arrivals[..n]) + if Queued(arrivals, n) then {arrivals[n].group} else {}
  {
    hide Queued, Taken;
    var n := |arrivals| - 1;
    var before := arrivals[..n];
    forall i | 0 <= i < n
      ensures before[i] == arrivals[i] && Queued(before, i) == Queued(arrivals, i)
    {
      QueuedBefore(arrivals, n, i);
    }
    forall g
      ensures g in Taken(arrivals) <==> g in Taken(before) || (Queued(arrivals, n) && g == arrivals[n].group)
    {
      if g in Taken(before) {
        var i :| 0 <= i < |before| && Queued(before, i) && before[i].group == g;
        assert Queued(arrivals, i);
      }
      if g in Taken(arrivals) {
        var i :| 0 <= i < |arrivals| && Queued(arrivals, i) && arrivals[i].group == g;
        assert i < n ==> Queued(before, i);
      }
    }
  }

  lemma {:induction false} RunTracks(arrivals: seq<Arrival>)
    requires AllRecent(arrivals)
    ensures Tracks(Run(Window(0, Clear()), arrivals), Base(arrivals), Taken(arrivals))
  {
    if arrivals != [] {
      var n := |arrivals| - 1;
      forall i | 0 <= i < n
        ensures Recent(Base(arrivals[..n][..i]), arrivals[..n][i].group)
      {
        assert arrivals[..n][..i] == arrivals[..i];
      }
      RunTracks(arrivals[..n]);
      TakenGrows(arrivals);
      HandleTracks(Run(Window(0, Clear()), arrivals[..n]), Base(arrivals[..n]), Taken(arrivals[..n]),
          arrivals[n].group, arrivals[n].room);
    }
  }

  /** Over any run of recent packets, however repeated and reordered, no group is queued twice. */
  lemma QueuedAtMostOnce(arrivals: seq<Arrival>, i: nat, j: nat)
    requires AllRecent(arrivals) && i < j < |arrivals|
    requires Queued(arrivals, i) && Queued(arrivals, j)
    ensures arrivals[i].group != arrivals[j].group
  {
    var before := arrivals[..j];
    forall k | 0 <= k < j
      ensures Recent(Base(before[..k]), before[k].group)
    {
      assert before[..k] == arrivals[..k];
    }
    RunTracks(before);
    HandleTracks(Run(Window(0, Clear()), before), Base(before), Taken(before), arrivals[j].group, arrivals[j].room);
    assert before[..i] == arrivals[..i];
    assert Queued(before, i) && before[i].group == arrivals[i].group;
  }

  // ---------------------------------------------------------------- in place

  class Receiver {
    var base: Word16
    const bits: array<bool>

    constructor ()
      ensures Valid() && State() == Window(0, Clear())
    {
      base := 0;
      bits := new bool[SIZE](_ => false);
      new;
      assert bits[..] == Clear();
    }

    ghost predicate Valid() { bits.Length == SIZE }

    ghost function State(): (w: Window)
      requires Valid()
      reads this, bits
      ensures |w.bits| == SIZE
    {
      Window(base, bits[..])
    }

    method Receive(group: Word16, room: bool) returns (queued: bool)
      requires Valid()
      modifies this`base, bits
      ensures State() == Handle(old(State()), group, room).window && queued == Handle(old(State()), group, room).queued
    {
      var index := group % SIZE;
      var ahead := if group < base then group + MODULUS else group;
      if ahead >= base + REACH { return false; }
      if group - index != base {
        base := group - index;
        for i := 0 to SIZE
          invariant forall j :: 0 <= j < i ==> !bits[j]
          modifies bits
        {
          bits[i] := false;
        }
        assert bits[..] == Clear();
      } else if bits[index] {
        return false;
      }
      if !room { return false; }
      bits[index] := true;
      return true;
    }
  }
}
