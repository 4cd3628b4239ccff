/** The unreliable dispatch pass, done in place on the channel's list of waiting commands and
    the peer's list of dispatched ones, with its three iterators. */
module UnreliableDispatch {
  import opened Lists
  import opened Windows
  import opened IntrusiveList
  import opened UnreliableQueue

  type Command = Node<Arrival>

  function Values(nodes: seq<Command>): (r: seq<Arrival>)
    ensures |r| == |nodes|
    ensures forall i :: 0 <= i < |r| ==> r[i] == nodes[i].data
  {
    seq(|nodes|, i requires 0 <= i < |nodes| => nodes[i].data)
  }

  function IdOf(command: Node?<Arrival>): int {
    if command == null then -1 else command.data.id
  }

  /** Where the pass over `q` stands before command `i`: the commands before `p` are sorted
      into `kept` and `gone`, those from `p` to `i` form the run still to be moved. */
  ghost predicate Sorting(q: seq<Command>, p: nat, i: nat, kept: seq<Command>, gone: seq<Command>, position: Word16) {
    && p <= i <= |q|
    && Values(kept) == Staying(Values(q[..p]), position)
    && Values(gone) == Going(Values(q[..p]), position)
    && multiset(kept) + multiset(gone) == multiset(q[..p])
    && (forall n :: n in kept + gone ==> n in q)
    && forall m :: p <= m < i ==> q[m].data.Goes(position)
  }

  lemma Snoc(q: seq<Command>, i: nat)
    requires i < |q|
    ensures q[..i + 1] == q[..i] + [q[i]]
    ensures Values(q[..i + 1]) == Values(q[..i]) + [q[i].data]
    ensures Values(q[..i + 1])[..i] == Values(q[..i])
  {
  }

  /** A command that goes, met with no run pending. */
  lemma GoSorts(q: seq<Command>, i: nat, kept: seq<Command>, gone: seq<Command>, position: Word16)
    requires Sorting(q, i, i, kept, gone, position) && i < |q| && q[i].data.Goes(position)
    ensures Sorting(q, i + 1, i + 1, kept, gone + [q[i]], position)
    ensures Given(Values(q[..i + 1]), position) == |kept|
  {
    Snoc(q, i);
    assert Values(gone + [q[i]]) == Values(gone) + [q[i].data];
  }

  lemma ShorterRun(q: seq<Command>, p: nat, i: nat, kept: seq<Command>, gone: seq<Command>, position: Word16)
    requires Sorting(q, p, i, kept, gone, position) && p < i
    ensures i <= |q| && q[i - 1].data.Goes(position) && Sorting(q, p, i - 1, kept, gone, position)
    ensures gone + q[p..i] == (gone + q[p..i - 1]) + [q[i - 1]]
  {
  }

  lemma EmptyRun(q: seq<Command>, p: nat, kept: seq<Command>, gone: seq<Command>, position: Word16)
    requires Sorting(q, p, p, kept, gone, position)
    ensures p <= |q| && gone + q[p..p] == gone
  {
  }

  /** Moving the pending run over to the dispatched ones. */
  lemma {:induction false} FlushSorts(q: seq<Command>, p: nat, i: nat, kept: seq<Command>, gone: seq<Command>,
                                      position: Word16)
    requires p <= i <= |q| && Sorting(q, p, i, kept, gone, position)
    ensures Sorting(q, i, i, kept, gone + q[p..i], position)
    ensures p < i ==> Given(Values(q[..i]), position) == |kept|
    decreases i - p
  {
    hide Staying, Going, Given, Values, Sorting;
    if p == i {
      EmptyRun(q, p, kept, gone, position);
    } else {
      ShorterRun(q, p, i, kept, gone, position);
      FlushSorts(q, p, i - 1, kept, gone, position);
      GoSorts(q, i - 1, kept, gone + q[p..i - 1], position);
    }
  }

  lemma CutRun(q: seq<Command>, p: nat, i: nat, kept: seq<Command>)
    requires p <= i <= |q|
    ensures CutOut(kept + q[p..], |kept|, |kept| + i - p) == kept + q[i..]
    ensures (kept + q[p..])[|kept|..|kept| + i - p] == q[p..i]
  {
  }

  /** A command that stays, met with no run pending. */
  lemma StaySorts(q: seq<Command>, i: nat, kept: seq<Command>, gone: seq<Command>, position: Word16)
    requires Sorting(q, i, i, kept, gone, position) && i < |q| && !q[i].data.Goes(position)
    ensures Sorting(q, i + 1, i + 1, kept + [q[i]], gone, position)
  {
    Snoc(q, i);
    assert Values(kept + [q[i]]) == Values(kept) + [q[i].data];
  }

  ghost function Linkable(a: seq<Command>, b: seq<Command>): set<object> {
    (set n | n in a) + (set n | n in b)
  }

  lemma MovedFootprint(a: seq<Command>, b: seq<Command>, lo: nat, hi: nat)
    requires lo <= hi <= |a|
    ensures Linkable(CutOut(a, lo, hi), b + a[lo..hi]) == Linkable(a, b)
  {
    forall n | n in a
      ensures n in CutOut(a, lo, hi) || n in a[lo..hi]
    {
      var i :| 0 <= i < |a| && a[i] == n;
      if i < lo {
        assert CutOut(a, lo, hi)[i] == n;
      } else if i >= hi {
        assert CutOut(a, lo, hi)[i - (hi - lo)] == n;
      } else {
        assert a[lo..hi][i - lo] == n;
      }
    }
  }

  /** Where the removal stands before command `i` of `q`. */
  ghost predicate Sparing(q: seq<Command>, i: nat, kept: seq<Command>, gone: seq<Command>, queued: int) {
    && i <= |q|
    && Values(kept) == Spared(Values(q[..i]), queued)
    && Values(gone) == Freed(Values(q[..i]), queued)
    && multiset(kept) + multiset(gone) == multiset(q[..i])
    && (forall n :: n in kept + gone ==> n in q)
  }

  lemma SpareStep(q: seq<Command>, i: nat, kept: seq<Command>, gone: seq<Command>, queued: int)
    requires Sparing(q, i, kept, gone, queued) && i < |q|
    ensures if q[i].data.id == queued then Sparing(q, i + 1, kept + [q[i]], gone, queued)
            else Sparing(q, i + 1, kept, gone + [q[i]], queued)
  {
    Snoc(q, i);
    assert Values(kept + [q[i]]) == Values(kept) + [q[i].data];
    assert Values(gone + [q[i]]) == Values(gone) + [q[i].data];
  }

  lemma CutSubset(a: seq<Command>, lo: nat, hi: nat)
    requires lo <= hi <= |a|
    ensures (set n | n in CutOut(a, lo, hi)) <= (set n | n in a)
  {
  }

  /** No two allocations share an id. */
  ghost predicate Identified(q: seq<Command>, queued: Node?<Arrival>) {
    forall n :: n in q && n.data.id == IdOf(queued) ==> n == queued
  }

  lemma KnownById(q: seq<Command>, i: nat, queued: Node?<Arrival>)
    requires Identified(q, queued) && i < |q|
    ensures q[i] == queued <==> q[i].data.id == IdOf(queued)
  {
  }

  lemma CutOne(kept: seq<Command>, q: seq<Command>, i: nat)
    requires i < |q|
    ensures CutOut(kept + q[i..], |kept|, |kept| + 1) == kept + q[i + 1..]
    ensures kept + q[i..] == kept + [q[i]] + q[i + 1..]
  {
  }

  lemma ValuesSplit(a: seq<Command>, b: seq<Command>)
    ensures Values(a + b) == Values(a) + Values(b)
  {
  }

  /** The two halves put together: the pass, and freeing what it gave up. */
  lemma Outcome(q: seq<Command>, kept: seq<Command>, gone: seq<Command>, spared: seq<Command>, given: seq<Command>,
                position: Word16, u: Word16, queued: int, k: nat, d: nat)
    requires k == StopIndex(Values(q), position) && Sorting(q, k, k, kept, gone, position)
    requires d == Given(Values(q[..k]), position)
    requires Sparing((kept + q[k..])[..d], d, spared, given, queued)
    ensures var r, final := Dispatch(Values(q), position, u, queued), spared + (kept + q[k..])[d..];
            && Values(final) == r.waiting && Values(gone) == r.delivered && Values(given) == r.freed
            && Latest(Values(q[..k]), position, u) == r.unreliable
            && multiset(final) + multiset(gone) + multiset(given) == multiset(q)
  {
    hide Staying, Going, Trailing, Latest, StopIndex, Spared, Freed, Given;
    KeptSplit(kept, q, k, d);
    ValuesSplit(kept[d..], q[k..]);
    ValuesSplit(spared, kept[d..] + q[k..]);
    assert Values(spared) + (Values(kept[d..]) + Values(q[k..])) == Values(spared) + Values(kept[d..]) + Values(q[k..]);
  }

  lemma KeptSplit(kept: seq<Command>, q: seq<Command>, k: nat, d: nat)
    requires k <= |q| && d <= |kept|
    ensures Values(q[..k]) == Values(q)[..k] && Values(q[k..]) == Values(q)[k..]
    ensures Values(kept[..d]) == Values(kept)[..d] && Values(kept[d..]) == Values(kept)[d..]
    ensures (kept + q[k..])[..d] == kept[..d] == kept[..d][..d] && (kept + q[k..])[d..] == kept[d..] + q[k..]
    ensures kept == kept[..d] + kept[d..] && q == q[..k] + q[k..]
  {
  }

  class Channel {
    const incoming: List<Arrival>
    const dispatched: List<Arrival>
    var reliable: Word16
    var unreliable: Word16
    var needsDispatch: bool
    ghost var freed: seq<Command>

    constructor (anything: Arrival)
      ensures Valid() && incoming.nodes == dispatched.nodes == [] && freed == []
    {
      incoming := new List(anything);
      dispatched := new List(anything);
      reliable, unreliable, needsDispatch, freed := 0, 0, false, [];
    }

    ghost predicate Valid()
      reads incoming, incoming.sentinel, incoming.nodes, dispatched, dispatched.sentinel, dispatched.nodes
    {
      incoming.Valid() && dispatched.Valid() && incoming.Apart(dispatched)
    }

    ghost function Waiting(): seq<Arrival>
      reads incoming
    {
      Values(incoming.nodes)
    }

    /** The two lists and everything linked into them. */
    ghost function Footprint(): set<object>
      reads incoming, dispatched
    {
      {incoming, incoming.sentinel, dispatched, dispatched.sentinel} + Linkable(incoming.nodes, dispatched.nodes)
    }

    lemma FootprintIsOther()
      ensures this !in Footprint()
    {
    }

    ghost function WaitingFootprint(): set<object>
      reads incoming
    {
      {incoming, incoming.sentinel} + (set n | n in incoming.nodes)
    }

    /** Moves the run from `start` up to, not including, `current` to the dispatched list. */
    method Flush(ghost s: nat, ghost c: nat, start: Command, current: Command)
      requires Valid() && s < c <= |incoming.nodes| && start == incoming.At(s) && current == incoming.At(c)
      modifies this`needsDispatch
      modifies Footprint()
      ensures Valid() && needsDispatch
      ensures incoming.nodes == CutOut(old(incoming.nodes), s, c) && current == incoming.At(s)
      ensures dispatched.nodes == old(dispatched.nodes) + old(incoming.nodes)[s..c]
      ensures current != incoming.sentinel ==> current.next == old(current.next)
      ensures Footprint() == old(Footprint())
    {
      ghost var end := |dispatched.nodes|;
      assert incoming.Linked(c - 1);
      assert c < |incoming.nodes| ==> incoming.Linked(c);
      incoming.Move(s, c, start, current.previous, dispatched, end, dispatched.sentinel);
      if !needsDispatch {
        needsDispatch := true;
      }
      assert dispatched.nodes == old(dispatched.nodes) + old(incoming.nodes)[s..c];
      assert s < |incoming.nodes| ==> incoming.Linked(s);
      MovedFootprint(old(incoming.nodes), old(dispatched.nodes), s, c);
    }

    /** The pass before command `i` of the list as it was, `q`: where the three iterators point,
        what has become of the commands before `i`, and the unreliable number reached. */
    ghost predicate Passing(q: seq<Command>, sent: seq<Command>, u: Word16, p: nat, i: nat, kept: seq<Command>,
                            gone: seq<Command>,
                            start: Command, current: Command, dropped: Command, number: Word16)
      reads this`reliable, incoming, incoming.sentinel, incoming.nodes, dispatched, dispatched.sentinel,
            dispatched.nodes
    {
      && Valid()
      && Sorting(q, p, i, kept, gone, reliable)
      && incoming.nodes == kept + q[p..] && dispatched.nodes == sent + gone
      && start == incoming.At(|kept|) && current == incoming.At(|kept| + i - p)
      && dropped == incoming.At(Given(Values(q[..p]), reliable))
      && (forall m :: 0 <= m < i ==> !q[m].data.Stops(reliable))
      && number == Latest(Values(q[..i]), reliable, u)
    }

    /** What the predicate says of the lists. */
    lemma Unpack(q: seq<Command>, sent: seq<Command>, u: Word16, p: nat, i: nat, kept: seq<Command>, gone: seq<Command>,
                 start: Command, current: Command, dropped: Command, number: Word16)
      requires Passing(q, sent, u, p, i, kept, gone, start, current, dropped, number)
      ensures p <= i <= |q| && incoming.nodes == kept + q[p..] && dispatched.nodes == sent + gone
      ensures start == incoming.At(|kept|) && current == incoming.At(|kept| + i - p)
      ensures Valid() && Sorting(q, p, i, kept, gone, reliable) && number == Latest(Values(q[..i]), reliable, u)
      ensures Given(Values(q[..p]), reliable) <= |kept| && dropped == incoming.At(Given(Values(q[..p]), reliable))
      ensures WaitingFootprint() <= Footprint() && dispatched !in WaitingFootprint() && this !in WaitingFootprint()
      ensures forall n :: n in incoming.nodes ==> n in q
    {
      hide Staying, Going, Trailing, Latest, StopIndex;
    }

    /** A command that goes only lengthens the run. */
    lemma GoStep(q: seq<Command>, sent: seq<Command>, u: Word16, p: nat, i: nat, kept: seq<Command>, gone: seq<Command>,
                 start: Command, current: Command, dropped: Command, number: Word16)
      requires Passing(q, sent, u, p, i, kept, gone, start, current, dropped, number)
      requires current != incoming.sentinel && current.data.Goes(reliable)
      ensures i < |q| && current == q[i]
      ensures Passing(q, sent, u, p, i + 1, kept, gone, start, current.next, dropped,
                      if current.data.unsequenced then number else current.data.unreliable)
    {
      hide Staying, Going, Trailing;
      assert i < |q| && current == q[i];
      Snoc(q, i);
      assert incoming.Linked(|kept| + i - p);
    }

    /** A command that stays, once no run is pending. */
    lemma StayStep(q: seq<Command>, sent: seq<Command>, u: Word16, i: nat, kept: seq<Command>, gone: seq<Command>,
                   current: Command, dropped: Command, number: Word16)
      requires Passing(q, sent, u, i, i, kept, gone, current, current, dropped, number)
      requires current != incoming.sentinel && !current.data.Goes(reliable) && !current.data.Stops(reliable)
      ensures i < |q| && current == q[i]
      ensures Passing(q, sent, u, i + 1, i + 1, kept + [q[i]], gone, current.next, current.next,
                      if !current.data.Incomplete(reliable) then current.next
                      else if dropped != current then current.previous else current, number)
    {
      assert i < |q| && current == q[i];
      Snoc(q, i);
      StaySorts(q, i, kept, gone, reliable);
      assert incoming.Linked(|kept|) && incoming.Linked(|kept| - 1);
      assert kept + q[i..] == kept + [q[i]] + q[i + 1..];
      assert dropped == current <==> Trailing(Values(q[..i]), reliable) == 0;
    }

    /** Hands the pending run over. */
    method Settle(ghost q: seq<Command>, ghost sent: seq<Command>, ghost u: Word16, ghost p: nat, ghost i: nat,
                  ghost kept: seq<Command>, ghost gone: seq<Command>, start: Command, current: Command,
                      ghost dropped: Command)
      requires Passing(q, sent, u, p, i, kept, gone, start, current, dropped, unreliable)
      requires start != current
      modifies this`needsDispatch
      modifies Footprint()
      ensures p < i <= |q| && needsDispatch && Footprint() == old(Footprint())
      ensures (current != incoming.sentinel ==> current.next == old(current.next))
      ensures Passing(q, sent, u, i, i, kept, gone + q[p..i], current, current, current, unreliable)
    {
      hide Staying, Going, Trailing, Latest, Sorting, Values, Valid;
      Unpack(q, sent, u, p, i, kept, gone, start, current, dropped, unreliable);
      Flush(|kept|, |kept| + i - p, start, current);
      FlushSorts(q, p, i, kept, gone, reliable);
      CutRun(q, p, i, kept);
      assert sent + gone + q[p..i] == sent + (gone + q[p..i]);
    }

    lemma Begins()
      requires Valid()
      ensures Passing(incoming.nodes, dispatched.nodes, unreliable, 0, 0, [], [],
                      incoming.sentinel.next, incoming.sentinel.next, incoming.sentinel.next, unreliable)
    {
      assert incoming.Linked(-1);
    }

    /** The run is empty exactly if the iterators at its ends agree. */
    lemma Together(q: seq<Command>, sent: seq<Command>, u: Word16, p: nat, i: nat, kept: seq<Command>,
                   gone: seq<Command>,
                   start: Command, current: Command, dropped: Command, number: Word16)
      requires Passing(q, sent, u, p, i, kept, gone, start, current, dropped, number) && start == current
      ensures p == i <= |q| && gone + q[p..i] == gone
    {
    }

    lemma Ends(q: seq<Command>, sent: seq<Command>, u: Word16, p: nat, i: nat, kept: seq<Command>, gone: seq<Command>,
               start: Command, current: Command, dropped: Command, number: Word16)
      requires Passing(q, sent, u, p, i, kept, gone, start, current, dropped, number)
      requires current == incoming.sentinel || current.data.Stops(reliable)
      ensures StopIndex(Values(q), reliable) == i
    {
      hide Staying, Going, Trailing, Latest;
      assert current == incoming.sentinel <==> i == |q|;
      StopIndexIs(Values(q), reliable, i);
    }

    /** A command that goes: steps past it, leaving it in the run. */
    method Extend(ghost q: seq<Command>, ghost sent: seq<Command>, ghost u: Word16, ghost p: nat, ghost i: nat,
                  ghost kept: seq<Command>, ghost gone: seq<Command>, start: Command, current: Command,
                      ghost dropped: Command)
      requires Passing(q, sent, u, p, i, kept, gone, start, current, dropped, unreliable)
      requires current != incoming.sentinel && current.data.Goes(reliable)
      modifies this`unreliable
      ensures i < |q|
      ensures Passing(q, sent, u, p, i + 1, kept, gone, start, current.next, dropped, unreliable)
    {
      hide Staying, Going, Trailing, Latest, StopIndex, Given, Sorting, Passing;
      GoStep(q, sent, u, p, i, kept, gone, start, current, dropped, unreliable);
      if !current.data.unsequenced {
        unreliable := current.data.unreliable;
      }
    }

    /** A command that stays: hands the pending run over, moves `dropped`, and steps past it. */
    method Skip(ghost q: seq<Command>, ghost sent: seq<Command>, ghost u: Word16, ghost p: nat, ghost i: nat,
                ghost kept: seq<Command>, ghost gone: seq<Command>, start: Command, current: Command, dropped: Command)
      returns (dropped': Command)
      requires Passing(q, sent, u, p, i, kept, gone, start, current, dropped, unreliable)
      requires current != incoming.sentinel && !current.data.Goes(reliable) && !current.data.Stops(reliable)
      modifies this`needsDispatch
      modifies Footprint()
      ensures i < |q| && p <= i && Footprint() == old(Footprint())
      ensures needsDispatch == (old(needsDispatch) || p < i)
      ensures Passing(q, sent, u, i + 1, i + 1, kept + [q[i]], gone + q[p..i], current.next, current.next, dropped',
              unreliable)
    {
      hide Staying, Going, Trailing, Latest, Sorting, Given;
      dropped' := dropped;
      ghost var settled := dropped;
      if current.data.reliable == reliable {
        if start != current {
          Settle(q, sent, u, p, i, kept, gone, start, current, dropped);
          settled, dropped' := current, current;
        } else if dropped != current {
          dropped' := current.previous;
        }
      } else {
        dropped' := current.next;
        if start != current {
          Settle(q, sent, u, p, i, kept, gone, start, current, dropped);
          settled := current;
        }
      }
      if start == current {
        Together(q, sent, u, p, i, kept, gone, start, current, dropped, unreliable);
      }
      StayStep(q, sent, u, i, kept, gone + q[p..i], current, settled, unreliable);
    }

    /** The pass up to where it ends, at `current`; commands before `dropped` are left to be freed. */
    method Pass() returns (dropped: Command, current: Command, ghost kept: seq<Command>, ghost gone: seq<Command>)
      requires Valid()
      modifies this`needsDispatch, this`unreliable
      modifies Footprint()
      ensures Footprint() == old(Footprint())
      ensures var q, k := old(incoming.nodes), StopIndex(old(Waiting()), reliable);
              Passing(q, old(dispatched.nodes), old(unreliable), k, k, kept, gone, current, current, dropped,
                  unreliable)
      ensures needsDispatch == (old(needsDispatch) || gone != [])
    {
      hide Staying, Going, Trailing, Latest, StopIndex, Given, Sorting, Passing, Valid, Values, Footprint;
      ghost var q, sent, u := incoming.nodes, dispatched.nodes, unreliable;
      ghost var p, i := 0, 0;
      kept, gone := [], [];
      var start := incoming.sentinel.next;
      current := start;
      dropped := current;
      Begins();
      FootprintIsOther();
      while current != incoming.sentinel
        invariant Passing(q, sent, u, p, i, kept, gone, start, current, dropped, unreliable)
        invariant needsDispatch == (old(needsDispatch) || gone != [])
        invariant Footprint() == old(Footprint())
        invariant p <= i <= |q|
        decreases |q| - i
      {
        if current.data.unsequenced || (current.data.reliable == reliable && current.data.remaining == 0) {
          Extend(q, sent, u, p, i, kept, gone, start, current, dropped);
          current := current.next;
          i := i + 1;
        } else {
          if current.data.reliable != reliable && Accepts(current.data.reliable, reliable) { break; }
          dropped := Skip(q, sent, u, p, i, kept, gone, start, current, dropped);
          kept, gone := kept + [q[i]], gone + q[p..i];
          start := current.next;
          current := current.next;
          i := i + 1;
          p := i;
        }
      }
      Ends(q, sent, u, p, i, kept, gone, start, current, dropped, unreliable);
      if start != current {
        Settle(q, sent, u, p, i, kept, gone, start, current, dropped);
        gone, p := gone + q[p..i], i;
        dropped := current;
      } else {
        Together(q, sent, u, p, i, kept, gone, start, current, dropped, unreliable);
      }
    }

    ghost predicate Removing(q: seq<Command>, e: nat, i: nat, kept: seq<Command>, current: Command, end: Command)
      reads incoming, incoming.sentinel, incoming.nodes, dispatched, dispatched.sentinel, dispatched.nodes
    {
      && Valid() && i <= e <= |q| && incoming.nodes == kept + q[i..]
      && current == incoming.At(|kept|) && end == incoming.At(|kept| + e - i)
    }

    lemma SpareOne(q: seq<Command>, e: nat, i: nat, kept: seq<Command>, current: Command, end: Command)
      requires Removing(q, e, i, kept, current, end) && current != end
      ensures i < e && current == q[i]
      ensures Removing(q, e, i + 1, kept + [q[i]], current.next, end)
    {
      assert i < e && current == q[i];
      assert incoming.Linked(|kept|);
      CutOne(kept, q, i);
    }

    method FreeOne(ghost q: seq<Command>, ghost e: nat, ghost i: nat, ghost kept: seq<Command>, current: Command,
                   end: Command)
      returns (next: Command)
      requires Removing(q, e, i, kept, current, end) && current != end
      modifies this`freed, WaitingFootprint()
      ensures i < e && current == q[i]
      ensures Removing(q, e, i + 1, kept, next, end) && freed == old(freed) + [current]
      ensures WaitingFootprint() <= old(WaitingFootprint())
    {
      assert i < e && current == q[i];
      assert incoming.Linked(|kept|);
      CutOne(kept, q, i);
      next := current.next;
      assert incoming.At(|kept| - 1) !in dispatched.nodes && incoming.At(|kept| - 1) != dispatched.sentinel;
      assert incoming.At(|kept| + 1) !in dispatched.nodes && incoming.At(|kept| + 1) != dispatched.sentinel;
      incoming.Remove(|kept|, current);
      freed := freed + [current];
      CutSubset(old(incoming.nodes), |kept|, |kept| + 1);
      assert dispatched.Valid();
    }

    lemma RemovalStarts(e: nat, end: Command)
      requires Valid() && e <= |incoming.nodes| && end == incoming.At(e)
      ensures Removing(incoming.nodes, e, 0, [], incoming.sentinel.next, end)
    {
      assert incoming.Linked(-1);
      assert incoming.nodes == [] + incoming.nodes[0..];
    }

    lemma RemovalEnds(q: seq<Command>, e: nat, i: nat, kept: seq<Command>, current: Command, end: Command)
      requires Removing(q, e, i, kept, current, end) && current == end
      ensures Valid() && i == e <= |q| && incoming.nodes == kept + q[e..]
    {
    }

    /** Frees the commands from the head of the list up to `end`, except `queued`. */
    method RemoveIncoming(ghost e: nat, end: Command, queued: Node?<Arrival>)
      returns (ghost kept: seq<Command>, ghost gone: seq<Command>)
      requires Valid() && e <= |incoming.nodes| && end == incoming.At(e)
      requires Identified(incoming.nodes, queued)
      modifies this`freed, WaitingFootprint()
      ensures Valid() && incoming.nodes == kept + old(incoming.nodes)[e..] && freed == old(freed) + gone
      ensures Sparing(old(incoming.nodes)[..e], e, kept, gone, IdOf(queued))
    {
      hide Spared, Freed, Sparing, Removing, IdOf, Valid, Identified, WaitingFootprint;
      ghost var q, i := incoming.nodes, 0;
      kept, gone := [], [];
      var current := incoming.sentinel.next;
      RemovalStarts(e, end);
      SparingStarts(q[..e], IdOf(queued));
      while current != end
        invariant Removing(q, e, i, kept, current, end) && freed == old(freed) + gone
        invariant Sparing(q[..e], i, kept, gone, IdOf(queued))
        invariant WaitingFootprint() <= old(WaitingFootprint())
        decreases e - i
      {
        SpareOne(q, e, i, kept, current, end);
        assert current == q[..e][i];
        SpareStep(q[..e], i, kept, gone, IdOf(queued));
        KnownById(q, i, queued);
        if current == queued {
          kept := kept + [current];
          current := current.next;
        } else {
          gone := gone + [current];
          current := FreeOne(q, e, i, kept, current, end);
        }
        i := i + 1;
      }
      RemovalEnds(q, e, i, kept, current, end);
    }

    lemma SparingStarts(q: seq<Command>, queued: int)
      ensures Sparing(q, 0, [], [], queued)
    {
    }

    /** One dispatch pass, on the lists. Every waiting command ends up in exactly one of the
        two lists or freed, as Dispatch of module UnreliableQueue says. */
    method DispatchUnreliable(queued: Node?<Arrival>)
      requires Valid()
      requires Identified(incoming.nodes, queued)
      modifies this`needsDispatch, this`unreliable, this`freed
      modifies Footprint()
      ensures Valid()
      ensures var r := Dispatch(old(Waiting()), reliable, old(unreliable), IdOf(queued));
              && Waiting() == r.waiting && unreliable == r.unreliable
              && Values(dispatched.nodes) == Values(old(dispatched.nodes)) + r.delivered
              && Values(freed) == Values(old(freed)) + r.freed
              && needsDispatch == (old(needsDispatch) || r.delivered != [])
      ensures multiset(incoming.nodes) + multiset(dispatched.nodes) + multiset(freed)
           == old(multiset(incoming.nodes) + multiset(dispatched.nodes) + multiset(freed))
    {
      hide Staying, Going, Trailing, Latest, StopIndex, Spared, Freed, Given, Sorting, Sparing, Dispatch, Passing,
           IdOf, Valid;
      ghost var q, sent, before, u := incoming.nodes, dispatched.nodes, freed, unreliable;
      var dropped, current, kept, gone := Pass();
      ghost var k := StopIndex(Values(q), reliable);
      Unpack(q, sent, u, k, k, kept, gone, current, current, dropped, unreliable);
      ghost var d := Given(Values(q[..k]), reliable);
      ghost var spared, given := RemoveIncoming(d, dropped, queued);
      assert dispatched.nodes == sent + gone && unreliable == Latest(Values(q[..k]), reliable, u);
      assert incoming.nodes == spared + (kept + q[k..])[d..];
      Outcome(q, kept, gone, spared, given, reliable, u, IdOf(queued), k, d);
      ValuesSplit(sent, gone);
      ValuesSplit(before, given);
    }

    /** Looks for the place of a sequenced command, from the tail of the list: null if it is
        there already, otherwise the command, or sentinel, it goes behind. */
    method FindPlace(r: Word16, u: Word16, ghost place: Place) returns (behind: Node?<Arrival>)
      requires Valid() && place == Scan(Waiting(), reliable, r, u)
      ensures behind == null <==> place.Duplicate?
      ensures place.Slot? ==> behind == incoming.At(place.index - 1)
    {
      ghost var q, i := incoming.nodes, |incoming.nodes|;
      var current := incoming.sentinel.previous;
      assert incoming.Linked(i - 1);
      assert Values(q)[..i] == Values(q);
      while current != incoming.sentinel
        invariant i <= |q| && current == incoming.At(i - 1)
        invariant place == Scan(Values(q)[..i], reliable, r, u)
        decreases i
      {
        assert i > 0 && current == q[i - 1] && Values(q)[..i][..i - 1] == Values(q)[..i - 1];
        assert incoming.Linked(i - 2);
        var x := current.data;
        if !(r >= reliable && x.reliable < reliable) {
          if r < reliable && x.reliable >= reliable { break; }
          if x.reliable < r { break; }
          if x.reliable == r && x.unreliable <= u {
            if x.unreliable < u { break; }
            return null;
          }
        }
        current := current.previous;
        i := i - 1;
      }
      return current;
    }

    method InsertApart(ghost index: nat, behind: Command, command: Command)
      requires Valid() && index <= |incoming.nodes| && behind == incoming.At(index - 1)
      requires command !in incoming.nodes + dispatched.nodes && command != incoming.sentinel
               && command != dispatched.sentinel
      modifies command, WaitingFootprint()
      ensures Valid() && incoming.nodes == Spliced(old(incoming.nodes), index, [command])
      ensures forall n :: n in incoming.nodes ==> n == command || n in old(incoming.nodes)
      ensures dispatched.nodes == old(dispatched.nodes) && freed == old(freed)
      ensures Waiting() == Inserted(old(Waiting()), index, command.data)
    {
      assert incoming.Linked(index - 1);
      assert incoming.At(index - 1) !in dispatched.nodes && incoming.At(index - 1) != dispatched.sentinel;
      assert incoming.At(index) !in dispatched.nodes && incoming.At(index) != dispatched.sentinel;
      incoming.Insert(index, behind.next, command);
      assert dispatched.Valid();
    }

    /** Queues an arrived command that is not yet known, and does a dispatch pass. */
    method Queue(command: Command, behind: Command, ghost index: nat)
      requires Valid() && index <= |incoming.nodes| && behind == incoming.At(index - 1)
      requires command !in incoming.nodes + dispatched.nodes && command != incoming.sentinel
               && command != dispatched.sentinel
      requires forall n :: n in incoming.nodes ==> n.data.id != command.data.id
      modifies this`needsDispatch, this`unreliable, this`freed, command
      modifies Footprint()
      ensures Valid()
      ensures var r := Dispatch(Inserted(old(Waiting()), index, command.data), reliable, old(unreliable),
              command.data.id);
              && Waiting() == r.waiting && unreliable == r.unreliable
              && Values(dispatched.nodes) == Values(old(dispatched.nodes)) + r.delivered
              && Values(freed) == Values(old(freed)) + r.freed
    {
      hide Dispatch, Valid, Inserted, Spliced;
      InsertApart(index, behind, command);
      DispatchUnreliable(command);
    }
  }
}
