/** What one pass over a channel's waiting unreliable commands does: which are handed to the
    application, which keep waiting, and which are given up. */
module UnreliableQueue {
  import opened Lists
  import opened Windows

  /** A waiting command. `id` tells two commands with equal fields apart. An unsequenced
      command carries zeros for its numbers. */
  datatype Arrival = Arrival(id: nat, unsequenced: bool, reliable: Word16, unreliable: Word16, remaining: nat)
  {
    predicate Current(position: Word16) { !unsequenced && reliable == position }

    predicate Goes(position: Word16) { unsequenced || (reliable == position && remaining == 0) }

    predicate Incomplete(position: Word16) { Current(position) && remaining > 0 }

    /** Sent under a reliable position still to come: the pass ends here. */
    predicate Stops(position: Word16) { !unsequenced && reliable != position && Accepts(reliable, position) }
  }

  /** The first command the pass ends at. */
  function StopIndex(q: seq<Arrival>, position: Word16): (k: nat)
    ensures k <= |q| && (k < |q| ==> q[k].Stops(position))
    ensures forall i :: 0 <= i < k ==> !q[i].Stops(position)
  {
    if q == [] || q[0].Stops(position) then 0 else 1 + StopIndex(q[1..], position)
  }

  lemma {:induction false} StopIndexIs(q: seq<Arrival>, position: Word16, k: nat)
    requires k <= |q| && (k < |q| ==> q[k].Stops(position))
    requires forall i :: 0 <= i < k ==> !q[i].Stops(position)
    ensures StopIndex(q, position) == k
  {
    if k > 0 {
      StopIndexIs(q[1..], position, k - 1);
    }
  }

  function Going(q: seq<Arrival>, position: Word16): seq<Arrival> {
    if q == [] then []
    else
      var front, x := q[..|q| - 1], q[|q| - 1];
      if x.Goes(position) then Going(front, position) + [x] else Going(front, position)
  }

  function Staying(q: seq<Arrival>, position: Word16): seq<Arrival> {
    if q == [] then []
    else
      var front, x := q[..|q| - 1], q[|q| - 1];
      if x.Goes(position) then Staying(front, position) else Staying(front, position) + [x]
  }

  /** How many incomplete commands of the current position end `q`. */
  function Trailing(q: seq<Arrival>, position: Word16): (t: nat)
    ensures t <= |Staying(q, position)|
  {
    if q == [] || !q[|q| - 1].Incomplete(position) then 0 else Trailing(q[..|q| - 1], position) + 1
  }

  /** The unreliable number reached after handing over the complete commands of `q`. */
  function Latest(q: seq<Arrival>, position: Word16, unreliable: Word16): Word16 {
    if q == [] then unreliable
    else
      var x := q[|q| - 1];
      if x.Current(position) && x.remaining == 0 then x.unreliable else Latest(q[..|q| - 1], position, unreliable)
  }

  function Spared(s: seq<Arrival>, queued: int): seq<Arrival> {
    if s == [] then []
    else
      var front, x := s[..|s| - 1], s[|s| - 1];
      if x.id == queued then Spared(front, queued) + [x] else Spared(front, queued)
  }

  function Freed(s: seq<Arrival>, queued: int): seq<Arrival> {
    if s == [] then []
    else
      var front, x := s[..|s| - 1], s[|s| - 1];
      if x.id == queued then Freed(front, queued) else Freed(front, queued) + [x]
  }

  /** How many of the staying commands stand before the dropped pointer: all but the last two
      incomplete ones. */
  function Given(q: seq<Arrival>, position: Word16): (d: nat)
    ensures d <= |Staying(q, position)|
  {
    var t := Trailing(q, position);
    |Staying(q, position)| - (if t < 2 then t else 2)
  }

  datatype Result = Result(delivered: seq<Arrival>, waiting: seq<Arrival>, freed: seq<Arrival>, unreliable: Word16)

  /** `queued` is the id of the command just queued, which is never freed; -1 for none. */
  function Dispatch(q: seq<Arrival>, position: Word16, unreliable: Word16, queued: int): Result {
    var k := StopIndex(q, position);
    var stay, d := Staying(q[..k], position), Given(q[..k], position);
    Result(Going(q[..k], position), Spared(stay[..d], queued) + stay[d..] + q[k..], Freed(stay[..d], queued),
           Latest(q[..k], position, unreliable))
  }

  // ---------------------------------------------------------------- where an arrival goes

  /** Walks the waiting list from its tail, comparing reliable numbers around the position and
      then unreliable numbers. A waiting unsequenced command is not told apart: its numbers
      count as zeros. */
  function Scan(q: seq<Arrival>, position: Word16, r: Word16, u: Word16): (p: Place)
    ensures p.index <= |q| && (p.Duplicate? ==> p.index < |q|)
  {
    if q == [] then Slot(0)
    else
      var front, x := q[..|q| - 1], q[|q| - 1];
      if r >= position && x.reliable < position then Scan(front, position, r, u)
      else if r < position && x.reliable >= position then Slot(|q|)
      else if x.reliable < r then Slot(|q|)
      else if x.reliable > r then Scan(front, position, r, u)
      else if x.unreliable < u then Slot(|q|)
      else if x.unreliable == u then Duplicate(|q| - 1)
      else Scan(front, position, r, u)
  }

  // ---------------------------------------------------------------- every command goes one way

  lemma {:induction false} SplitByGoing(q: seq<Arrival>, position: Word16)
    ensures multiset(Going(q, position)) + multiset(Staying(q, position)) == multiset(q)
  {
    if q != [] {
      SplitByGoing(q[..|q| - 1], position);
      assert q == q[..|q| - 1] + [q[|q| - 1]];
    }
  }

  lemma {:induction false} SplitByQueued(s: seq<Arrival>, queued: int)
    ensures multiset(Spared(s, queued)) + multiset(Freed(s, queued)) == multiset(s)
    ensures forall x :: x in Freed(s, queued) ==> x.id != queued
    ensures forall x :: x in Spared(s, queued) ==> x.id == queued
  {
    if s != [] {
      SplitByQueued(s[..|s| - 1], queued);
      assert s == s[..|s| - 1] + [s[|s| - 1]];
    }
  }

  /** Each command is handed over, keeps waiting, or is freed: exactly one of the three; and
      the command just queued is not freed. */
  lemma DispatchPartitions(q: seq<Arrival>, position: Word16, unreliable: Word16, queued: int)
    ensures var r := Dispatch(q, position, unreliable, queued);
            && multiset(r.delivered) + multiset(r.waiting) + multiset(r.freed) == multiset(q)
            && forall x :: x in r.freed ==> x.id != queued
  {
    hide Going, Staying, Spared, Freed, Trailing, Latest, StopIndex;
    var k := StopIndex(q, position);
    var stay, d := Staying(q[..k], position), Given(q[..k], position);
    SplitByGoing(q[..k], position);
    SplitByQueued(stay[..d], queued);
    assert q == q[..k] + q[k..];
    assert stay == stay[..d] + stay[d..];
  }

  // ---------------------------------------------------------------- order is kept

  /** `a` is what is left of `q` after leaving some elements out. */
  predicate Within<T(==)>(a: seq<T>, q: seq<T>) {
    if q == [] then a == []
    else
      var front, x := q[..|q| - 1], q[|q| - 1];
      Within(a, front) || (a != [] && a[|a| - 1] == x && Within(a[..|a| - 1], front))
  }

  /** Two elements of `a` stand in `q` in the same order. */
  lemma {:induction false} WithinOrder<T>(a: seq<T>, q: seq<T>, i: nat, j: nat) returns (i': nat, j': nat)
    requires Within(a, q) && i < j < |a|
    ensures i' < j' < |q| && q[i'] == a[i] && q[j'] == a[j]
    decreases |q|
  {
    var front := q[..|q| - 1];
    if Within(a, front) {
      i', j' := WithinOrder(a, front, i, j);
    } else if j < |a| - 1 {
      i', j' := WithinOrder(a[..|a| - 1], front, i, j);
    } else {
      i' := WithinPlace(a[..|a| - 1], front, i);
      j' := |q| - 1;
    }
  }

  lemma {:induction false} WithinPlace<T>(a: seq<T>, q: seq<T>, i: nat) returns (i': nat)
    requires Within(a, q) && i < |a|
    ensures i' < |q| && q[i'] == a[i]
    decreases |q|
  {
    var front := q[..|q| - 1];
    if Within(a, front) {
      i' := WithinPlace(a, front, i);
    } else if i < |a| - 1 {
      i' := WithinPlace(a[..|a| - 1], front, i);
    } else {
      i' := |q| - 1;
    }
  }

  lemma {:induction false} WithinSelf<T>(q: seq<T>)
    ensures Within(q, q)
  {
    if q != [] {
      WithinSelf(q[..|q| - 1]);
    }
  }

  lemma {:induction false} WithinMore<T>(a: seq<T>, q: seq<T>, more: seq<T>)
    requires Within(a, q)
    ensures Within(a, q + more)
    decreases |more|
  {
    if more == [] {
      assert q + more == q;
    } else {
      WithinMore(a, q, more[..|more| - 1]);
      assert (q + more)[..|q + more| - 1] == q + more[..|more| - 1];
    }
  }

  lemma {:induction false} WithinJoin<T>(a: seq<T>, q: seq<T>, b: seq<T>, p: seq<T>)
    requires Within(a, q) && Within(b, p)
    ensures Within(a + b, q + p)
    decreases |p|
  {
    if p == [] {
      assert a + b == a && q + p == q;
    } else {
      var front := p[..|p| - 1];
      assert (q + p)[..|q + p| - 1] == q + front;
      if Within(b, front) {
        WithinJoin(a, q, b, front);
      } else {
        WithinJoin(a, q, b[..|b| - 1], front);
        assert (a + b)[..|a + b| - 1] == a + b[..|b| - 1];
      }
    }
  }

  lemma {:induction false} WithinThrough<T>(a: seq<T>, b: seq<T>, c: seq<T>)
    requires Within(a, b) && Within(b, c)
    ensures Within(a, c)
    decreases |c|
  {
    if c != [] {
      var front := c[..|c| - 1];
      if Within(b, front) {
        WithinThrough(a, b, front);
      } else if Within(a, b[..|b| - 1]) {
        WithinThrough(a, b[..|b| - 1], front);
      } else {
        WithinThrough(a[..|a| - 1], b[..|b| - 1], front);
      }
    }
  }

  lemma {:induction false} FiltersKeepOrder(q: seq<Arrival>, position: Word16)
    ensures Within(Going(q, position), q) && Within(Staying(q, position), q)
  {
    if q != [] {
      FiltersKeepOrder(q[..|q| - 1], position);
    }
  }

  lemma {:induction false} SparedKeepsOrder(s: seq<Arrival>, queued: int)
    ensures Within(Spared(s, queued), s)
  {
    if s != [] {
      SparedKeepsOrder(s[..|s| - 1], queued);
    }
  }

  /** What is handed over and what keeps waiting are in the order they had. */
  lemma DispatchKeepsOrder(q: seq<Arrival>, position: Word16, unreliable: Word16, queued: int)
    ensures var r := Dispatch(q, position, unreliable, queued);
            Within(r.delivered, q) && Within(r.waiting, q)
  {
    hide Going, Staying, Spared, Freed, Trailing, Latest, StopIndex, Within;
    var k := StopIndex(q, position);
    var stay, d := Staying(q[..k], position), Given(q[..k], position);
    FiltersKeepOrder(q[..k], position);
    WithinMore(Going(q[..k], position), q[..k], q[k..]);
    SparedKeepsOrder(stay[..d], queued);
    WithinSelf(stay[d..]);
    WithinJoin(Spared(stay[..d], queued), stay[..d], stay[d..], stay[d..]);
    assert stay == stay[..d] + stay[d..];
    WithinThrough(Spared(stay[..d], queued) + stay[d..], stay, q[..k]);
    WithinSelf(q[k..]);
    WithinJoin(Spared(stay[..d], queued) + stay[d..], q[..k], q[k..], q[k..]);
    assert q == q[..k] + q[k..];
  }

  // ---------------------------------------------------------------- what waits, what is freed

  /** Where the kept part of the list starts: the last two incomplete commands before the end
      of the pass, or fewer if fewer end it. */
  function Cut(q: seq<Arrival>, position: Word16): (c: nat)
    ensures c <= StopIndex(q, position) <= c + 2
  {
    var k := StopIndex(q, position);
    var t := Trailing(q[..k], position);
    TrailingIsSuffix(q[..k], position, if t < 2 then t else 2);
    k - (if t < 2 then t else 2)
  }

  lemma {:induction false} TrailingIsSuffix(q: seq<Arrival>, position: Word16, m: nat)
    requires m <= Trailing(q, position)
    ensures m <= |q| && Staying(q, position) == Staying(q[..|q| - m], position) + q[|q| - m..]
    ensures Going(q, position) == Going(q[..|q| - m], position)
    ensures forall i :: |q| - m <= i < |q| ==> q[i].Incomplete(position)
  {
    if m == 0 {
      assert q[..|q|] == q && Staying(q, position) + q[|q|..] == Staying(q, position);
    } else {
      var front, x := q[..|q| - 1], q[|q| - 1];
      assert x.Incomplete(position) && !x.Goes(position);
      TrailingIsSuffix(front, position, m - 1);
      hide Trailing, Arrival.Incomplete, Arrival.Goes;
      assert front[..|front| - (m - 1)] == q[..|q| - m];
      var head, tail := Staying(q[..|q| - m], position), front[|front| - (m - 1)..];
      assert q[|q| - m..] == tail + [x];
      assert Staying(q, position) == (head + tail) + [x] == head + (tail + [x]);
      forall i | |q| - m <= i < |q|
        ensures q[i].Incomplete(position)
      {
        if i < |front| { assert front[i] == q[i]; }
      }
    }
  }

  /** The pass in closed form: everything before the cut is handed over or freed, save the
      command just queued, and everything from the cut on keeps waiting. */
  lemma DispatchCuts(q: seq<Arrival>, position: Word16, unreliable: Word16, queued: int)
    ensures var r, c := Dispatch(q, position, unreliable, queued), Cut(q, position);
            && r.delivered == Going(q[..c], position)
            && r.waiting == Spared(Staying(q[..c], position), queued) + q[c..]
            && r.freed == Freed(Staying(q[..c], position), queued)
  {
    hide Going, Staying, Spared, Freed, StopIndex, Trailing;
    var k, c := StopIndex(q, position), Cut(q, position);
    TrailingIsSuffix(q[..k], position, k - c);
    assert q[..k][..c] == q[..c];
    var stay := Staying(q[..k], position);
    assert stay[..|stay| - (k - c)] == Staying(q[..c], position) && stay[|stay| - (k - c)..] == q[..k][c..];
    assert q[c..] == q[..k][c..] + q[k..];
    assert Spared(stay[..|stay| - (k - c)], queued) + q[..k][c..] + q[k..]
           == Spared(stay[..|stay| - (k - c)], queued) + q[c..];
  }

  lemma {:induction false} GoingMembers(q: seq<Arrival>, position: Word16)
    ensures forall x :: x in Going(q, position) <==> x in q && x.Goes(position)
    ensures forall x :: x in Staying(q, position) <==> x in q && !x.Goes(position)
  {
    if q != [] {
      GoingMembers(q[..|q| - 1], position);
      assert q == q[..|q| - 1] + [q[|q| - 1]];
    }
  }

  lemma {:induction false} FreedMembers(s: seq<Arrival>, queued: int)
    ensures forall x :: x in Freed(s, queued) <==> x in s && x.id != queued
    ensures forall x :: x in Spared(s, queued) <==> x in s && x.id == queued
  {
    if s != [] {
      FreedMembers(s[..|s| - 1], queued);
      assert s == s[..|s| - 1] + [s[|s| - 1]];
    }
  }

  /** Exactly which commands each way holds. */
  lemma DispatchMembers(q: seq<Arrival>, position: Word16, unreliable: Word16, queued: int, i: nat)
    requires Distinct(q) && i < |q|
    ensures var r, c := Dispatch(q, position, unreliable, queued), Cut(q, position);
            && (q[i] in r.delivered <==> i < c && q[i].Goes(position))
            && (q[i] in r.freed <==> i < c && !q[i].Goes(position) && q[i].id != queued)
            && (q[i] in r.waiting <==> i >= c || (!q[i].Goes(position) && q[i].id == queued))
  {
    hide Going, Staying, Spared, Freed, StopIndex, Trailing, Dispatch;
    var c := Cut(q, position);
    DispatchCuts(q, position, unreliable, queued);
    GoingMembers(q[..c], position);
    FreedMembers(Staying(q[..c], position), queued);
    assert q[i] in q[..c] <==> i < c;
    assert q[i] in q[c..] <==> i >= c;
  }

  /** An unsequenced command is handed over, unless a command for a later reliable position
      stands before it: then it stays behind. */
  lemma UnsequencedGoesIff(q: seq<Arrival>, position: Word16, unreliable: Word16, queued: int, i: nat)
    requires Distinct(q) && i < |q| && q[i].unsequenced
    ensures var r := Dispatch(q, position, unreliable, queued);
            && (q[i] in r.delivered <==> forall j :: 0 <= j < i ==> !q[j].Stops(position))
            && (q[i] in r.waiting <==> exists j :: 0 <= j < i && q[j].Stops(position))
  {
    hide Going, Staying, Spared, Freed, StopIndex, Trailing, Dispatch;
    var k, c := StopIndex(q, position), Cut(q, position);
    DispatchMembers(q, position, unreliable, queued, i);
    TrailingIsSuffix(q[..k], position, k - c);
    assert forall j :: c <= j < k ==> q[..k][j].Incomplete(position);
    assert i < c <==> i < k;
    assert k < i ==> q[k].Stops(position);
  }

  /** An incomplete command of the current position, other than the one just queued, is given
      up exactly if something else than an incomplete command follows it, or if two do. */
  lemma IncompleteFreedIff(q: seq<Arrival>, position: Word16, unreliable: Word16, queued: int, i: nat)
    requires Distinct(q) && i < StopIndex(q, position) && q[i].Incomplete(position) && q[i].id != queued
    ensures var r, k := Dispatch(q, position, unreliable, queued), StopIndex(q, position);
            q[i] in r.freed <==> i + 2 < k || exists j :: i < j < k && !q[j].Incomplete(position)
  {
    hide Going, Staying, Spared, Freed, StopIndex, Trailing, Dispatch;
    var k, c := StopIndex(q, position), Cut(q, position);
    DispatchMembers(q, position, unreliable, queued, i);
    TrailingIsSuffix(q[..k], position, k - c);
    assert forall j :: c <= j < k ==> q[..k][j].Incomplete(position);
    TrailingFrom(q[..k], position, i);
  }

  /** From `i` on, everything is incomplete exactly if the trailing count reaches back to `i`. */
  lemma {:induction false} TrailingFrom(q: seq<Arrival>, position: Word16, i: nat)
    requires i < |q|
    ensures |q| - i <= Trailing(q, position) <==> forall j :: i <= j < |q| ==> q[j].Incomplete(position)
  {
    var front := q[..|q| - 1];
    if i < |front| {
      TrailingFrom(front, position, i);
      assert forall j :: i <= j < |front| ==> front[j] == q[j];
    }
  }

  lemma {:induction false} NothingComplete(q: seq<Arrival>, position: Word16, u: Word16)
    requires forall i :: 0 <= i < |q| ==> !q[i].Goes(position)
    ensures Going(q, position) == [] && Staying(q, position) == q && Latest(q, position, u) == u
  {
    hide Arrival.Goes, Arrival.Current;
    if q != [] {
      var front, x := q[..|q| - 1], q[|q| - 1];
      assert forall i :: 0 <= i < |front| ==> front[i] == q[i];
      NothingComplete(front, position, u);
      assert front + [x] == q;
      assert !(x.Current(position) && x.remaining == 0) by { NotGoing(x, position); }
    }
  }

  lemma NotGoing(x: Arrival, position: Word16)
    requires !x.Goes(position)
    ensures !(x.Current(position) && x.remaining == 0)
  {
  }

  /** So a fragmented packet can be lost though nothing has overtaken it: three incomplete
      ones in a row, and the first is given up. */
  lemma FirstOfThreeIsLost(a: Arrival, b: Arrival, c: Arrival, position: Word16)
    requires a.Incomplete(position) && b.Incomplete(position) && c.Incomplete(position)
    requires a.id != b.id && b.id != c.id && a.id != c.id
    ensures Dispatch([a, b, c], position, 0, c.id) == Result([], [b, c], [a], 0)
  {
    hide Going, Staying, Trailing, Latest, StopIndex, Dispatch, Freed, Spared;
    var q := [a, b, c];
    assert forall i :: 0 <= i < 3 ==> q[i].Incomplete(position);
    StopIndexIs(q, position, 3);
    assert q[..3] == q && q[..1] == [a] && q[1..] == [b, c];
    TrailingFrom(q, position, 0);
    DispatchCuts(q, position, 0, c.id);
    NothingComplete(q, position, 0);
    NothingComplete([a], position, 0);
    FreeSingle(a, c.id);
    assert Dispatch(q, position, 0, c.id).unreliable
           == Latest(q, position, 0) by { LatestReached(q, position, 0, c.id); }
  }

  lemma FreeSingle(a: Arrival, queued: int)
    requires a.id != queued
    ensures Freed([a], queued) == [a] && Spared([a], queued) == []
  {
    assert [a][..0] == [];
  }

  lemma LatestReached(q: seq<Arrival>, position: Word16, u: Word16, queued: int)
    ensures Dispatch(q, position, u, queued).unreliable == Latest(q[..StopIndex(q, position)], position, u)
  {
  }
}
