/** What becomes of sequenced unreliable packets when waiting unsequenced commands mislead the
    search for their place: exactly when the list loses its order, and exactly when a packet is
    handed over twice or after one that was sent later. */
module UnreliableMisled {
  import opened Lists
  import opened Windows
  import opened UnreliableQueue
  import opened UnreliableChannel
  import opened UnreliableOrder

  // ---------------------------------------------------------------- waiting unsequenced commands

  /** The sequenced commands stand in the order of their numbers, counted from the position. */
  ghost predicate SortedAround(q: seq<Arrival>, at: Word16) {
    forall i, j :: 0 <= i < j < |q| && !q[i].unsequenced && !q[j].unsequenced
        ==> Precedes(q[i], q[j].reliable, q[j].unreliable, at)
  }

  ghost predicate ZeroNumbered(q: seq<Arrival>) {
    forall i :: 0 <= i < |q| && q[i].unsequenced ==> q[i].reliable == q[i].unreliable == 0
  }

  lemma {:induction false} ScanStopsAt(q: seq<Arrival>, at: Word16, x: Arrival)
    requires ZeroNumbered(q) && !x.unsequenced && x.unreliable > 0 && Scan(q, at, x.reliable, x.unreliable).Slot?
    ensures var p := Scan(q, at, x.reliable, x.unreliable).index;
            && (forall i :: p <= i < |q| ==> if q[i].unsequenced then PassesUnsequenced(x.reliable, at)
               else Precedes(x, q[i].reliable, q[i].unreliable, at))
            && (p > 0 ==> if q[p - 1].unsequenced then !PassesUnsequenced(x.reliable, at)
               else Precedes(q[p - 1], x.reliable, x.unreliable, at))
  {
    if q != [] {
      var front := q[..|q| - 1];
      if Scan(q, at, x.reliable, x.unreliable).index < |q| {
        ScanStopsAt(front, at, x);
      }
    }
  }

  lemma InsertSorts(q: seq<Arrival>, at: Word16, x: Arrival, p: nat)
    requires SortedAround(q, at) && p <= |q|
    requires forall i :: 0 <= i < p && !q[i].unsequenced ==> Precedes(q[i], x.reliable, x.unreliable, at)
    requires forall i :: p <= i < |q| && !q[i].unsequenced ==> Precedes(x, q[i].reliable, q[i].unreliable, at)
    ensures SortedAround(Inserted(q, p, x), at)
  {
    hide Precedes;
    var longer := Inserted(q, p, x);
    assert forall i :: 0 <= i < |longer| ==> longer[i] == if i < p then q[i] else if i == p then x else q[i - 1];
  }

  lemma BeforeSlot(q: seq<Arrival>, at: Word16, x: Arrival, p: nat)
    requires SortedAround(q, at) && 0 < p <= |q|
    requires if q[p - 1].unsequenced then NoneBeyond(q, at, x.reliable, x.unreliable)
             else Precedes(q[p - 1], x.reliable, x.unreliable, at)
    ensures forall i :: 0 <= i < p && !q[i].unsequenced ==> Precedes(q[i], x.reliable, x.unreliable, at)
  {
    forall i | 0 <= i < p - 1 && !q[i].unsequenced
      ensures Precedes(q[i], x.reliable, x.unreliable, at)
    {
      if !q[p - 1].unsequenced {
        assert Precedes(q[i], q[p - 1].reliable, q[p - 1].unreliable, at);
      }
    }
  }

  lemma SortedMeansNoneBeyond(q: seq<Arrival>, at: Word16, x: Arrival, p: nat)
    requires p <= |q| && !x.unsequenced && SortedAround(Inserted(q, p, x), at)
    requires forall i :: p <= i < |q| ==> !q[i].unsequenced
    ensures NoneBeyond(q, at, x.reliable, x.unreliable)
  {
    hide Precedes;
    var longer := Inserted(q, p, x);
    forall a, b | 0 <= a < b < |q| && !q[a].unsequenced && q[b].unsequenced
      ensures Precedes(q[a], x.reliable, x.unreliable, at)
    {
      assert longer[a] == q[a] && longer[p] == x;
    }
  }

  /** With unsequenced commands waiting, the scan keeps the list sorted exactly if it passes
      them or no sequenced command beyond the arriving one stands before any of them. */
  lemma InsertSortsIff(q: seq<Arrival>, at: Word16, x: Arrival)
    requires SortedAround(q, at) && ZeroNumbered(q) && !x.unsequenced && x.unreliable > 0
    requires Scan(q, at, x.reliable, x.unreliable).Slot?
    ensures SortedAround(Inserted(q, Scan(q, at, x.reliable, x.unreliable).index, x), at)
            <==> PassesUnsequenced(x.reliable, at) || NoneBeyond(q, at, x.reliable, x.unreliable)
  {
    hide SortedAround, Precedes, Scan, NoneBeyond, ZeroNumbered;
    var p := Scan(q, at, x.reliable, x.unreliable).index;
    ScanStopsAt(q, at, x);
    if PassesUnsequenced(x.reliable, at) || NoneBeyond(q, at, x.reliable, x.unreliable) {
      if p > 0 {
        BeforeSlot(q, at, x, p);
      }
      InsertSorts(q, at, x, p);
    } else if SortedAround(Inserted(q, p, x), at) {
      SortedMeansNoneBeyond(q, at, x, p);
    }
  }

  /** An example of the other case, right after connecting: a packet for position 5 and an
      unsequenced one wait when the first packet of position 0 arrives. It goes to the end, and
      though it is complete and current, the pass never reaches it. */
  lemma CompleteCurrentPacketIsHeldBack()
    ensures var q := [Arrival(0, false, 5, 1, 0), Arrival(1, true, 0, 0, 0)];
            var x := Arrival(2, false, 0, 1, 0);
            && SortedAround(q, 0) && x.Goes(0)
            && Scan(q, 0, 0, 1) == Slot(2) && !SortedAround(q + [x], 0)
            && Dispatch(q + [x], 0, 0, 2) == Result([], q + [x], [], 0)
  {
    var q := [Arrival(0, false, 5, 1, 0), Arrival(1, true, 0, 0, 0)];
    var x := Arrival(2, false, 0, 1, 0);
    var longer := q + [x];
    assert longer[0].Stops(0);
    assert StopIndex(longer, 0) == 0;
    assert !Precedes(longer[0], longer[2].reliable, longer[2].unreliable, 0);
    assert longer[..0] == [] && longer[0..] == longer;
  }

  // ---------------------------------------------------------------- handed over after a later one

  /** Packet `k` is handed over after packet `l`, which is not later. */
  ghost predicate HandedAfter(s: System, l: nat, k: nat) {
    exists a, b :: 0 <= a < b < |s.delivered| && s.delivered[a].index == l && s.delivered[b].index == k
  }

  ghost predicate UnsequencedBehind(q: seq<Arrival>, i: nat) {
    exists b :: i < b < |q| && q[b].unsequenced
  }

  /** No sequenced command beyond reliable number `r` stands before an unsequenced one. */
  ghost predicate NoneLater(q: seq<Arrival>, at: Word16, r: Word16) {
    forall a, b :: 0 <= a < b < |q| && !q[a].unsequenced && q[b].unsequenced
        ==> Ahead(q[a].reliable, at) <= Ahead(r, at)
  }

  /** What leads the scan for a packet numbered `r` to a place behind command `i`, and lets the
      packet be handed over from there: an unsequenced command behind `i` that the scan does not
      pass, and nothing that ends the pass before it. */
  ghost predicate Misled(q: seq<Arrival>, at: Word16, r: Word16, i: nat) {
    !PassesUnsequenced(r, at) && UnsequencedBehind(q, i) && NoneLater(q, at, r)
  }

  /** The complete command at `i` waits for a later reliable position; packet `k` was sent under
      the same one, and not after the packet at `i`. */
  ghost predicate Rivals(s: System, i: nat, k: nat) {
    && Inv(s) && i < |s.q| && Fresh(s, s.q[i]) && s.q[i].remaining == 0
    && k <= s.truth[s.q[i].id] && s.sent[k].fragments == 0
    && s.sent[k].reliable == Origin(s, s.q[i]).reliable > s.position
  }

  /** Where the scan goes, walking from `n` back to command `i`. */
  lemma {:induction false} ScanAmongRivals(s: System, i: nat, k: nat, n: nat) returns (b: nat)
    requires Rivals(s, i, k) && i < n <= |s.q|
    ensures var at, r, u := Wire(s.position), Wire(s.sent[k].reliable), s.sent[k].unreliable;
            var place, l := Scan(s.q[..n], at, r, u), s.truth[s.q[i].id];
            if !PassesUnsequenced(r, at) && UnsequencedBehind(s.q[..n], i)
            then i < b < n && s.q[b].unsequenced && place == Slot(b + 1)
                 && forall j :: b < j < n ==> !s.q[j].unsequenced
            else place.index <= i && (k == l ==> place == Duplicate(i))
    decreases n
  {
    hide SenderOk, DeliveredOk, PassesUnsequenced, Scan, UnsequencedBehind;
    var x := s.q[n - 1];
    b := 0;
    AwaitedIsAccepted(s.sent[k].reliable, s.position);
    ScanStep(s, k, n);
    if n - 1 == i {
      NothingBehind(s.q[..n], i);
    } else if x.unsequenced {
      ThisBehind(s.q[..n], i, n - 1);
      if PassesUnsequenced(Wire(s.sent[k].reliable), Wire(s.position)) {
        b := ScanAmongRivals(s, i, k, n - 1);
      } else {
        b := n - 1;
      }
    } else {
      assert Fresh(s, x) && Fresh(s, s.q[i]);
      b := ScanAmongRivals(s, i, k, n - 1);
      UnsequencedBehindLess(s.q, i, n);
    }
  }

  lemma NothingBehind(q: seq<Arrival>, i: nat)
    requires i == |q| - 1
    ensures !UnsequencedBehind(q, i)
  {
  }

  lemma ThisBehind(q: seq<Arrival>, i: nat, b: nat)
    requires i < b < |q| && q[b].unsequenced
    ensures UnsequencedBehind(q, i)
  {
  }

  lemma UnsequencedBehindLess(q: seq<Arrival>, i: nat, n: nat)
    requires 0 < n <= |q| && !q[n - 1].unsequenced
    ensures UnsequencedBehind(q[..n], i) <==> UnsequencedBehind(q[..n - 1], i)
  {
    if UnsequencedBehind(q[..n], i) {
      var b :| i < b < n && q[..n][b].unsequenced;
      assert q[..n - 1][b].unsequenced;
    }
    if UnsequencedBehind(q[..n - 1], i) {
      var b :| i < b < n - 1 && q[..n - 1][b].unsequenced;
      assert q[..n][b].unsequenced;
    }
  }

  // ---------------------------------------------------------------- from the list to what is handed over

  /** The sequenced command at `i` carries all of packet `l`. */
  predicate Carries(s: System, i: nat, l: nat)
    requires i < |s.q|
  {
    !s.q[i].unsequenced && Known(s, s.q[i]) && s.truth[s.q[i].id] == l && s.q[i].remaining == 0
  }

  predicate Beyond(s: System, x: Arrival, r: nat) {
    !x.unsequenced && Known(s, x) && Origin(s, x).reliable > r
  }

  /** Complete commands for packets `l` and `k`, in this order, before all that is beyond `r`. */
  ghost predicate Pair(s: System, r: nat, l: nat, k: nat, i: nat, j: nat) {
    && i < j < |s.q| && Carries(s, i, l) && Carries(s, j, k)
    && forall a :: 0 <= a <= j ==> !Beyond(s, s.q[a], r)
  }

  ghost predicate AllTracked(s: System) {
    forall i :: 0 <= i < |s.q| ==> s.q[i].unsequenced || Tracked(s, s.q[i])
  }

  /** Two commands that go leave in the order they stand in. */
  lemma {:induction false} GoingPlaces(q: seq<Arrival>, at: Word16, i: nat, j: nat) returns (i': nat, j': nat)
    requires i < j < |q| && q[i].Goes(at) && q[j].Goes(at)
    ensures i' < j' < |Going(q, at)| && Going(q, at)[i'] == q[i] && Going(q, at)[j'] == q[j]
  {
    var front := q[..|q| - 1];
    if j < |front| {
      i', j' := GoingPlaces(front, at, i, j);
    } else {
      i' := GoingPlace(front, at, i);
      j' := |Going(front, at)|;
    }
  }

  lemma {:induction false} GoingPlace(q: seq<Arrival>, at: Word16, i: nat) returns (i': nat)
    requires i < |q| && q[i].Goes(at)
    ensures i' < |Going(q, at)| && Going(q, at)[i'] == q[i]
  {
    var front := q[..|q| - 1];
    if i < |front| {
      i' := GoingPlace(front, at, i);
    } else {
      i' := |Going(front, at)|;
    }
  }

  lemma {:induction false} HandedPlaces(items: seq<Arrival>, truth: seq<nat>, position: nat, i: nat, j: nat)
    returns (a: nat, b: nat)
    requires i < j < |items| && !items[i].unsequenced && !items[j].unsequenced && items[i].id < |truth|
             && items[j].id < |truth|
    ensures a < b < |Handed(items, truth, position)|
    ensures Handed(items, truth, position)[a].index == truth[items[i].id]
    ensures Handed(items, truth, position)[b].index == truth[items[j].id]
  {
    var front := items[..|items| - 1];
    if j < |front| {
      a, b := HandedPlaces(front, truth, position, i, j);
    } else {
      a := HandedPlace(front, truth, position, i);
      b := |Handed(front, truth, position)|;
    }
  }

  lemma {:induction false} HandedPlace(items: seq<Arrival>, truth: seq<nat>, position: nat, i: nat) returns (a: nat)
    requires i < |items| && !items[i].unsequenced && items[i].id < |truth|
    ensures a < |Handed(items, truth, position)| && Handed(items, truth, position)[a].index == truth[items[i].id]
  {
    var front := items[..|items| - 1];
    if i < |front| {
      a := HandedPlace(front, truth, position, i);
    } else {
      a := |Handed(front, truth, position)|;
    }
  }

  ghost predicate NotYet(s: System, k: nat) {
    forall a :: 0 <= a < |s.delivered| ==> s.delivered[a].index != k
  }

  /** What two new deliveries of a pass tell of the list. */
  lemma HandedFromPair(s: System, l: nat, k: nat) returns (i: nat, j: nat)
    requires AllTracked(s) && l < |s.sent| && k < |s.sent|
    requires NotYet(s, l) && NotYet(s, k) && HandedAfter(Passed(s, -1), l, k)
    ensures Pair(s, s.position, l, k, i, j)
  {
    hide Going, Handed, Latest, Within, Tracked, Staying, Spared, Freed, Given, Wire;
    var at := Wire(s.position);
    var s', n, c := Passed(s, -1), |s.delivered|, StopIndex(s.q, at);
    var gone := Going(s.q[..c], at);
    var a, b :| 0 <= a < b < |s'.delivered| && s'.delivered[a].index == l && s'.delivered[b].index == k;
    assert a >= n && b >= n;
    var i', j' := HandedOrder(gone, s.truth, s.position, a - n, b - n);
    FiltersKeepOrder(s.q[..c], at);
    GoingMembers(s.q[..c], at);
    i, j := WithinOrder(gone, s.q[..c], i', j');
    assert gone[i'].Goes(at) && gone[j'].Goes(at);
    forall m | 0 <= m <= j
      ensures !Beyond(s, s.q[m], s.position)
    {
      if !s.q[m].unsequenced { Kind(s, s.q[m]); }
    }
  }

  lemma PairIsHanded(s: System, l: nat, k: nat, i: nat, j: nat)
    requires AllTracked(s) && Pair(s, s.position, l, k, i, j)
    requires l < |s.sent| && k < |s.sent| && s.sent[l].reliable == s.sent[k].reliable == s.position
    ensures HandedAfter(Passed(s, -1), l, k)
  {
    hide Going, Handed, Latest;
    var at := Wire(s.position);
    var s', n, c := Passed(s, -1), |s.delivered|, StopIndex(s.q, at);
    Kind(s, s.q[i]);
    Kind(s, s.q[j]);
    if c <= j {
      Kind(s, s.q[c]);
      assert false;
    }
    var i', j' := GoingPlaces(s.q[..c], at, i, j);
    var a, b := HandedPlaces(Going(s.q[..c], at), s.truth, s.position, i', j');
    assert s'.delivered[n + a].index == l && s'.delivered[n + b].index == k;
  }

  // ---------------------------------------------------------------- a pass, then an advance

  /** Waiting commands as the invariant has them, whatever their order. */
  ghost predicate AllAwaited(t: System) {
    && SenderOk(t)
    && forall i :: 0 <= i < |t.q| ==> t.q[i].unsequenced
                                      || (Tracked(t, t.q[i]) && Origin(t, t.q[i]).reliable >= t.position)
  }

  predicate Past(t: System, x: Arrival) { x.unsequenced || (Known(t, x) && Origin(t, x).reliable == t.position) }

  /** `s` is `t` with the first `c` commands of its list replaced by `pre`, none of either beyond
      the position. */
  ghost predicate Shifts(t: System, s: System, pre: seq<Arrival>, c: nat) {
    && c <= |t.q| && s.q == pre + t.q[c..]
    && s.truth == t.truth && s.sent == t.sent && s.position == t.position
    && (forall a :: 0 <= a < |pre| ==> Past(t, pre[a]) && (pre[a].unsequenced || Tracked(t, pre[a])))
    && forall a :: 0 <= a < c ==> Past(t, t.q[a])
  }

  lemma PassShifts(t: System, queued: int) returns (pre: seq<Arrival>)
    requires AllAwaited(t)
    ensures Shifts(t, Passed(t, queued), pre, StopIndex(t.q, Wire(t.position)))
  {
    hide Going, Staying, Spared, Freed, Latest, Handed;
    var at := Wire(t.position);
    var c := StopIndex(t.q, at);
    var stay, d := Staying(t.q[..c], at), Given(t.q[..c], at);
    pre := Spared(stay[..d], queued) + stay[d..];
    GoingMembers(t.q[..c], at);
    FreedMembers(stay[..d], queued);
    forall a | 0 <= a < c
      ensures Past(t, t.q[a])
    {
      if !t.q[a].unsequenced { Kind(t, t.q[a]); }
    }
    forall a | 0 <= a < |pre|
      ensures Past(t, pre[a]) && (pre[a].unsequenced || Tracked(t, pre[a]))
    {
      if a < |pre| - |stay[d..]| { assert pre[a] in stay[..d]; } else { assert pre[a] in stay[d..]; }
      assert pre[a] in stay && pre[a] in t.q[..c];
      var m :| 0 <= m < c && t.q[m] == pre[a];
    }
  }

  function Moved(s: System, r: nat): System { s.(position := r, number := 0) }

  lemma MovedTracked(t: System, s: System, pre: seq<Arrival>, c: nat, r: nat)
    requires AllAwaited(t) && Shifts(t, s, pre, c) && t.position <= r <= t.position + 36864
    ensures AllTracked(Moved(s, r))
  {
    forall i | 0 <= i < |s.q|
      ensures s.q[i].unsequenced || Tracked(Moved(s, r), s.q[i])
    {
      if i >= |pre| { assert s.q[i] == t.q[c + i - |pre|]; }
    }
  }

  lemma PairForth(t: System, s: System, pre: seq<Arrival>, c: nat, r: nat, l: nat, k: nat, i: nat, j: nat)
    requires Shifts(t, s, pre, c) && r > t.position && l < |t.sent| && k < |t.sent|
    requires t.sent[l].reliable == t.sent[k].reliable == r && Pair(t, r, l, k, i, j)
    ensures c <= i && Pair(Moved(s, r), r, l, k, i - c + |pre|, j - c + |pre|)
  {
    assert !Past(t, t.q[i]);
    var i', j' := i - c + |pre|, j - c + |pre|;
    assert s.q[i'] == t.q[i] && s.q[j'] == t.q[j];
    forall a | 0 <= a <= j'
      ensures !Beyond(Moved(s, r), s.q[a], r)
    {
      if a >= |pre| { assert s.q[a] == t.q[c + a - |pre|]; }
    }
  }

  lemma PairBack(t: System, s: System, pre: seq<Arrival>, c: nat, r: nat, l: nat, k: nat, i: nat, j: nat)
    requires Shifts(t, s, pre, c) && r > t.position && l < |t.sent| && k < |t.sent|
    requires t.sent[l].reliable == t.sent[k].reliable == r && Pair(Moved(s, r), r, l, k, i, j)
    ensures |pre| <= i && Pair(t, r, l, k, i - |pre| + c, j - |pre| + c)
  {
    assert i < |pre| ==> Past(t, pre[i]);
    var i', j' := i - |pre| + c, j - |pre| + c;
    assert s.q[i] == t.q[i'] && s.q[j] == t.q[j'];
    forall a | 0 <= a <= j'
      ensures !Beyond(t, t.q[a], r)
    {
      if a >= c { assert s.q[a - c + |pre|] == t.q[a]; }
    }
  }

  /** A pass at this position hands over nothing sent under a later one. */
  lemma PassNotYet(t: System, queued: int, k: nat)
    requires AllAwaited(t) && k < |t.sent| && t.sent[k].reliable > t.position && NotYet(t, k)
    ensures NotYet(Passed(t, queued), k)
  {
    hide Going, Handed, Latest;
    var at := Wire(t.position);
    var n, c := |t.delivered|, StopIndex(t.q, at);
    var gone := Going(t.q[..c], at);
    GoingMembers(t.q[..c], at);
    forall a | n <= a < |Passed(t, queued).delivered|
      ensures Passed(t, queued).delivered[a].index != k
    {
      HandedAre(gone, t.truth, t.position, a - n);
      var i :| 0 <= i < |gone| && !gone[i].unsequenced && gone[i].id < |t.truth|
               && Handed(gone, t.truth, t.position)[a - n].index == t.truth[gone[i].id];
      assert gone[i] in t.q[..c];
      var m :| 0 <= m < c && t.q[m] == gone[i];
      Kind(t, t.q[m]);
    }
  }

  /** Two packets sent under the position the receiver advances to are handed over in some order
      exactly if they stand in that order, before whatever waits for a position beyond. */
  lemma AdvanceHands(t: System, s: System, pre: seq<Arrival>, c: nat, l: nat, k: nat)
    requires AllAwaited(t) && Shifts(t, s, pre, c) && l < |t.sent| && k < |t.sent| && NotYet(s, l) && NotYet(s, k)
    requires t.position < t.sent[l].reliable == t.sent[k].reliable <= t.position + 36864
    ensures HandedAfter(After(s, Advance(t.sent[k].reliable - t.position)), l, k)
            <==> exists i: nat, j: nat :: Pair(t, t.sent[k].reliable, l, k, i, j)
  {
    hide Dispatch, Handed, Tracked, AllAwaited, Shifts, Pair;
    var r := t.sent[k].reliable;
    var m := Moved(s, r);
    MovedTracked(t, s, pre, c, r);
    assert s.sent == t.sent && s.position == t.position by { ShiftsAgree(t, s, pre, c); }
    var s' := After(s, Advance(r - t.position));
    if s.q == [] {
      NobodyPairs(t, s, pre, c, r, l, k);
    } else {
      assert s' == Passed(m, -1);
      if HandedAfter(s', l, k) {
        var i, j := HandedFromPair(m, l, k);
        PairBack(t, s, pre, c, r, l, k, i, j);
      }
      if i: nat, j: nat :| Pair(t, r, l, k, i, j) {
        PairForth(t, s, pre, c, r, l, k, i, j);
        PairIsHanded(m, l, k, i - c + |pre|, j - c + |pre|);
      }
    }
  }

  lemma ShiftsAgree(t: System, s: System, pre: seq<Arrival>, c: nat)
    requires Shifts(t, s, pre, c)
    ensures s.sent == t.sent && s.position == t.position
  {
  }

  lemma NobodyPairs(t: System, s: System, pre: seq<Arrival>, c: nat, r: nat, l: nat, k: nat)
    requires Shifts(t, s, pre, c) && s.q == [] && r > t.position && l < |t.sent| && k < |t.sent|
    requires t.sent[l].reliable == t.sent[k].reliable == r
    ensures forall i: nat, j: nat :: !Pair(t, r, l, k, i, j)
  {
    forall i: nat, j: nat | Pair(t, r, l, k, i, j)
      ensures false
    {
      PairForth(t, s, pre, c, r, l, k, i, j);
    }
  }


  // ---------------------------------------------------------------- exactly when

  /** The list after packet `k` has arrived, before the pass that follows. */
  function Arrived(s: System, k: nat): System
    requires k < |s.sent|
  {
    var place := Scan(s.q, Wire(s.position), Wire(s.sent[k].reliable), s.sent[k].unreliable);
    if place.Duplicate? then s else Longer(s, k, place.index)
  }

  lemma LongerAwaited(s: System, k: nat, p: nat)
    requires Inv(s) && k < |s.sent| && p <= |s.q|
    requires s.position < s.sent[k].reliable && s.sent[k].reliable / WINDOW_SIZE <= s.position / WINDOW_SIZE + 6
    ensures AllAwaited(Longer(s, k, p))
  {
    var t := Longer(s, k, p);
    forall a | 0 <= a < |t.q|
      ensures t.q[a].unsequenced || (Tracked(t, t.q[a]) && Origin(t, t.q[a]).reliable >= t.position)
    {
      if a != p {
        var known := s.q[if a < p then a else a - 1];
        assert t.q[a] == known;
        assert Bare(known) || Fresh(s, known);
      }
    }
  }

  /** In a list with the invariant, what stands earlier was sent earlier. */
  lemma StandsBefore(s: System, i: nat, j: nat)
    requires Inv(s) && i < j < |s.q| && !s.q[i].unsequenced && !s.q[j].unsequenced
    ensures Known(s, s.q[i]) && Known(s, s.q[j]) && s.truth[s.q[i].id] < s.truth[s.q[j].id]
  {
    assert Fresh(s, s.q[i]) && Fresh(s, s.q[j]);
  }

  lemma LaterIsBeyond(s: System, a: nat, r: nat)
    requires Inv(s) && a < |s.q| && !s.q[a].unsequenced && s.position <= r < s.position + MODULUS
    ensures Known(s, s.q[a])
    ensures Beyond(s, s.q[a], r) <==> Ahead(s.q[a].reliable, Wire(s.position)) > Ahead(Wire(r), Wire(s.position))
  {
    assert Fresh(s, s.q[a]);
    AwaitedIsAccepted(Origin(s, s.q[a]).reliable, s.position);
    AheadIsDistance(Origin(s, s.q[a]).reliable, s.position);
    AheadIsDistance(r, s.position);
  }

  /** A command of the longer list: the new one, or an old one where it was. */
  lemma LongerAt(s: System, k: nat, p: nat, a: nat)
    requires Inv(s) && k < |s.sent| && p <= |s.q| && a <= |s.q|
    ensures var t := Longer(s, k, p);
            if a == p then !t.q[a].unsequenced && Known(t, t.q[a]) && t.truth[t.q[a].id] == k
                && t.q[a].remaining == s.sent[k].fragments
            else var old' := s.q[if a < p then a else a - 1];
                 && t.q[a] == old' && (!old'.unsequenced
                    ==> Known(s, old') && Known(t, old') && t.truth[old'.id] == s.truth[old'.id])
  {
    if a != p {
      var old' := s.q[if a < p then a else a - 1];
      assert Bare(old') || Fresh(s, old');
    }
  }

  /** If the copy is put behind the last unsequenced command and nothing before it is beyond its
      position, it stands behind command `i` and will be reached. */
  lemma MisledMeansPair(s: System, i: nat, k: nat, b: nat)
    requires Rivals(s, i, k) && i < b < |s.q| && s.q[b].unsequenced
    requires NoneLater(s.q, Wire(s.position), Wire(s.sent[k].reliable))
    ensures Pair(Longer(s, k, b + 1), s.sent[k].reliable, s.truth[s.q[i].id], k, i, b + 1)
  {
    hide Inv, Fresh, Longer, Bare;
    RivalKnown(s, i, k);
    RivalReach(s, i, k);
    var t, r := Longer(s, k, b + 1), s.sent[k].reliable;
    LongerAgrees(s, k, b + 1);
    LongerAt(s, k, b + 1, i);
    LongerAt(s, k, b + 1, b + 1);
    forall a | 0 <= a <= b + 1
      ensures !Beyond(t, t.q[a], r)
    {
      LongerAt(s, k, b + 1, a);
      if a <= b && !s.q[a].unsequenced {
        LaterIsBeyond(s, a, r);
      }
    }
  }

  lemma RivalKnown(s: System, i: nat, k: nat)
    requires Rivals(s, i, k)
    ensures !s.q[i].unsequenced && Known(s, s.q[i]) && k <= s.truth[s.q[i].id] < |s.sent|
    ensures NotYet(s, k) && NotYet(s, s.truth[s.q[i].id])
  {
  }

  lemma LongerAgrees(s: System, k: nat, p: nat)
    requires k < |s.sent| && p <= |s.q|
    ensures var t := Longer(s, k, p);
            |t.q| == |s.q| + 1 && t.sent == s.sent && t.position == s.position && t.delivered == s.delivered
  {
  }

  lemma RivalReach(s: System, i: nat, k: nat)
    requires Rivals(s, i, k)
    ensures k < |s.sent| && s.sent[k].reliable / WINDOW_SIZE <= s.position / WINDOW_SIZE + 6
    ensures s.position < s.sent[k].reliable < s.position + 36864
  {
  }

  /** No such pair stands in a list that has the invariant. */
  lemma NoPairAtFirst(s: System, i: nat, k: nat, a: nat, b: nat)
    requires Rivals(s, i, k)
    ensures !Pair(s, s.sent[k].reliable, s.truth[s.q[i].id], k, a, b)
  {
    if a < b < |s.q| && !s.q[a].unsequenced && !s.q[b].unsequenced { StandsBefore(s, a, b); }
  }

  /** A pair in the longer list consists of command `i` and the copy, behind it. */
  lemma PairIsCopy(s: System, i: nat, k: nat, p: nat, a: nat, b: nat)
    requires Rivals(s, i, k) && p <= |s.q| && (k == s.truth[s.q[i].id] ==> p > i)
    requires Pair(Longer(s, k, p), s.sent[k].reliable, s.truth[s.q[i].id], k, a, b)
    ensures a == i && b == p
  {
    hide Longer, Fresh, Inv, Bare;
    RivalKnown(s, i, k);
    LongerAgrees(s, k, p);
    LongerAt(s, k, p, a);
    LongerAt(s, k, p, b);
    var a', b' := if a < p then a else a - 1, if b < p then b else b - 1;
    if a != p && a' != i { if a' < i { StandsBefore(s, a', i); } else { StandsBefore(s, i, a'); } }
    if b != p { StandsBefore(s, i, b'); }
  }

  lemma PairMeansNoneLater(s: System, i: nat, k: nat, b: nat)
    requires Rivals(s, i, k) && i < b < |s.q| && forall j :: b < j < |s.q| ==> !s.q[j].unsequenced
    requires Pair(Longer(s, k, b + 1), s.sent[k].reliable, s.truth[s.q[i].id], k, i, b + 1)
    ensures NoneLater(s.q, Wire(s.position), Wire(s.sent[k].reliable))
  {
    hide Inv, Fresh, Longer, Bare;
    RivalKnown(s, i, k);
    RivalReach(s, i, k);
    LongerAgrees(s, k, b + 1);
    forall x, y | 0 <= x < y < |s.q| && !s.q[x].unsequenced && s.q[y].unsequenced
      ensures Ahead(s.q[x].reliable, Wire(s.position)) <= Ahead(Wire(s.sent[k].reliable), Wire(s.position))
    {
      LongerAt(s, k, b + 1, x);
      LaterIsBeyond(s, x, s.sent[k].reliable);
      assert !Beyond(Longer(s, k, b + 1), Longer(s, k, b + 1).q[x], s.sent[k].reliable);
    }
  }

  lemma PairIffMisled(s: System, i: nat, k: nat)
    requires Rivals(s, i, k)
    ensures (exists a: nat, b: nat :: Pair(Arrived(s, k), s.sent[k].reliable, s.truth[s.q[i].id], k, a, b))
            <==> Misled(s.q, Wire(s.position), Wire(s.sent[k].reliable), i)
  {
    hide Inv, Fresh, Pair, NoneLater, Longer, PassesUnsequenced, Scan;
    RivalKnown(s, i, k);
    var at, r, l := Wire(s.position), Wire(s.sent[k].reliable), s.truth[s.q[i].id];
    assert s.q[..|s.q|] == s.q;
    var last := ScanAmongRivals(s, i, k, |s.q|);
    var place := Scan(s.q, at, r, s.sent[k].unreliable);
    if place.Duplicate? {
      forall a: nat, b: nat
        ensures !Pair(s, s.sent[k].reliable, l, k, a, b)
      {
        NoPairAtFirst(s, i, k, a, b);
      }
    } else {
      if a: nat, b: nat :| Pair(Arrived(s, k), s.sent[k].reliable, l, k, a, b) {
        PairIsCopy(s, i, k, place.index, a, b);
        assert a < b by { PairAscends(Arrived(s, k), s.sent[k].reliable, l, k, a, b); }
        PairMeansNoneLater(s, i, k, last);
        assert Misled(s.q, at, r, i);
      }
      if Misled(s.q, at, r, i) {
        MisledMeansPair(s, i, k, last);
        assert Pair(Arrived(s, k), s.sent[k].reliable, l, k, i, last + 1);
      }
    }
  }

  lemma PairAscends(s: System, r: nat, l: nat, k: nat, i: nat, j: nat)
    requires Pair(s, r, l, k, i, j)
    ensures i < j
  {
  }

  lemma ArrivedShifts(s: System, i: nat, k: nat) returns (pre: seq<Arrival>, c: nat)
    requires Rivals(s, i, k)
    ensures AllAwaited(Arrived(s, k)) && Arrived(s, k).sent == s.sent && Arrived(s, k).position == s.position
    ensures Shifts(Arrived(s, k), Arrive(s, k, false), pre, c)
    ensures NotYet(Arrive(s, k, false), k) && NotYet(Arrive(s, k, false), s.truth[s.q[i].id])
  {
    hide Passed, Scan, Inv, Fresh, Longer, AllAwaited, NotYet;
    RivalKnown(s, i, k);
    RivalReach(s, i, k);
    AwaitedIsAccepted(s.sent[k].reliable, s.position);
    RivalsAwaited(s, i, k);
    var place := Scan(s.q, Wire(s.position), Wire(s.sent[k].reliable), s.sent[k].unreliable);
    if place.Duplicate? {
      pre, c := [], 0;
    } else {
      var t := Longer(s, k, place.index);
      LongerAgrees(s, k, place.index);
      LongerAwaited(s, k, place.index);
      StillNotYet(s, t, k);
      StillNotYet(s, t, s.truth[s.q[i].id]);
      pre := PassShifts(t, |s.truth|);
      c := StopIndex(t.q, Wire(s.position));
      PassNotYet(t, |s.truth|, k);
      PassNotYet(t, |s.truth|, s.truth[s.q[i].id]);
      assert Arrive(s, k, false) == Passed(t, |s.truth|) by { QueuedIsPassed(s, k, place.index); }
    }
  }

  lemma QueuedIsPassed(s: System, k: nat, p: nat)
    requires k < |s.sent| && p <= |s.q|
    ensures Queued(s, p, k) == Passed(Longer(s, k, p), |s.truth|)
  {
  }

  lemma StillNotYet(s: System, t: System, k: nat)
    requires NotYet(s, k) && t.delivered == s.delivered
    ensures NotYet(t, k)
  {
  }

  lemma RivalsAwaited(s: System, i: nat, k: nat)
    requires Rivals(s, i, k)
    ensures AllAwaited(s) && s.q == [] + s.q[0..]
  {
    forall a | 0 <= a < |s.q|
      ensures s.q[a].unsequenced || (Tracked(s, s.q[a]) && Origin(s, s.q[a]).reliable >= s.position)
    {
      assert Bare(s.q[a]) || Fresh(s, s.q[a]);
    }
  }

  /** A complete packet waits, for a later reliable position, at `i`; a packet sent under the same
      position, and not after it, arrives, and then the receiver reaches that position. The
      arriving packet is handed over after the waiting one exactly if the scan was misled. */
  lemma HandedAfterIff(s: System, i: nat, k: nat)
    requires Rivals(s, i, k)
    ensures Enabled(s, ArrivePacket(k))
    ensures var arrived, onwards := After(s, ArrivePacket(k)), Advance(s.sent[k].reliable - s.position);
            && Enabled(arrived, onwards)
            && (HandedAfter(After(arrived, onwards), s.truth[s.q[i].id], k)
                <==> Misled(s.q, Wire(s.position), Wire(s.sent[k].reliable), i))
  {
    hide Arrived, Inv, Fresh, Shifts, AllAwaited, Arrive, NotYet, Misled, Pair, HandedAfter;
    RivalKnown(s, i, k);
    RivalReach(s, i, k);
    var pre, c := ArrivedShifts(s, i, k);
    AdvanceHands(Arrived(s, k), Arrive(s, k, false), pre, c, s.truth[s.q[i].id], k);
    PairIffMisled(s, i, k);
  }

  /** A waiting packet that arrives again is handed over twice exactly if an unsequenced command
      behind it, which the scan does not pass, hides it, and nothing for a later position stands
      before the last unsequenced command. */
  lemma HandedOverTwiceIff(s: System, i: nat, k: nat)
    requires Inv(s) && i < |s.q| && !s.q[i].unsequenced && s.q[i].remaining == 0
    requires Fresh(s, s.q[i]) && s.truth[s.q[i].id] == k && s.sent[k].fragments == 0 && s.sent[k].reliable > s.position
    ensures var again := After(s, ArrivePacket(k));
            HandedAfter(After(again, Advance(s.sent[k].reliable - s.position)), k, k)
            <==> Misled(s.q, Wire(s.position), Wire(s.sent[k].reliable), i)
  {
    HandedAfterIff(s, i, k);
  }

  // ---------------------------------------------------------------- a packet handed over twice

  lemma StoppedAtOnce(q: seq<Arrival>, at: Word16, u: Word16, queued: int)
    requires q != [] && q[0].Stops(at)
    ensures Dispatch(q, at, u, queued) == Result([], q, [], u)
  {
    StopIndexIs(q, at, 0);
    assert q[..0] == [] && q[0..] == q;
  }

  lemma {:induction false} AllGoing(q: seq<Arrival>, at: Word16)
    requires forall i :: 0 <= i < |q| ==> q[i].Goes(at)
    ensures Going(q, at) == q && Staying(q, at) == []
  {
    if q != [] {
      AllGoing(q[..|q| - 1], at);
    }
  }

  lemma AllGoAtOnce(q: seq<Arrival>, at: Word16, u: Word16, queued: int)
    requires forall i :: 0 <= i < |q| ==> q[i].Goes(at)
    ensures Dispatch(q, at, u, queued) == Result(q, [], [], Latest(q, at, u))
  {
    StopIndexIs(q, at, |q|);
    assert q[..|q|] == q && q[|q|..] == [];
    AllGoing(q, at);
  }

  const EARLY := Arrival(0, false, 5, 1, 0)
  const UNSEQUENCED := Arrival(1, true, 0, 0, 0)
  const COPY := Arrival(2, false, 5, 1, 0)

  function Waits(q: seq<Arrival>, truth: seq<nat>): System {
    System(5, 1, [Sent(5, 1, 0)], 0, 0, q, truth, [])
  }

  lemma PacketIsSent()
    ensures var s0, s1 := System(0, 0, [], 0, 0, [], [], []), System(5, 0, [], 0, 0, [], [], []);
            && Initial(s0) && Enabled(s0, SubmitReliable(5)) && After(s0, SubmitReliable(5)) == s1
            && Enabled(s1, SubmitUnreliable(0)) && After(s1, SubmitUnreliable(0)) == Waits([], [])
  {
    assert [] + [Sent(5, 1, 0)] == [Sent(5, 1, 0)];
  }

  lemma FirstWaits()
    ensures Enabled(Waits([], []), ArrivePacket(0)) && After(Waits([], []), ArrivePacket(0)) == Waits([EARLY], [0])
  {
    var s := Waits([], []);
    assert Scan([], 0, 5, 1) == Slot(0);
    assert Inserted([], 0, EARLY) == [EARLY];
    StoppedAtOnce([EARLY], 0, 0, 0);
    hide Dispatch, Scan;
  }

  lemma UnsequencedWaits()
    ensures Enabled(Waits([EARLY], [0]), ArriveUnsequenced)
    ensures After(Waits([EARLY], [0]), ArriveUnsequenced) == Waits([EARLY, UNSEQUENCED], [0, 0])
  {
    var q := [EARLY, UNSEQUENCED];
    assert [EARLY] + [UNSEQUENCED] == q;
    StoppedAtOnce(q, 0, 0, 1);
    hide Dispatch;
  }

  lemma CopyWaits()
    ensures var s := Waits([EARLY, UNSEQUENCED], [0, 0]);
            && Enabled(s, ArrivePacket(0)) && !WellPlaced(s, ArrivePacket(0))
            && After(s, ArrivePacket(0)) == Waits([EARLY, UNSEQUENCED, COPY], [0, 0, 0])
  {
    var q, longer := [EARLY, UNSEQUENCED], [EARLY, UNSEQUENCED, COPY];
    assert Scan(q, 0, 5, 1) == Slot(2);
    assert Inserted(q, 2, COPY) == longer;
    StoppedAtOnce(longer, 0, 0, 2);
    hide Dispatch, Scan;
    assert !q[0].unsequenced && q[1].unsequenced && !Precedes(q[0], 5, 1, 0);
  }

  lemma BothAreHandedOver()
    ensures Enabled(Waits([EARLY, UNSEQUENCED, COPY], [0, 0, 0]), Advance(5))
    ensures After(Waits([EARLY, UNSEQUENCED, COPY], [0, 0, 0]), Advance(5))
            == System(5, 1, [Sent(5, 1, 0)], 5, 1, [], [0, 0, 0], [Delivery(0, 5), Delivery(0, 5)])
  {
    var q := [EARLY, UNSEQUENCED, COPY];
    assert forall i :: 0 <= i < 3 ==> q[i].Goes(5);
    AllGoAtOnce(q, 5, 0, -1);
    hide Dispatch, Going, Staying;
    assert q[..2] == [EARLY, UNSEQUENCED] && [EARLY, UNSEQUENCED][..1] == [EARLY] && [EARLY][..0] == [];
    assert Handed([EARLY], [0, 0, 0], 5) == [Delivery(0, 5)];
    assert Handed([EARLY, UNSEQUENCED], [0, 0, 0], 5) == [Delivery(0, 5)];
    assert Handed(q, [0, 0, 0], 5) == [Delivery(0, 5)] + [Delivery(0, 5)];
    assert Latest(q, 5, 0) == 1;
  }

  lemma CopyIsMisled()
    ensures var s := Waits([EARLY, UNSEQUENCED], [0, 0]);
            && Rivals(s, 0, 0) && s.truth[s.q[0].id] == 0 && s.sent[0].reliable == 5 && Misled(s.q, 0, 5, 0)
  {
    var q := [EARLY, UNSEQUENCED];
    assert !q[0].unsequenced && q[1].unsequenced && Bare(q[1]);
  }

  lemma CopyIsInstance()
    ensures var s := Waits([EARLY, UNSEQUENCED], [0, 0]);
            && Rivals(s, 0, 0) && Misled(s.q, 0, 5, 0)
            && HandedAfter(System(5, 1, [Sent(5, 1, 0)], 5, 1, [], [0, 0, 0], [Delivery(0, 5), Delivery(0, 5)]), 0, 0)
  {
    CopyIsMisled();
    CopyWaits();
    BothAreHandedOver();
    hide After, Rivals, Misled, HandedAfter, Enabled, Dispatch;
    HandedAfterIff(Waits([EARLY, UNSEQUENCED], [0, 0]), 0, 0);
  }

  /** The law fails. Right after connecting, an unreliable packet sent
      after five reliable ones arrives first and waits; an unsequenced packet queues up behind
      it; and the network delivers a copy of the first. The scan for the copy stops at the
      unsequenced command, the copy is queued as well, and once the five reliable packets are
      in, both are handed over. */
  lemma CopyIsHandedOverToo() returns (states: seq<System>, steps: seq<Step>)
    ensures Run(states, steps) && |steps| == 6
    ensures states[6].delivered == [Delivery(0, 5), Delivery(0, 5)]
    ensures !WellPlaced(states[4], steps[4])
    ensures Rivals(states[4], 0, 0) && Misled(states[4].q, 0, 5, 0) && HandedAfter(states[6], 0, 0)
  {
    PacketIsSent();
    FirstWaits();
    UnsequencedWaits();
    CopyWaits();
    BothAreHandedOver();
    CopyIsInstance();
    hide Rivals, Misled, HandedAfter;
    hide Initial, Enabled, After, WellPlaced, Waits;
    states := [System(0, 0, [], 0, 0, [], [], []), System(5, 0, [], 0, 0, [], [], []),
               Waits([], []), Waits([EARLY], [0]), Waits([EARLY, UNSEQUENCED], [0, 0]),
                   Waits([EARLY, UNSEQUENCED, COPY], [0, 0, 0]),
               System(5, 1, [Sent(5, 1, 0)], 5, 1, [], [0, 0, 0], [Delivery(0, 5), Delivery(0, 5)])];
    steps := [SubmitReliable(5), SubmitUnreliable(0), ArrivePacket(0), ArriveUnsequenced, ArrivePacket(0), Advance(5)];
  }
}
