/** How far ahead of its acknowledgements a sender can get: it does not leave a window of 4096
    numbers before one of them is acknowledged. */
module ReliableReach {
  import opened Windows
  import opened S = ReliableSender

  /** How many commands of channel `c` sent at least once are numbered from `lo` to below `hi`. */
  function Between(q: seq<OutCommand>, c: nat, lo: nat, hi: nat): nat {
    if q == [] then 0
    else (if q[0].AttemptedOn(c) && lo <= q[0].number < hi then 1 else 0) + Between(q[1..], c, lo, hi)
  }

  lemma {:induction false} BetweenOneMore(q: seq<OutCommand>, c: nat, lo: nat, hi: nat)
    requires lo <= hi
    ensures Between(q, c, lo, hi + 1) == Between(q, c, lo, hi) + Attempted(q, c)[hi]
  {
    if q != [] {
      BetweenOneMore(q[1..], c, lo, hi);
    }
  }

  lemma WindowOfNumber(n: nat, v: nat)
    requires v * WINDOW_SIZE <= n < (v + 1) * WINDOW_SIZE
    ensures WindowOf(Wire(n)) == v % WINDOWS
  {
    Split(n);
    assert n / WINDOW_SIZE == v;
  }

  lemma {:induction false} BetweenInWindow(q: seq<OutCommand>, c: nat, v: nat)
    requires Numbered(q)
    ensures Between(q, c, v * WINDOW_SIZE, (v + 1) * WINDOW_SIZE) <= InWindow(q, c, v % WINDOWS)
  {
    if q != [] {
      BetweenInWindow(q[1..], c, v);
      if q[0].AttemptedOn(c) && v * WINDOW_SIZE <= q[0].number < (v + 1) * WINDOW_SIZE {
        WindowOfNumber(q[0].number, v);
      }
    }
  }

  lemma {:induction false} BetweenAll(a: seq<OutCommand>, b: seq<OutCommand>, c: nat, lo: nat, hi: nat)
    requires lo <= hi && forall n :: lo <= n < hi ==> n in Attempted(a, c) + Attempted(b, c)
    ensures Between(a, c, lo, hi) + Between(b, c, lo, hi) >= hi - lo
    decreases hi
  {
    hide Between, Attempted;
    if lo < hi {
      BetweenAll(a, b, c, lo, hi - 1);
      BetweenOneMore(a, c, lo, hi - 1);
      BetweenOneMore(b, c, lo, hi - 1);
      assert hi - 1 in Attempted(a, c) + Attempted(b, c);
    }
  }

  /** With all its numbers outstanding, a window's counter is full. */
  lemma FullWindowIsCounted(s: Sender, c: nat, v: nat)
    requires Orderly(s) && c < |s.channels| && ChannelOk(s, c)
    requires forall n :: v * WINDOW_SIZE <= n < (v + 1) * WINDOW_SIZE ==> n in Outstanding(s, c)
    ensures s.channels[c].counts[v % WINDOWS] >= WINDOW_SIZE
  {
    BetweenAll(s.queue, s.sent, c, v * WINDOW_SIZE, (v + 1) * WINDOW_SIZE);
    BetweenInWindow(s.queue, c, v);
    BetweenInWindow(s.sent, c, v);
  }

  /** So the first number of a window is sent only when one of the window before is no longer
      outstanding. */
  lemma EntersAfterSome(s: Sender, c: nat, v: nat) returns (n: nat)
    requires Orderly(s) && c < |s.channels| && ChannelOk(s, c)
    requires s.queue != [] && s.queue[0].channel == c && s.queue[0].attempts < 1 && Admits(s, s.queue[0])
    requires s.queue[0].number == (v + 1) * WINDOW_SIZE
    ensures v * WINDOW_SIZE <= n < (v + 1) * WINDOW_SIZE && n !in Outstanding(s, c)
  {
    hide ChannelOk, Orderly, Outstanding;
    if forall m :: v * WINDOW_SIZE <= m < (v + 1) * WINDOW_SIZE ==> m in Outstanding(s, c) {
      FullWindowIsCounted(s, c, v);
      HeadEnters(s, v);
      assert false;
    }
    n :| v * WINDOW_SIZE <= n < (v + 1) * WINDOW_SIZE && n !in Outstanding(s, c);
  }

  lemma HeadEnters(s: Sender, v: nat)
    requires Orderly(s) && s.queue != [] && s.queue[0].number == (v + 1) * WINDOW_SIZE
    ensures s.queue[0].stored % WINDOW_SIZE == 0 && Before(s.queue[0].WindowIndex(), 1) == v % WINDOWS
  {
    var m := s.queue[0].number;
    WindowOfNumber(m, v + 1);
    assert m == WINDOWS * WINDOW_SIZE * (m / MODULUS) + Wire(m);
    assert Wire(m) == WINDOW_SIZE * (v + 1 - WINDOWS * (m / MODULUS));
  }
}
