/** 16-bit sequence numbers and the sixteen reliable windows they fall into.

    Every reliable command of a channel has an unbounded true number 1, 2, 3, ...; the
    program only ever stores the number modulo 2^16. This module relates the window
    arithmetic the program does on the stored numbers to the true ones. */
module Windows {
  const MODULUS: nat := 65536
  const WINDOW_SIZE: nat := 4096
  const WINDOWS: nat := 16
  const FREE_WINDOWS: nat := 8

  /** A 16-bit field. */
  type Word16 = q: int | 0 <= q < 65536

  /** What a true number looks like in a 16-bit field. */
  function Wire(number: nat): Word16 { number % MODULUS }

  /** The window of a stored number: the index into reliableWindows. */
  function WindowOf(q: Word16): (w: nat)
    ensures w < WINDOWS
  {
    q / WINDOW_SIZE
  }

  /** The receiver's window of `q` counted from the window of its own position `current`,
      with sixteen added when `q` is numerically below `current`. */
  function RelativeWindow(q: Word16, current: Word16): int
  {
    WindowOf(q) + (if q < current then WINDOWS else 0) - WindowOf(current)
  }

  /** The receiver takes relative windows 0 to 6. */
  predicate Accepts(q: Word16, current: Word16)
  {
    0 <= RelativeWindow(q, current) < FREE_WINDOWS - 1
  }

  /** The receiver stays silent on relative windows 7 and 8 and acknowledges the rest. */
  predicate Acknowledges(q: Word16, current: Word16)
  {
    !(FREE_WINDOWS - 1 <= RelativeWindow(q, current) <= FREE_WINDOWS)
  }

  /** How far `q` lies ahead of `current`, going round the 16-bit circle. */
  function Ahead(q: Word16, current: Word16): (d: nat)
    ensures d < MODULUS
  {
    if q >= current then q - current else q + MODULUS - current
  }

  /** Whole turns and windows within the turn. */
  lemma Split(number: nat)
    ensures number == number / MODULUS * MODULUS + Wire(number)
    ensures number / WINDOW_SIZE == number / MODULUS * WINDOWS + WindowOf(Wire(number))
  {
    var turn, q := number / MODULUS, Wire(number);
    assert number == turn * MODULUS + q;
    assert number / WINDOW_SIZE == (turn * WINDOWS * WINDOW_SIZE + q) / WINDOW_SIZE;
  }

  /** A number less than a full turn ahead of the position shows its true distance. */
  lemma AheadIsDistance(number: nat, position: nat)
    requires position <= number < position + MODULUS
    ensures Ahead(Wire(number), Wire(position)) == number - position
    ensures RelativeWindow(Wire(number), Wire(position)) == number / WINDOW_SIZE - position / WINDOW_SIZE
  {
    Split(number);
    Split(position);
    SameOrNextTurn(number, position);
  }

  lemma SameOrNextTurn(number: nat, position: nat)
    requires position <= number < position + MODULUS
    ensures number / MODULUS == position / MODULUS + (if Wire(number) < Wire(position) then 1 else 0)
  {
    var turns := number / MODULUS - position / MODULUS;
    assert number - position == turns * MODULUS + Wire(number) - Wire(position);
    assert turns == 0 || turns == 1;
  }

  /** A number behind the position, by no more than a full turn, shows up ahead of it. */
  lemma BehindIsComplement(number: nat, position: nat)
    requires number < position <= number + MODULUS
    ensures Ahead(Wire(number), Wire(position)) == (MODULUS - (position - number)) % MODULUS
    ensures position - number < MODULUS ==>
              RelativeWindow(Wire(number), Wire(position)) == WINDOWS + number / WINDOW_SIZE - position / WINDOW_SIZE
  {
    if position == number + MODULUS {
      assert Wire(number) == Wire(position);
    } else {
      hide Wire, RelativeWindow, Ahead;
      NextTurn(number);
      AheadIsDistance(number + MODULUS, position);
      assert (MODULUS - (position - number)) % MODULUS == MODULUS - (position - number);
    }
  }

  lemma NextTurn(number: nat)
    ensures Wire(number + MODULUS) == Wire(number)
    ensures (number + MODULUS) / WINDOW_SIZE == number / WINDOW_SIZE + WINDOWS
  {
    Split(number);
    Split(number + MODULUS);
  }

  /** Of two numbers from position `r` on, less than a turn ahead, the program's comparison tells which is first. */
  lemma CompareAround(a: nat, b: nat, r: nat)
    requires r <= a < r + MODULUS && r <= b < r + MODULUS
    ensures Wire(a) >= Wire(r) && Wire(b) < Wire(r) ==> a < b
    ensures Wire(a) < Wire(r) && Wire(b) >= Wire(r) ==> b < a
    ensures (Wire(a) >= Wire(r)) == (Wire(b) >= Wire(r))
            ==> (a < b <==> Wire(a) < Wire(b)) && (a == b <==> Wire(a) == Wire(b))
  {
    AheadIsDistance(a, r);
    AheadIsDistance(b, r);
  }

  lemma WireAdds(a: nat, k: nat)
    ensures (Wire(a) + k) % MODULUS == Wire(a + k)
  {
    TurnsVanish(Wire(a) + k, a / MODULUS);
    assert a + k == Wire(a) + k + a / MODULUS * MODULUS;
  }

  lemma {:induction false} TurnsVanish(x: nat, turns: nat)
    ensures (x + turns * MODULUS) % MODULUS == x % MODULUS
  {
    if turns > 0 {
      TurnsVanish(x, turns - 1);
      assert x + turns * MODULUS == x + (turns - 1) * MODULUS + MODULUS;
    }
  }

  /** Distinct true numbers less than a full turn apart never share a 16-bit number. */
  lemma NoAlias(a: nat, b: nat)
    requires Wire(a) == Wire(b)
    requires a < b + MODULUS && b < a + MODULUS
    ensures a == b
  {
  }

  /** The 10-window mask the sender tests before it enters window `w`, bit by bit: the left
      shift gives windows w, w+1, ... and the right shift the ones that wrapped. */
  predicate InEntryMask(w: nat, v: nat)
    requires w < WINDOWS && v < WINDOWS
  {
    w <= v < w + FREE_WINDOWS + 2 || v + WINDOWS - w < FREE_WINDOWS + 2
  }

  /** The mask covers exactly the ten windows from `w` on, modulo sixteen; so clear means
      that everything outstanding lies in the six windows before `w`. */
  lemma EntryMaskIsTenWindows(w: nat, v: nat)
    requires w < WINDOWS && v < WINDOWS
    ensures InEntryMask(w, v) <==> !(exists back: nat :: 1 <= back <= 6 && v == Before(w, back))
  {
    if !InEntryMask(w, v) {
      var back := if v < w then w - v else w + WINDOWS - v;
      assert 1 <= back <= 6 && v == Before(w, back);
    }
  }

  /** The window `back` places before window `w`. */
  function Before(w: nat, back: nat): nat
    requires back <= WINDOWS
  {
    (w + WINDOWS - back) % WINDOWS
  }

  predicate BitSet(word: bv32, i: bv6)
    requires i < 32
  {
    (word >> i) & 1 == 1
  }

  predicate InEntryMaskBits(w: bv6, v: bv6)
    requires w < 16 && v < 16
  {
    (w <= v && v < w + 10) || v + 16 - w < 10
  }

  function EntryMask(w: bv6): bv32
    requires w < 16
  {
    (0x3FF << w) | (0x3FF >> (16 - w))
  }

  lemma EntryMaskBit(used: bv32, w: bv6, v: bv6)
    requires w < 16 && v < 16
    ensures BitSet(used & EntryMask(w), v) == (BitSet(used, v) && InEntryMaskBits(w, v))
  {
  }

  lemma NoBitsIsZero(word: bv32)
    requires word < 0x10000
    requires forall v: bv6 {:trigger BitSet(word, v)} :: v < 16 ==> !BitSet(word, v)
    ensures word == 0
  {
    assert !BitSet(word, 0) && !BitSet(word, 1) && !BitSet(word, 2) && !BitSet(word, 3) && !BitSet(word, 4)
        && !BitSet(word, 5) && !BitSet(word, 6) && !BitSet(word, 7) && !BitSet(word, 8) && !BitSet(word, 9)
        && !BitSet(word, 10) && !BitSet(word, 11) && !BitSet(word, 12) && !BitSet(word, 13)
        && !BitSet(word, 14) && !BitSet(word, 15);
  }

  lemma AndStaysSmall(used: bv32, mask: bv32)
    requires used < 0x10000
    ensures used & mask < 0x10000
  {
  }

  /** The C expression for the mask, on real 32-bit words: for a 16-bit `used`, it is disjoint
      from the mask exactly if no bit the mask covers is set in it. */
  lemma EntryMaskExpression(used: bv32, w: bv6)
    requires w < 16 && used < 0x10000
    ensures used & EntryMask(w) == 0
            <==> forall v: bv6 :: v < 16 && InEntryMaskBits(w, v) ==> !BitSet(used, v)
  {
    var both := used & EntryMask(w);
    AndStaysSmall(used, EntryMask(w));
    forall v: bv6 | v < 16
      ensures BitSet(both, v) == (BitSet(used, v) && InEntryMaskBits(w, v))
    {
      EntryMaskBit(used, w, v);
    }
    if forall v: bv6 :: v < 16 && InEntryMaskBits(w, v) ==> !BitSet(used, v) {
      NoBitsIsZero(both);
    } else {
      var v: bv6 :| v < 16 && InEntryMaskBits(w, v) && BitSet(used, v);
      assert BitSet(both, v);
      assert both != 0;
    }
  }
}
