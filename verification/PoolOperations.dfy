/** What each operation of a thread comes to, from its start to its end, whatever the other threads
    do between its steps: a released block stays on top of the cache and is what the next acquisition
    hands out, one is made anew only if there was none to be had, and a block goes back to the
    allocator only for one of four reasons. */
module PoolOperations {
  import opened BufferPool
  import opened PoolSafety

  // ---------------------------------------------------------------- operations in a run

  function At(states: seq<System>, k: nat, t: nat): Thread {
    if k < |states| && t < |states[k].threads| then states[k].threads[t] else Thread([], ZERO, Idle)
  }

  /** Step `k` is one of thread `t`. */
  predicate Mine(steps: seq<Step>, t: nat, k: nat) {
    k < |steps| && steps[k].Step? && steps[k].t == t
  }

  /** Step `n` starts an operation of thread `t`, and up to state `m` it starts no other. */
  ghost predicate Under(states: seq<System>, steps: seq<Step>, t: nat, n: nat, m: nat) {
    && n < m < |states| == |steps| + 1 && Mine(steps, t, n) && !steps[n].action.Continue?
    && forall k: nat :: n < k < m && Mine(steps, t, k) ==> steps[k].action.Continue?
  }

  /** A step of another thread leaves this one alone. */
  lemma Moves(states: seq<System>, steps: seq<Step>, t: nat, k: nat)
    requires Run(states, steps) && k < |steps|
    ensures Enabled(states[k], steps[k]) && states[k + 1] == After(states[k], steps[k])
    ensures |states[k + 1].threads| == |states[k].threads|
    ensures Mine(steps, t, k) ==> t < |states[k].threads|
    ensures !Mine(steps, t, k) ==> At(states, k + 1, t) == At(states, k, t)
  {
    ThreadsStay(states[k], steps[k]);
    if steps[k].Step? { OthersStay(states[k], steps[k].t, steps[k].action); }
    hide After;
  }

  lemma UnderBefore(states: seq<System>, steps: seq<Step>, t: nat, n: nat, m: nat)
    requires Under(states, steps, t, n, m) && n + 1 < m
    ensures Under(states, steps, t, n, m - 1) && (Mine(steps, t, m - 1) ==> steps[m - 1].action.Continue?)
  {
  }

  lemma IdleAtFirst(states: seq<System>, steps: seq<Step>, t: nat)
    requires Run(states, steps)
    ensures At(states, 0, t).pc == Idle
  {
  }

  lemma UnderAfter(states: seq<System>, steps: seq<Step>, t: nat, n: nat, m: nat)
    requires Under(states, steps, t, n, m) && m + 1 < |states| && (Mine(steps, t, m) ==> steps[m].action.Continue?)
    ensures Under(states, steps, t, n, m + 1)
  {
  }

  lemma UnderStarts(states: seq<System>, steps: seq<Step>, t: nat, n: nat)
    requires |states| == |steps| + 1 && Mine(steps, t, n) && !steps[n].action.Continue?
    ensures Under(states, steps, t, n, n + 1)
  {
  }

  /** A thread that is idle does not continue. */
  lemma BusyBefore(states: seq<System>, steps: seq<Step>, t: nat, m: nat)
    requires Run(states, steps) && m < |steps| && Mine(steps, t, m) && steps[m].action.Continue?
    ensures At(states, m, t).pc != Idle
  {
    Moves(states, steps, t, m);
    hide Run, After;
  }

  /** A thread that is not idle is in the middle of some operation. */
  lemma {:induction false} Began(states: seq<System>, steps: seq<Step>, t: nat, m: nat) returns (n: nat)
    requires Run(states, steps) && m < |states| && At(states, m, t).pc != Idle
    ensures Under(states, steps, t, n, m)
    decreases m
  {
    hide Under, At, After, Enabled, Initial;
    if m == 0 {
      IdleAtFirst(states, steps, t);
      assert false;
    } else if Mine(steps, t, m - 1) && !steps[m - 1].action.Continue? {
      n := m - 1;
      UnderStarts(states, steps, t, n);
    } else {
      Moves(states, steps, t, m - 1);
      if Mine(steps, t, m - 1) { BusyBefore(states, steps, t, m - 1); }
      n := Began(states, steps, t, m - 1);
      UnderAfter(states, steps, t, n, m - 1);
    }
  }

  // ---------------------------------------------------------------- releasing

  /** Block `a` goes back to the allocator in a step of thread `t` between `n` and `m`. */
  ghost predicate Freed(states: seq<System>, steps: seq<Step>, t: nat, n: nat, m: nat, a: Address) {
    exists k: nat :: n < k < m < |states| && Mine(steps, t, k) && a in states[k].blocks && a !in states[k + 1].blocks
  }

  predicate Keeps(th: Thread, cached: bool) { cached && |th.slots| < MAX_RETAINED }

  /** How a release stands. */
  ghost predicate ReleaseAt(states: seq<System>, steps: seq<Step>, t: nat, n: nat, m: nat, a: Address, cached: bool) {
    var was, th := At(states, n, t), At(states, m, t);
    if Keeps(was, cached) then (th.pc == Idle || (th.pc.Flushing? && th.pc.next == Nothing))
        && th.slots == was.slots + [a]
    else th.slots == was.slots
         && (th.pc == Freeing(a) || (th.pc.Flushing? && th.pc.next == FreeOne(a))
             || (th.pc == Idle && Freed(states, steps, t, n, m, a)))
  }

  lemma ReleaseStarts(states: seq<System>, steps: seq<Step>, t: nat, n: nat)
    requires Run(states, steps) && n < |steps| && Mine(steps, t, n) && steps[n].action.Release?
    ensures ReleaseAt(states, steps, t, n, n + 1, steps[n].action.block, steps[n].action.cached)
  {
    Moves(states, steps, t, n);
  }

  lemma ReleaseGoesOn(states: seq<System>, steps: seq<Step>, t: nat, n: nat, m: nat, a: Address, cached: bool)
    requires Run(states, steps) && n < m < |steps| && Mine(steps, t, m) && steps[m].action.Continue? && Inv(states[m])
    requires ReleaseAt(states, steps, t, n, m, a, cached)
    ensures ReleaseAt(states, steps, t, n, m + 1, a, cached)
  {
    hide Inv, Take, Push, Adopt, Released;
    Moves(states, steps, t, m);
    hide Run;
    hide Freed;
    if states[m].threads[t].pc == Freeing(a) {
      LeavingIsBlock(states[m], t, a);
      FreedNow(states, steps, t, n, m, a);
    }
  }

  /** What a thread is about to free is still a block. */
  lemma LeavingIsBlock(s: System, t: nat, a: Address)
    requires Inv(s) && t < |s.threads| && a in Held(s.threads[t])
    ensures a in s.blocks && a !in s.live && a !in s.stack
  {
    hide Held;
    HeldAlone(s, t, a);
  }

  // ---------------------------------------------------------------- acquiring

  /** The thread saw blocks on the orphan stack when it looked, at step `j`, and does nothing more
      until step `k`. */
  ghost predicate SawSome(states: seq<System>, steps: seq<Step>, t: nat, n: nat, j: nat, k: nat) {
    && n < j < k < |states| && Mine(steps, t, j) && At(states, j, t).pc == AdoptLoad && states[j].head != 0
    && forall i: nat :: j < i < k ==> !Mine(steps, t, i)
  }

  /** At step `k` it found none: when it looked, or when it came to take them. */
  ghost predicate SawNone(states: seq<System>, steps: seq<Step>, t: nat, n: nat, k: nat) {
    && n < k < |states| && Mine(steps, t, k) && states[k].head == 0
    && (At(states, k, t).pc == AdoptLoad
        || (At(states, k, t).pc == AdoptTake && exists j: nat :: SawSome(states, steps, t, n, j, k)))
  }

  /** At step `k` it took the stack, which began at `first`. */
  ghost predicate Took(states: seq<System>, steps: seq<Step>, t: nat, n: nat, k: nat, first: Address) {
    && n < k < |states| && Mine(steps, t, k) && At(states, k, t).pc == AdoptTake && states[k].head == first
    && exists j: nat :: SawSome(states, steps, t, n, j, k)
  }

  /** The top of the cache is handed out, and counted as a hit. */
  ghost predicate Hit(s: System, s': System, t: nat) {
    && t < |s.threads| == |s'.threads| && s.threads[t].slots != []
    && var th, th', n := s.threads[t], s'.threads[t], |s.threads[t].slots| - 1;
       && th.slots[n] in s.blocks && th.slots[n] !in s.live && s'.live == s.live + {th.slots[n]}
       && s'.blocks == s.blocks
       && th'.slots == th.slots[..n] && Hits(th') == Hits(th) + 1 && Misses(th') == Misses(th)
  }

  /** A new block is handed out, and counted as a miss. */
  ghost predicate Miss(s: System, s': System, t: nat, a: Address) {
    && t < |s.threads| == |s'.threads| && s.threads[t].slots == []
    && var th, th' := s.threads[t], s'.threads[t];
       && a !in s.blocks && s'.live == s.live + {a} && s'.blocks == s.blocks + {a}
       && th'.slots == [] && Hits(th') == Hits(th) && Misses(th') == Misses(th) + 1
  }

  ghost predicate Missed(s: System, s': System, t: nat) { exists a: Address :: Miss(s, s', t, a) }

  /** At step `k` an acquisition hands out a block: a cached one, if there was one at the start or
      was one to adopt, and otherwise a new one. */
  ghost predicate HandsOut(states: seq<System>, steps: seq<Step>, t: nat, n: nat, k: nat) {
    && n < k < |states| - 1 && Mine(steps, t, k) && At(states, k, t).pc == Taking
    && var was := At(states, n, t).slots;
       if At(states, k, t).slots != []
           then Hit(states[k], states[k + 1], t) && (was != [] ==> At(states, k, t).slots == was)
       else was == [] && Missed(states[k], states[k + 1], t)
            && exists i: nat :: i < k && SawNone(states, steps, t, n, i)
  }

  /** How an acquisition stands. */
  ghost predicate AcquireAt(states: seq<System>, steps: seq<Step>, t: nat, n: nat, m: nat) {
    var was, th := At(states, n, t).slots, At(states, m, t);
    match th.pc
    case AdoptLoad => was == [] && th.slots == []
    case AdoptTake => was == [] && th.slots == [] && exists j: nat :: SawSome(states, steps, t, n, j, m)
    case Adopting(chain, _, kept, trimmed) =>
      was == [] && (th.slots == [] ==> kept == trimmed == 0 && exists k: nat ::
          k < m && Took(states, steps, t, n, k, chain))
    case AdoptLower(_, _) => was == [] && th.slots != []
    case AdoptCounted(_) => was == [] && th.slots != []
    case AdoptDrained(_) => was == [] && th.slots != []
    case Taking =>
      if was != [] then th.slots == was
      else th.slots == [] ==> exists k: nat :: k < m && SawNone(states, steps, t, n, k)
    case Flushing(_, next) => next == Nothing && exists k: nat :: k < m && HandsOut(states, steps, t, n, k)
    case Idle => exists k: nat :: k < m && HandsOut(states, steps, t, n, k)
    case _ => false
  }

  lemma AcquireStarts(states: seq<System>, steps: seq<Step>, t: nat, n: nat)
    requires Run(states, steps) && n < |steps| && Mine(steps, t, n) && steps[n].action.Acquire?
    ensures AcquireAt(states, steps, t, n, n + 1)
  {
    Moves(states, steps, t, n);
  }

  lemma AcquireWaits(states: seq<System>, steps: seq<Step>, t: nat, n: nat, m: nat)
    requires n < m < |states| - 1 && !Mine(steps, t, m) && At(states, m + 1, t) == At(states, m, t)
    requires AcquireAt(states, steps, t, n, m)
    ensures AcquireAt(states, steps, t, n, m + 1)
  {
    hide HandsOut, SawNone, Took;
    if At(states, m, t).pc == AdoptTake {
      var j: nat :| SawSome(states, steps, t, n, j, m);
      assert SawSome(states, steps, t, n, j, m + 1);
    }
  }

  /** The looking and taking part of an acquisition. */
  lemma AdoptGoesOn(states: seq<System>, steps: seq<Step>, t: nat, n: nat, m: nat)
    requires n < m < |states| - 1 && Mine(steps, t, m) && t < |states[m].threads|
             && states[m + 1] == Adopt(states[m], t)
    requires At(states, m, t).pc.AdoptLoad? || At(states, m, t).pc.AdoptTake?
    requires AcquireAt(states, steps, t, n, m) && |states[m + 1].threads| == |states[m].threads|
    ensures AcquireAt(states, steps, t, n, m + 1)
  {
    var s := states[m];
    if s.threads[t].pc == AdoptLoad {
      if s.head == 0 {
        assert SawNone(states, steps, t, n, m);
      } else {
        assert SawSome(states, steps, t, n, m, m + 1);
      }
    } else {
      assert Took(states, steps, t, n, m, s.head);
    }
  }

  lemma AdoptingGoesOn(states: seq<System>, steps: seq<Step>, t: nat, n: nat, m: nat)
    requires n < m < |states| - 1 && Mine(steps, t, m) && t < |states[m].threads|
             && states[m + 1] == Adopt(states[m], t)
    requires At(states, m, t).pc.Adopting? || At(states, m, t).pc.AdoptLower? || At(states, m, t).pc.AdoptCounted?
             || At(states, m, t).pc.AdoptDrained?
    requires AcquireAt(states, steps, t, n, m) && |states[m + 1].threads| == |states[m].threads|
    ensures AcquireAt(states, steps, t, n, m + 1)
  {
    hide SawSome;
    var th := states[m].threads[t];
    if th.pc.Adopting? && th.pc.chain == 0 && th.slots == [] {
      var k: nat :| k < m && Took(states, steps, t, n, k, 0);
      assert SawNone(states, steps, t, n, k);
    }
  }

  lemma TakeGoesOn(states: seq<System>, steps: seq<Step>, t: nat, n: nat, m: nat)
    requires Run(states, steps) && n < m < |steps| && Mine(steps, t, m) && steps[m].action.Continue? && Inv(states[m])
    requires At(states, m, t).pc == Taking && AcquireAt(states, steps, t, n, m)
    ensures AcquireAt(states, steps, t, n, m + 1)
  {
    hide Inv, SawNone;
    Moves(states, steps, t, m);
    hide Run;
    var s, s', th := states[m], states[m + 1], states[m].threads[t];
    var action := steps[m].action;
    if th.slots != [] {
      TopIsBlock(s, t);
      assert Hit(s, s', t);
    } else {
      assert Miss(s, s', t, action.fresh');
      assert Missed(s, s', t);
    }
    hide Hit, Missed;
    assert HandsOut(states, steps, t, n, m);
  }

  /** The slots of a thread that is not draining hold blocks. */
  lemma TopIsBlock(s: System, t: nat)
    requires Inv(s) && t < |s.threads| && !s.threads[t].pc.DrainSlots?
    ensures forall a :: a in s.threads[t].slots ==> a in s.blocks && a !in s.live && a !in s.stack
  {
    hide Inv;
    forall a | a in s.threads[t].slots
      ensures a in s.blocks && a !in s.live && a !in s.stack
    {
      assert a in multiset(s.threads[t].slots);
      LeavingIsBlock(s, t, a);
    }
  }

  lemma AcquireGoesOn(states: seq<System>, steps: seq<Step>, t: nat, n: nat, m: nat)
    requires Run(states, steps) && n < m < |steps| && Mine(steps, t, m) && steps[m].action.Continue? && Inv(states[m])
    requires AcquireAt(states, steps, t, n, m)
    ensures AcquireAt(states, steps, t, n, m + 1)
  {
    hide Inv, HandsOut, SawNone, SawSome, Took, Adopt, Take;
    Moves(states, steps, t, m);
    var pc := states[m].threads[t].pc;
    if pc.AdoptLoad? || pc.AdoptTake? {
      AdoptGoesOn(states, steps, t, n, m);
    } else if pc.Adopting? || pc.AdoptLower? || pc.AdoptCounted? || pc.AdoptDrained? {
      AdoptingGoesOn(states, steps, t, n, m);
    } else if pc.Taking? {
      TakeGoesOn(states, steps, t, n, m);
    }
  }

  // ---------------------------------------------------------------- draining

  ghost predicate AllFreed(states: seq<System>, steps: seq<Step>, t: nat, n: nat, m: nat, q: seq<Address>) {
    forall i :: 0 <= i < |q| ==> Freed(states, steps, t, n, m, q[i])
  }

  /** A drain took the stack at step `k`, and has freed it but for `rest`. */
  ghost predicate Drains(states: seq<System>, steps: seq<Step>, t: nat, n: nat, k: nat, m: nat, rest: seq<Address>) {
    && n < k < m && k < |states| - 1 && Mine(steps, t, k) && At(states, k, t).pc.DrainTake?
    && states[k + 1].head == 0 && states[k + 1].stack == []
    && |rest| <= |states[k].stack| && states[k].stack[|states[k].stack| - |rest|..] == rest
    && AllFreed(states, steps, t, n, m, states[k].stack[..|states[k].stack| - |rest|])
  }

  /** How a drain stands. */
  ghost predicate DrainAt(states: seq<System>, steps: seq<Step>, t: nat, n: nat, m: nat) {
    var was, th := At(states, n, t).slots, At(states, m, t);
    if th.pc.DrainSlots? then
      th.slots == was && th.pc.i <= |was| && AllFreed(states, steps, t, n, m, was[..th.pc.i])
    else
      && th.slots == [] && AllFreed(states, steps, t, n, m, was)
      && match th.pc
         case Flushing(_, next) => next == TakeOrphans(|was|)
         case DrainTake(count) => count == |was|
         case Draining(_, rest, _, _) => exists k: nat :: Drains(states, steps, t, n, k, m, rest)
         case DrainLower(_, _) => exists k: nat :: Drains(states, steps, t, n, k, m, [])
         case DrainRetained(_, _) => exists k: nat :: Drains(states, steps, t, n, k, m, [])
         case DrainCount(_) => exists k: nat :: Drains(states, steps, t, n, k, m, [])
         case Idle => exists k: nat :: Drains(states, steps, t, n, k, m, [])
         case _ => false
  }

  lemma DrainStarts(states: seq<System>, steps: seq<Step>, t: nat, n: nat)
    requires Run(states, steps) && n < |steps| && Mine(steps, t, n) && steps[n].action.Drain?
    ensures DrainAt(states, steps, t, n, n + 1)
  {
    Moves(states, steps, t, n);
  }

  lemma FreedStays(states: seq<System>, steps: seq<Step>, t: nat, n: nat, m: nat, q: seq<Address>)
    requires n < m < |states| - 1 && AllFreed(states, steps, t, n, m, q)
    ensures AllFreed(states, steps, t, n, m + 1, q)
  {
  }

  lemma DrainsStays(states: seq<System>, steps: seq<Step>, t: nat, n: nat, k: nat, m: nat, rest: seq<Address>)
    requires n < m < |states| - 1 && Drains(states, steps, t, n, k, m, rest)
    ensures Drains(states, steps, t, n, k, m + 1, rest)
  {
    hide AllFreed;
    FreedStays(states, steps, t, n, m, states[k].stack[..|states[k].stack| - |rest|]);
  }

  lemma DrainWaits(states: seq<System>, steps: seq<Step>, t: nat, n: nat, m: nat)
    requires n < m < |states| - 1 && At(states, m + 1, t) == At(states, m, t) && DrainAt(states, steps, t, n, m)
    ensures DrainAt(states, steps, t, n, m + 1)
  {
    hide AllFreed, Drains;
    var was, th := At(states, n, t).slots, At(states, m, t);
    FreedStays(states, steps, t, n, m, if th.pc.DrainSlots? then was[..th.pc.i] else was);
    var rest := if th.pc.Draining? then th.pc.rest else [];
    if k: nat :| Drains(states, steps, t, n, k, m, rest) {
      DrainsStays(states, steps, t, n, k, m, rest);
    }
  }

  lemma DrainSlotsGoOn(states: seq<System>, steps: seq<Step>, t: nat, n: nat, m: nat)
    requires n < m < |states| - 1 && Mine(steps, t, m) && t < |states[m].threads|
             && states[m + 1] == DrainOn(states[m], t)
    requires Inv(states[m]) && At(states, m, t).pc.DrainSlots? && DrainAt(states, steps, t, n, m)
    requires |states[m + 1].threads| == |states[m].threads|
    ensures DrainAt(states, steps, t, n, m + 1)
  {
    hide Inv, AllFreed, Drains;
    var s, was, th := states[m], At(states, n, t).slots, states[m].threads[t];
    var i := th.pc.i;
    FreedStays(states, steps, t, n, m, was[..i]);
    if i < |was| {
      assert Slots(th) == was[i..] && was[i] in multiset(was[i..]);
      LeavingIsBlock(s, t, was[i]);
      assert Freed(states, steps, t, n, m + 1, was[i]);
      OneMoreFreed(states, steps, t, n, m + 1, was, i);
    } else {
      assert was[..i] == was;
    }
  }

  lemma OneMoreFreed(states: seq<System>, steps: seq<Step>, t: nat, n: nat, m: nat, q: seq<Address>, i: nat)
    requires i < |q| && AllFreed(states, steps, t, n, m, q[..i]) && Freed(states, steps, t, n, m, q[i])
    ensures AllFreed(states, steps, t, n, m, q[..i + 1])
  {
    hide Freed;
    var q' := q[..i + 1];
    forall j | 0 <= j < |q'|
      ensures Freed(states, steps, t, n, m, q'[j])
    {
      if j < i { assert q'[j] == q[..i][j]; }
    }
  }

  lemma DrainTakeGoesOn(states: seq<System>, steps: seq<Step>, t: nat, n: nat, m: nat)
    requires n < m < |states| - 1 && Mine(steps, t, m) && t < |states[m].threads|
             && states[m + 1] == DrainOn(states[m], t)
    requires At(states, m, t).pc.DrainTake? && DrainAt(states, steps, t, n, m)
    requires |states[m + 1].threads| == |states[m].threads|
    ensures DrainAt(states, steps, t, n, m + 1)
  {
    hide Freed;
    var q := states[m].stack;
    assert q[..|q| - |q|] == [] && q[|q| - |q|..] == q;
    assert Drains(states, steps, t, n, m, m + 1, q);
    FreedStays(states, steps, t, n, m, At(states, n, t).slots);
  }

  lemma DrainingGoesOn(states: seq<System>, steps: seq<Step>, t: nat, n: nat, m: nat)
    requires n < m < |states| - 1 && Mine(steps, t, m) && t < |states[m].threads|
             && states[m + 1] == DrainOn(states[m], t)
    requires Inv(states[m]) && At(states, m, t).pc.Draining? && DrainAt(states, steps, t, n, m)
    requires |states[m + 1].threads| == |states[m].threads|
    ensures DrainAt(states, steps, t, n, m + 1)
  {
    hide Inv, Freed, AllFreed, Drains;
    var s, th := states[m], states[m].threads[t];
    FreedStays(states, steps, t, n, m, At(states, n, t).slots);
    var rest := th.pc.rest;
    var k: nat :| Drains(states, steps, t, n, k, m, rest);
    ChainHeads(s, t);
    if th.pc.chain == 0 {
      DrainsStays(states, steps, t, n, k, m, []);
    } else {
      assert rest[0] in multiset(rest);
      LeavingIsBlock(s, t, rest[0]);
      assert Freed(states, steps, t, n, m + 1, rest[0]) by { FreedNow(states, steps, t, n, m, rest[0]); }
      DrainsMore(states, steps, t, n, k, m, rest);
    }
  }

  lemma FreedNow(states: seq<System>, steps: seq<Step>, t: nat, n: nat, m: nat, a: Address)
    requires n < m < |states| - 1 && Mine(steps, t, m) && a in states[m].blocks && a !in states[m + 1].blocks
    ensures Freed(states, steps, t, n, m + 1, a)
  {
  }

  lemma ChainHeads(s: System, t: nat)
    requires Inv(s) && t < |s.threads| && s.threads[t].pc.Draining?
    ensures var pc := s.threads[t].pc; if pc.rest == [] then pc.chain == 0 else pc.chain == pc.rest[0] != 0
    ensures Chain(s.threads[t]) == s.threads[t].pc.rest
  {
    ThreadIsOk(s, t);
    hide Inv;
  }

  lemma DrainsMore(states: seq<System>, steps: seq<Step>, t: nat, n: nat, k: nat, m: nat, rest: seq<Address>)
    requires n < m < |states| - 1 && rest != [] && Drains(states, steps, t, n, k, m, rest)
    requires Freed(states, steps, t, n, m + 1, rest[0])
    ensures Drains(states, steps, t, n, k, m + 1, rest[1..])
  {
    hide Freed, AllFreed;
    var q := states[k].stack;
    var i := |q| - |rest|;
    assert q[i] == q[i..][0] && q[i + 1..] == q[i..][1..];
    FreedStays(states, steps, t, n, m, q[..i]);
    OneMoreFreed(states, steps, t, n, m + 1, q, i);
  }

  /** The rest of a drain only counts. */
  lemma DrainCountGoesOn(states: seq<System>, steps: seq<Step>, t: nat, n: nat, m: nat)
    requires Run(states, steps) && n < m < |steps| && Mine(steps, t, m) && steps[m].action.Continue?
    requires DrainAt(states, steps, t, n, m)
    requires var pc := At(states, m, t).pc; pc.Flushing? || pc.DrainLower? || pc.DrainRetained? || pc.DrainCount?
    ensures DrainAt(states, steps, t, n, m + 1)
  {
    hide AllFreed, Drains;
    Moves(states, steps, t, m);
    FreedStays(states, steps, t, n, m, At(states, n, t).slots);
    if !At(states, m, t).pc.Flushing? {
      var k: nat :| Drains(states, steps, t, n, k, m, []);
      DrainsStays(states, steps, t, n, k, m, []);
    }
  }

  lemma DrainGoesOn(states: seq<System>, steps: seq<Step>, t: nat, n: nat, m: nat)
    requires Run(states, steps) && n < m < |steps| && Mine(steps, t, m) && steps[m].action.Continue? && Inv(states[m])
    requires DrainAt(states, steps, t, n, m)
    ensures DrainAt(states, steps, t, n, m + 1)
  {
    hide Inv, AllFreed, Drains, DrainOn;
    Moves(states, steps, t, m);
    var pc := At(states, m, t).pc;
    if pc.DrainSlots? {
      DrainSlotsGoOn(states, steps, t, n, m);
    } else if pc.DrainTake? {
      DrainTakeGoesOn(states, steps, t, n, m);
    } else if pc.Draining? {
      DrainingGoesOn(states, steps, t, n, m);
    } else {
      DrainCountGoesOn(states, steps, t, n, m);
    }
  }

  // ---------------------------------------------------------------- retiring

  /** The cached blocks are pushed on the stack in one step, at `k`. */
  ghost predicate PushedAt(states: seq<System>, steps: seq<Step>, t: nat, n: nat, k: nat, q: seq<Address>) {
    && n < k < |states| - 1 && Mine(steps, t, k) && At(states, k, t).pc.Swapping?
    && q != [] && states[k + 1].stack == q + states[k].stack && states[k + 1].head == q[0]
  }

  /** How the retirement of a cache stands. */
  ghost predicate RetireAt(states: seq<System>, steps: seq<Step>, t: nat, n: nat, m: nat) {
    var was, th := At(states, n, t).slots, At(states, m, t);
    match th.pc
    case Linking(_) => th.slots == was != []
    case Raising => th.slots == was != []
    case Loading => th.slots == was != []
    case Writing(_) => th.slots == was != []
    case Swapping(_) => th.slots == was != []
    case Flushing(_, next) =>
      next == Nothing && th.slots == []
          && (was == [] || exists k: nat :: k < m && PushedAt(states, steps, t, n, k, was))
    case Idle => th.slots == [] && (was == [] || exists k: nat :: k < m && PushedAt(states, steps, t, n, k, was))
    case _ => false
  }

  lemma RetireStarts(states: seq<System>, steps: seq<Step>, t: nat, n: nat)
    requires Run(states, steps) && n < |steps| && Mine(steps, t, n) && steps[n].action.Retire?
    ensures RetireAt(states, steps, t, n, n + 1)
  {
    Moves(states, steps, t, n);
  }

  lemma RetireGoesOn(states: seq<System>, steps: seq<Step>, t: nat, n: nat, m: nat)
    requires Run(states, steps) && n < m < |steps| && Mine(steps, t, m) && steps[m].action.Continue?
    requires RetireAt(states, steps, t, n, m)
    ensures RetireAt(states, steps, t, n, m + 1)
  {
    hide Take, Adopt, Released, DrainOn;
    Moves(states, steps, t, m);
    var s := states[m];
    if s.threads[t].pc == Swapping(s.head) {
      assert PushedAt(states, steps, t, n, m, At(states, n, t).slots);
    }
  }

  // ---------------------------------------------------------------- every operation

  /** How the operation begun at step `n` stands at state `m`. */
  ghost predicate Stands(states: seq<System>, steps: seq<Step>, t: nat, n: nat, m: nat)
    requires n < |steps| && steps[n].Step?
  {
    match steps[n].action
    case Acquire => AcquireAt(states, steps, t, n, m)
    case Oversized =>
      var th := At(states, m, t);
      th.slots == At(states, n, t).slots && (th.pc == Idle || (th.pc.Flushing? && th.pc.next == Nothing))
    case Release(block, cached) => ReleaseAt(states, steps, t, n, m, block, cached)
    case Retire => RetireAt(states, steps, t, n, m)
    case Drain => DrainAt(states, steps, t, n, m)
    case Continue(_, _) => true
  }

  lemma OperationStarts(states: seq<System>, steps: seq<Step>, t: nat, n: nat)
    requires Run(states, steps) && n < |steps| && Mine(steps, t, n)
    ensures Stands(states, steps, t, n, n + 1)
  {
    hide AcquireAt, ReleaseAt, RetireAt, DrainAt;
    match steps[n].action
    case Acquire => AcquireStarts(states, steps, t, n);
    case Oversized => Moves(states, steps, t, n);
    case Release(_, _) => ReleaseStarts(states, steps, t, n);
    case Retire => RetireStarts(states, steps, t, n);
    case Drain => DrainStarts(states, steps, t, n);
    case Continue(_, _) =>
  }

  lemma OperationWaits(states: seq<System>, steps: seq<Step>, t: nat, n: nat, m: nat)
    requires n < m < |states| - 1 == |steps| && Mine(steps, t, n) && !Mine(steps, t, m)
    requires At(states, m + 1, t) == At(states, m, t) && Stands(states, steps, t, n, m)
    ensures Stands(states, steps, t, n, m + 1)
  {
    hide HandsOut, Drains, AllFreed, DrainAt, AcquireAt, PushedAt;
    match steps[n].action
    case Acquire => AcquireWaits(states, steps, t, n, m);
    case Drain => DrainWaits(states, steps, t, n, m);
    case _ =>
  }

  lemma OversizedGoesOn(states: seq<System>, steps: seq<Step>, t: nat, n: nat, m: nat)
    requires Run(states, steps) && n < m < |steps| && Mine(steps, t, n) && steps[n].action.Oversized?
    requires Mine(steps, t, m) && steps[m].action.Continue? && Stands(states, steps, t, n, m)
    ensures Stands(states, steps, t, n, m + 1)
  {
    Moves(states, steps, t, m);
  }

  lemma OperationGoesOn(states: seq<System>, steps: seq<Step>, t: nat, n: nat, m: nat)
    requires Run(states, steps) && n < m < |steps| && Mine(steps, t, n) && Inv(states[m])
    requires Mine(steps, t, m) && steps[m].action.Continue? && Stands(states, steps, t, n, m)
    ensures Stands(states, steps, t, n, m + 1)
  {
    hide AcquireAt, ReleaseAt, RetireAt, DrainAt, Inv, Run;
    match steps[n].action
    case Acquire => AcquireGoesOn(states, steps, t, n, m);
    case Oversized => OversizedGoesOn(states, steps, t, n, m);
    case Release(block, cached) => ReleaseGoesOn(states, steps, t, n, m, block, cached);
    case Retire => RetireGoesOn(states, steps, t, n, m);
    case Drain => DrainGoesOn(states, steps, t, n, m);
    case Continue(_, _) =>
  }

  /** So it stands as described in every reachable state. */
  lemma {:induction false} OperationRuns(states: seq<System>, steps: seq<Step>, t: nat, n: nat, m: nat)
    requires Run(states, steps) && Under(states, steps, t, n, m)
    ensures Stands(states, steps, t, n, m)
    decreases m
  {
    hide Stands, Inv, After, Enabled, Initial;
    if m == n + 1 {
      OperationStarts(states, steps, t, n);
    } else {
      UnderBefore(states, steps, t, n, m);
      OperationRuns(states, steps, t, n, m - 1);
      if Mine(steps, t, m - 1) {
        RunKeeps(states, steps, m - 1);
        OperationGoesOn(states, steps, t, n, m - 1);
      } else {
        Moves(states, steps, t, m - 1);
        OperationWaits(states, steps, t, n, m - 1);
      }
    }
  }

  // ---------------------------------------------------------------- the theorems

  /** Between steps `j` and `k` of one thread, step `r` of another empties the stack. */
  ghost predicate Robs(states: seq<System>, steps: seq<Step>, t: nat, j: nat, r: nat, k: nat) {
    && j < r < k < |states| == |steps| + 1 && steps[r].Step? && steps[r].t != t && states[r].head != 0
    && (At(states, r, steps[r].t).pc.AdoptTake? || At(states, r, steps[r].t).pc.DrainTake?)
  }

  /** Only taking the stack makes it empty. */
  lemma Emptied(s: System, step: Step)
    requires Inv(s) && Enabled(s, step) && s.head != 0 && After(s, step).head == 0
    ensures step.Step? && (s.threads[step.t].pc.AdoptTake? || s.threads[step.t].pc.DrainTake?)
  {
    hide Inv, Counted, Exclusive, Held;
    assert step.Step?;
    var th := s.threads[step.t];
    if th.pc == Swapping(s.head) && th.slots != [] {
      assert th.slots[0] in s.blocks by { TopIsBlock(s, step.t); }
      assert 0 !in s.blocks by { NoNullBlock(s); }
    }
  }

  lemma NoNullBlock(s: System)
    requires Inv(s)
    ensures 0 !in s.blocks
  {
  }

  lemma {:induction false} SomeoneTook(states: seq<System>, steps: seq<Step>, t: nat, n: nat, j: nat, k: nat)
    returns (r: nat)
    requires Run(states, steps) && SawSome(states, steps, t, n, j, k) && states[k].head == 0
    ensures Robs(states, steps, t, j, r, k)
    decreases k
  {
    hide After, Enabled, Inv;
    RunKeeps(states, steps, k - 1);
    Moves(states, steps, t, k - 1);
    if k == j + 1 {
      LookingChangesNothing(states[j], steps[j]);
      assert false;
    } else if states[k - 1].head != 0 {
      Emptied(states[k - 1], steps[k - 1]);
      r := k - 1;
      StepOfThread(states[r], steps[r]);
    } else {
      r := SomeoneTook(states, steps, t, n, j, k - 1);
    }
  }

  lemma StepOfThread(s: System, step: Step)
    requires Enabled(s, step) && step.Step?
    ensures step.t < |s.threads|
  {
  }

  lemma LookingChangesNothing(s: System, step: Step)
    requires Enabled(s, step) && step.Step? && s.threads[step.t].pc == AdoptLoad
    ensures After(s, step).head == s.head
  {
  }

  /** An acquisition that ends has handed out just one block, at some step `k`. If the cache held any, it
      is the top one. A new one is made only if the cache was empty and the stack was too, when the thread
      looked (`j` == `i`) or when it came to take what it had seen at step `j`, after another thread
      took it at step `r`. */
  lemma AcquireHandsOut(states: seq<System>, steps: seq<Step>, t: nat, n: nat, m: nat)
    returns (k: nat, i: nat, j: nat, r: nat)
    requires Run(states, steps) && Under(states, steps, t, n, m) && steps[n].action.Acquire?
             && At(states, m, t).pc == Idle
    ensures n < k < m && t < |states[k].threads|
            && (Hit(states[k], states[k + 1], t) || Missed(states[k], states[k + 1], t))
    ensures At(states, n, t).slots != []
            ==> Hit(states[k], states[k + 1], t) && At(states, k, t).slots == At(states, n, t).slots
    ensures !Hit(states[k], states[k + 1], t)
            ==> At(states, n, t).slots == At(states, k, t).slots == [] && n < j <= i < k && states[i].head == 0
                && Mine(steps, t, j) && At(states, j, t).pc == AdoptLoad
                && (j < i ==> Mine(steps, t, i) && At(states, i, t).pc == AdoptTake && Robs(states, steps, t, j, r, i))
  {
    hide Run, Inv, Hit, Missed, Robs;
    OperationRuns(states, steps, t, n, m);
    k :| k < m && HandsOut(states, steps, t, n, k);
    i, j, r := 0, 0, 0;
    if At(states, k, t).slots == [] {
      i :| i < k && SawNone(states, steps, t, n, i);
      j := i;
      if At(states, i, t).pc == AdoptTake {
        j :| SawSome(states, steps, t, n, j, i);
        r := SomeoneTook(states, steps, t, n, j, i);
      }
    }
  }

  /** A block released to a cache with room is on top of it, allocated and not in use, from then on until
      the thread starts another operation. */
  lemma ReleasedIsKept(states: seq<System>, steps: seq<Step>, t: nat, n: nat, m: nat)
    requires Run(states, steps) && Under(states, steps, t, n, m) && steps[n].action.Release?
    requires steps[n].action.cached && |At(states, n, t).slots| < MAX_RETAINED
    ensures At(states, m, t).slots == At(states, n, t).slots + [steps[n].action.block]
    ensures var s := states[m]; steps[n].action.block in s.blocks && steps[n].action.block !in s.live
  {
    hide Inv;
    OperationRuns(states, steps, t, n, m);
    RunKeeps(states, steps, m);
    hide Run;
    if t < |states[m].threads| { TopIsBlock(states[m], t); }
  }

  /** If its next operation is an acquisition, that hands out this very block, as a hit. */
  lemma ReleasedIsHandedOutNext(states: seq<System>, steps: seq<Step>, t: nat, n: nat, m: nat, p: nat) returns (k: nat)
    requires Run(states, steps) && Under(states, steps, t, n, m) && steps[n].action.Release?
    requires steps[n].action.cached && |At(states, n, t).slots| < MAX_RETAINED
    requires Under(states, steps, t, m, p) && steps[m].action.Acquire? && At(states, p, t).pc == Idle
    ensures m < k < p && steps[n].action.block !in states[k].live
            && states[k + 1].live == states[k].live + {steps[n].action.block}
            && states[k + 1].blocks == states[k].blocks
    ensures At(states, k + 1, t).slots == At(states, n, t).slots
            && Hits(At(states, k + 1, t)) == Hits(At(states, k, t)) + 1
            && Misses(At(states, k + 1, t)) == Misses(At(states, k, t))
  {
    hide Run, Missed, Robs;
    ReleasedIsKept(states, steps, t, n, m);
    var i, j, r;
    k, i, j, r := AcquireHandsOut(states, steps, t, m, p);
  }

  /** Any other release gives the block back to the allocator. */
  lemma ReleasedIsFreed(states: seq<System>, steps: seq<Step>, t: nat, n: nat, m: nat)
    requires Run(states, steps) && Under(states, steps, t, n, m) && steps[n].action.Release?
    requires !Keeps(At(states, n, t), steps[n].action.cached) && At(states, m, t).pc == Idle
    ensures Freed(states, steps, t, n, m, steps[n].action.block) && At(states, m, t).slots == At(states, n, t).slots
  {
    hide Run, Freed;
    OperationRuns(states, steps, t, n, m);
  }

  /** A drain gives back the thread's whole cache, and the whole stack as it is at some step `k`. */
  lemma DrainFreesAll(states: seq<System>, steps: seq<Step>, t: nat, n: nat, m: nat) returns (k: nat)
    requires Run(states, steps) && Under(states, steps, t, n, m) && steps[n].action.Drain?
             && At(states, m, t).pc == Idle
    ensures At(states, m, t).slots == [] && AllFreed(states, steps, t, n, m, At(states, n, t).slots)
    ensures n < k < m && states[k + 1].stack == [] && AllFreed(states, steps, t, n, m, states[k].stack)
  {
    hide Run, AllFreed;
    OperationRuns(states, steps, t, n, m);
    k :| Drains(states, steps, t, n, k, m, []);
    assert states[k].stack[..|states[k].stack|] == states[k].stack;
  }

  /** A thread that goes away pushes its whole cache on the stack in one step. */
  lemma RetirePushesAll(states: seq<System>, steps: seq<Step>, t: nat, n: nat, m: nat)
    requires Run(states, steps) && Under(states, steps, t, n, m) && steps[n].action.Retire?
             && At(states, m, t).pc == Idle
    ensures At(states, m, t).slots == []
    ensures var was := At(states, n, t).slots;
            was != [] ==> exists k: nat :: n < k < m && PushedAt(states, steps, t, n, k, was)
  {
    hide Run;
    OperationRuns(states, steps, t, n, m);
  }

  /** Why thread `t`, in the operation begun at step `n`, frees block `a` at step `k`: it drains, it adopts
      more than fits, or it releases that block with no cache or to a full one. */
  ghost predicate Cause(states: seq<System>, steps: seq<Step>, t: nat, n: nat, k: nat, a: Address)
    requires n < |steps| && steps[n].Step?
  {
    var pc := At(states, k, t).pc;
    match steps[n].action
    case Drain => pc.DrainSlots? || pc.Draining?
    case Acquire => pc.Adopting? && pc.chain == a && |At(states, k, t).slots| == MAX_RETAINED
    case Release(block, cached) => block == a && !Keeps(At(states, n, t), cached)
    case _ => false
  }

  /** Which steps free which blocks. */
  predicate Frees(th: Thread, a: Address) {
    match th.pc
    case Freeing(block) => block == a
    case Adopting(chain, _, _, _) => chain == a && |th.slots| >= MAX_RETAINED
    case DrainSlots(i) => i < |th.slots| && th.slots[i] == a
    case Draining(chain, _, _, _) => chain == a
    case _ => false
  }

  lemma AdoptFrees(s: System, t: nat, a: Address)
    requires t < |s.threads| && a in s.blocks && a !in Adopt(s, t).blocks
    ensures Frees(s.threads[t], a)
  {
  }

  lemma DrainFrees(s: System, t: nat, a: Address)
    requires t < |s.threads| && a in s.blocks && a !in DrainOn(s, t).blocks
    ensures Frees(s.threads[t], a)
  {
  }

  lemma PushFreesNone(s: System, t: nat)
    requires t < |s.threads|
    ensures Push(s, t).blocks == s.blocks
  {
  }

  lemma FreesIs(s: System, step: Step, a: Address)
    requires Enabled(s, step) && a in s.blocks && a !in After(s, step).blocks
    ensures step.Step? && step.t < |s.threads| && step.action.Continue? && Frees(s.threads[step.t], a)
  {
    hide Counted, Frees, Push, Adopt, DrainOn;
    if step.Step? && step.action.Continue? {
      PushFreesNone(s, step.t);
      if a !in Adopt(s, step.t).blocks { AdoptFrees(s, step.t, a); }
      if a !in DrainOn(s, step.t).blocks { DrainFrees(s, step.t, a); }
    }
  }

  /** In every reachable state, a block goes back to the allocator only for one of these reasons. */
  lemma BlockIsFreedForCause(states: seq<System>, steps: seq<Step>, k: nat, a: Address) returns (t: nat, n: nat)
    requires Run(states, steps) && k < |steps| && a in states[k].blocks && a !in states[k + 1].blocks
    ensures Mine(steps, t, k) && Under(states, steps, t, n, k) && Cause(states, steps, t, n, k, a)
  {
    hide After, Enabled, Inv, Stands, Frees;
    Moves(states, steps, 0, k);
    FreesIs(states[k], steps[k], a);
    t := steps[k].t;
    NotIdle(states[k], t, a);
    n := Began(states, steps, t, k);
    OperationRuns(states, steps, t, n, k);
    CachesAreBounded(states, steps, k, t);
    CauseIs(states, steps, t, n, k, a);
  }

  lemma NotIdle(s: System, t: nat, a: Address)
    requires t < |s.threads| && Frees(s.threads[t], a)
    ensures s.threads[t].pc != Idle
  {
  }

  lemma CauseIs(states: seq<System>, steps: seq<Step>, t: nat, n: nat, k: nat, a: Address)
    requires Under(states, steps, t, n, k) && Stands(states, steps, t, n, k) && t < |states[k].threads|
    requires Frees(states[k].threads[t], a) && |states[k].threads[t].slots| <= MAX_RETAINED
    ensures Cause(states, steps, t, n, k, a)
  {
    hide HandsOut, SawNone, SawSome, Took, AllFreed, Drains, PushedAt, Freed;
  }
}
