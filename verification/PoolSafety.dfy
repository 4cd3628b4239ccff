/** Every block of the pool has exactly one owner at any time, whatever the interleaving, and
    the counters add up. */
module PoolSafety {
  import opened BufferPool

  // ---------------------------------------------------------------- who owns what

  /** The part of the slots that still holds blocks. */
  function Slots(th: Thread): seq<Address> {
    match th.pc
    case DrainSlots(i) => if i <= |th.slots| then th.slots[i..] else []
    case _ => th.slots
  }

  /** The chain a thread took off the stack and has not walked yet. */
  function Chain(th: Thread): seq<Address> {
    match th.pc
    case Adopting(_, rest, _, _) => rest
    case Draining(_, rest, _, _) => rest
    case _ => []
  }

  /** A block on its way to the allocator. */
  function Leaving(th: Thread): seq<Address> {
    match th.pc
    case Freeing(block) => [block]
    case Flushing(_, FreeOne(block)) => [block]
    case _ => []
  }

  function Held(th: Thread): multiset<Address> {
    multiset(Slots(th)) + multiset(Chain(th)) + multiset(Leaving(th))
  }

  function HeldBy(threads: seq<Thread>): multiset<Address> {
    if threads == [] then multiset{} else Held(threads[0]) + HeldBy(threads[1..])
  }

  /** Every allocated block is live, on the stack, or held by a thread, and in one place only. */
  ghost predicate Exclusive(s: System) {
    && 0 !in s.blocks
    && multiset(s.blocks) == multiset(s.live) + HeldBy(s.threads) + multiset(s.stack)
  }

  function LinkAfter(chain: seq<Address>, i: nat): Address {
    if i + 1 < |chain| then chain[i + 1] else 0
  }

  /** Following the links from `first` gives `chain` and then the null pointer. */
  predicate Linked(mem: map<Address, Address>, first: Address, chain: seq<Address>) {
    && first == (if chain == [] then 0 else chain[0])
    && forall i :: 0 <= i < |chain| ==> chain[i] != 0 && Read(mem, chain[i]) == LinkAfter(chain, i)
  }

  /** The first `i` slots are linked each with the next. */
  predicate LinkedUpTo(mem: map<Address, Address>, slots: seq<Address>, i: int) {
    && slots != [] && i < |slots|
    && forall j :: 0 <= j < i ==> Read(mem, slots[j]) == LinkAfter(slots, j)
  }

  /** What holds of a thread's own variables and of the memory it owns. */
  predicate ThreadOk(mem: map<Address, Address>, th: Thread) {
    && |th.slots| <= MAX_RETAINED
    && match th.pc
       case Linking(i) => LinkedUpTo(mem, th.slots, i)
       case Raising => LinkedUpTo(mem, th.slots, |th.slots| - 1)
       case Loading => LinkedUpTo(mem, th.slots, |th.slots| - 1)
       case Writing(_) => LinkedUpTo(mem, th.slots, |th.slots| - 1)
       case Swapping(seen) =>
         LinkedUpTo(mem, th.slots, |th.slots| - 1) && Read(mem, th.slots[|th.slots| - 1]) == seen
       case Adopting(chain, rest, kept, _) => Linked(mem, chain, rest) && |th.slots| == kept
       case AdoptLoad => th.slots == []
       case AdoptTake => th.slots == []
       case Draining(chain, rest, _, _) => Linked(mem, chain, rest)
       case DrainSlots(i) => i <= |th.slots|
       case _ => true
  }

  // ---------------------------------------------------------------- counts

  function Sum(threads: seq<Thread>, f: Thread -> int): int {
    if threads == [] then 0 else f(threads[0]) + Sum(threads[1..], f)
  }

  /** A thread's unpublished share of a counter: none once the flush is past its stage. */
  function Unpublished(th: Thread, stage: nat, count: int): int {
    if th.pc.Flushing? && th.pc.stage > stage then 0 else count
  }

  function Hits(th: Thread): int { Unpublished(th, 0, th.pending.hits) }
  function Misses(th: Thread): int { Unpublished(th, 1, th.pending.misses) }
  function Returned(th: Thread): int { Unpublished(th, 3, th.pending.returned) }
  function Freed(th: Thread): int { Unpublished(th, 4, th.pending.freed) }
  function Retained(th: Thread): int { Unpublished(th, 5, th.pending.retained) }

  /** Blocks in the thread's cache or in a chain it is walking. */
  function Cached(th: Thread): int { |Slots(th)| + |Chain(th)| }

  /** Blocks the thread freed from caches and has not counted as drained yet. */
  function OwedDrained(th: Thread): int {
    match th.pc
    case Adopting(_, _, _, trimmed) => trimmed
    case AdoptLower(_, trimmed) => trimmed
    case AdoptCounted(trimmed) => trimmed
    case DrainSlots(i) => i
    case Flushing(_, TakeOrphans(count)) => count
    case DrainTake(count) => count
    case Draining(_, _, orphans, count) => orphans + count
    case DrainLower(orphans, count) => orphans + count
    case DrainRetained(orphans, count) => orphans + count
    case DrainCount(count) => count
    case _ => 0
  }

  /** Blocks the thread freed that the retained count still includes. */
  function OwedRetained(th: Thread): int {
    match th.pc
    case Adopting(_, _, _, trimmed) => trimmed
    case AdoptLower(_, trimmed) => trimmed
    case AdoptCounted(trimmed) => trimmed
    case AdoptDrained(trimmed) => trimmed
    case DrainSlots(i) => i
    case Draining(_, _, orphans, _) => orphans
    case DrainLower(orphans, _) => orphans
    case DrainRetained(orphans, _) => orphans
    case _ => 0
  }

  /** Blocks counted as orphans that are not on the stack: about to be pushed, or taken. */
  function OffStack(th: Thread): (n: nat) {
    match th.pc
    case Loading => |th.slots|
    case Writing(_) => |th.slots|
    case Swapping(_) => |th.slots|
    case Adopting(_, rest, kept, trimmed) => |rest| + kept + trimmed
    case AdoptLower(kept, trimmed) => kept + trimmed
    case Draining(_, rest, orphans, _) => |rest| + orphans
    case DrainLower(orphans, _) => orphans
    case _ => 0
  }

  function InUse(th: Thread): int { Hits(th) + Misses(th) - Returned(th) - Freed(th) }
  function InCaches(th: Thread): int { Cached(th) - Returned(th) + Hits(th) + OwedDrained(th) }
  function Overcount(th: Thread): int { Retained(th) - OwedRetained(th) - Cached(th) }
  function Off(th: Thread): int { OffStack(th) }

  /** Acquisitions and releases differ by the live blocks; the blocks cached are those returned
      and neither hit nor drained; the retained count is the number of blocks cached; and the
      orphan count is the stack plus what is off it. */
  ghost predicate Conserved(s: System) {
    && s.hits + s.misses - s.returned - s.freed + Sum(s.threads, InUse) == |s.live|
    && |s.stack| + Sum(s.threads, InCaches) == s.returned - s.hits - s.drained
    && s.retained + Sum(s.threads, Overcount) == |s.stack|
    && s.orphaned == |s.stack| + Sum(s.threads, Off)
  }

  ghost predicate Inv(s: System) {
    && Exclusive(s) && Linked(s.mem, s.head, s.stack) && Conserved(s)
    && forall t :: 0 <= t < |s.threads| ==> ThreadOk(s.mem, s.threads[t])
  }

  // ---------------------------------------------------------------- one thread's change

  lemma {:induction false} SumUpdate(threads: seq<Thread>, t: nat, th: Thread, f: Thread -> int)
    requires t < |threads|
    ensures Sum(threads[t := th], f) == Sum(threads, f) - f(threads[t]) + f(th)
  {
    if t > 0 {
      SumUpdate(threads[1..], t - 1, th, f);
      assert threads[t := th][1..] == threads[1..][t - 1 := th];
    } else {
      assert threads[0 := th][1..] == threads[1..];
    }
  }

  lemma {:induction false} HeldUpdate(threads: seq<Thread>, t: nat, th: Thread)
    requires t < |threads|
    ensures HeldBy(threads[t := th]) + Held(threads[t]) == HeldBy(threads) + Held(th)
  {
    hide Held;
    var threads' := threads[t := th];
    assert HeldBy(threads') == Held(threads'[0]) + HeldBy(threads'[1..]);
    if t > 0 {
      HeldUpdate(threads[1..], t - 1, th);
      assert threads'[1..] == threads[1..][t - 1 := th];
      assert threads[1..][t - 1] == threads[t];
      var rest, rest', h := HeldBy(threads[1..]), HeldBy(threads'[1..]), Held(threads[0]);
      assert rest' + Held(threads[t]) == rest + Held(th);
      assert (h + rest') + Held(threads[t]) == h + (rest' + Held(threads[t]));
      assert (h + rest) + Held(th) == h + (rest + Held(th));
    } else {
      assert threads'[1..] == threads[1..];
      assert Held(th) + HeldBy(threads[1..]) + Held(threads[0]) == Held(threads[0]) + HeldBy(threads[1..]) + Held(th);
    }
  }

  lemma {:induction false} HeldOnce(threads: seq<Thread>, t: nat, a: Address)
    requires t < |threads|
    ensures Held(threads[t])[a] <= HeldBy(threads)[a]
  {
    hide Held;
    if t > 0 {
      HeldOnce(threads[1..], t - 1, a);
    }
  }

  lemma {:induction false} HeldTwice(threads: seq<Thread>, t: nat, u: nat, a: Address)
    requires t < u < |threads|
    ensures Held(threads[t])[a] + Held(threads[u])[a] <= HeldBy(threads)[a]
  {
    hide Held;
    if t > 0 {
      HeldTwice(threads[1..], t - 1, u - 1, a);
    } else {
      HeldOnce(threads[1..], u - 1, a);
    }
  }

  /** A block a thread holds is allocated, not live, not on the stack, and no other thread's. */
  lemma HeldAlone(s: System, t: nat, a: Address)
    requires Exclusive(s) && t < |s.threads| && a in Held(s.threads[t])
    ensures a in s.blocks && a != 0 && a !in s.live && a !in s.stack
    ensures Held(s.threads[t])[a] == 1
    ensures forall u :: 0 <= u < |s.threads| && u != t ==> a !in Held(s.threads[u])
  {
    HeldOnce(s.threads, t, a);
    assert multiset(s.blocks)[a] <= 1;
    forall u | 0 <= u < |s.threads| && u != t
      ensures a !in Held(s.threads[u])
    {
      if u < t { HeldTwice(s.threads, u, t, a); } else { HeldTwice(s.threads, t, u, a); }
    }
  }

  /** A thread's own facts depend only on the memory it holds. */
  lemma ThreadFrame(mem: map<Address, Address>, mem': map<Address, Address>, th: Thread)
    requires ThreadOk(mem, th)
    requires forall a :: a in Held(th) ==> Read(mem', a) == Read(mem, a)
    ensures ThreadOk(mem', th)
  {
    assert forall x :: x in Slots(th) ==> x in Held(th);
    assert forall x :: x in Chain(th) ==> x in Held(th);
    hide Held, Linked, LinkedUpTo;
    match th.pc
    case Linking(i) => LinksFrame(mem, mem', th.slots, i);
    case Raising => LinksFrame(mem, mem', th.slots, |th.slots| - 1);
    case Loading => LinksFrame(mem, mem', th.slots, |th.slots| - 1);
    case Writing(_) => LinksFrame(mem, mem', th.slots, |th.slots| - 1);
    case Swapping(_) =>
      assert th.slots != [] by { LinksNonempty(mem, th.slots, |th.slots| - 1); }
      LinksFrame(mem, mem', th.slots, |th.slots| - 1);
      assert th.slots[|th.slots| - 1] in th.slots;
    case Adopting(chain, rest, _, _) => LinkedFrame(mem, mem', chain, rest);
    case Draining(chain, rest, _, _) => LinkedFrame(mem, mem', chain, rest);
    case _ =>
  }

  lemma LinksNonempty(mem: map<Address, Address>, slots: seq<Address>, i: int)
    requires LinkedUpTo(mem, slots, i)
    ensures slots != []
  {
  }

  lemma LinksFrame(mem: map<Address, Address>, mem': map<Address, Address>, slots: seq<Address>, i: int)
    requires LinkedUpTo(mem, slots, i)
    requires forall x :: x in slots ==> Read(mem', x) == Read(mem, x)
    ensures LinkedUpTo(mem', slots, i)
  {
    assert forall j :: 0 <= j < i ==> slots[j] in slots;
  }

  lemma LinkedFrame(mem: map<Address, Address>, mem': map<Address, Address>, first: Address, chain: seq<Address>)
    requires Linked(mem, first, chain)
    requires forall x :: x in chain ==> Read(mem', x) == Read(mem, x)
    ensures Linked(mem', first, chain)
  {
    assert forall i :: 0 <= i < |chain| ==> chain[i] in chain;
  }

  /** A step of one thread that moves blocks without losing or copying any. */
  predicate SameBlocks(s: System, th: Thread, s': System, th': Thread) {
    && 0 !in s'.blocks
    && multiset(s'.blocks) + (multiset(s.live) + multiset(s.stack) + Held(th))
       == multiset(s.blocks) + (multiset(s'.live) + multiset(s'.stack) + Held(th'))
  }

  /** A step of one thread that keeps the books balanced. */
  predicate SameBalance(s: System, th: Thread, s': System, th': Thread) {
    && s.hits + s.misses - s.returned - s.freed + InUse(th) - |s.live|
       == s'.hits + s'.misses - s'.returned - s'.freed + InUse(th') - |s'.live|
    && |s.stack| + InCaches(th) - s.returned + s.hits + s.drained
       == |s'.stack| + InCaches(th') - s'.returned + s'.hits + s'.drained
    && s.retained + Overcount(th) - |s.stack| == s'.retained + Overcount(th') - |s'.stack|
    && s.orphaned - |s.stack| - Off(th) == s'.orphaned - |s'.stack| - Off(th')
  }

  lemma BlocksKept(s: System, t: nat, th: Thread, s': System)
    requires Exclusive(s) && t < |s.threads| && s'.threads == s.threads[t := th]
    requires SameBlocks(s, s.threads[t], s', th)
    ensures Exclusive(s')
  {
    hide Held, HeldBy;
    HeldUpdate(s.threads, t, th);
    var others, others', h, h' := HeldBy(s.threads), HeldBy(s'.threads), Held(s.threads[t]), Held(th);
    var free, free' := multiset(s.live) + multiset(s.stack), multiset(s'.live) + multiset(s'.stack);
    Cancel(multiset(s.blocks), multiset(s'.blocks), free, free', h, h', others, others');
    assert multiset(s.live) + others + multiset(s.stack) == free + others;
    assert multiset(s'.live) + others' + multiset(s'.stack) == free' + others';
  }

  lemma Cancel(b: multiset<Address>, b': multiset<Address>, f: multiset<Address>, f': multiset<Address>,
               h: multiset<Address>, h': multiset<Address>, o: multiset<Address>, o': multiset<Address>)
    requires b' + (f + h) == b + (f' + h') && o' + h == o + h' && b == f + o
    ensures b' == f' + o'
  {
    forall a: Address
      ensures b'[a] == (f' + o')[a]
    {
      assert (b' + (f + h))[a] == (b + (f' + h'))[a];
      assert (o' + h)[a] == (o + h')[a];
      assert b[a] == (f + o)[a];
    }
  }

  lemma BalanceKept(s: System, t: nat, th: Thread, s': System)
    requires Conserved(s) && t < |s.threads| && s'.threads == s.threads[t := th]
    requires SameBalance(s, s.threads[t], s', th)
    ensures Conserved(s')
  {
    hide InUse, InCaches, Overcount, Off;
    SumUpdate(s.threads, t, th, InUse);
    SumUpdate(s.threads, t, th, InCaches);
    SumUpdate(s.threads, t, th, Overcount);
    SumUpdate(s.threads, t, th, Off);
  }

  /** A step that writes no memory but what its thread holds. */
  lemma OneThread(s: System, t: nat, th: Thread, s': System)
    requires Inv(s) && t < |s.threads| && s'.threads == s.threads[t := th]
    requires SameBlocks(s, s.threads[t], s', th) && SameBalance(s, s.threads[t], s', th)
    requires Linked(s'.mem, s'.head, s'.stack) && ThreadOk(s'.mem, th)
    requires forall a :: a !in Held(s.threads[t]) && a in s.blocks && a !in s.live ==> Read(s'.mem, a) == Read(s.mem, a)
    ensures Inv(s')
  {
    hide SameBlocks, SameBalance, Held, Conserved, Linked, ThreadOk;
    BlocksKept(s, t, th, s');
    BalanceKept(s, t, th, s');
    forall u | 0 <= u < |s'.threads|
      ensures ThreadOk(s'.mem, s'.threads[u])
    {
      if u != t {
        OthersUntouched(s, t, s', u);
        ThreadFrame(s.mem, s'.mem, s.threads[u]);
      }
    }
  }

  lemma OthersUntouched(s: System, t: nat, s': System, u: nat)
    requires Exclusive(s) && t < |s.threads| && u < |s.threads| && u != t
    requires forall a :: a !in Held(s.threads[t]) && a in s.blocks && a !in s.live ==> Read(s'.mem, a) == Read(s.mem, a)
    ensures forall a :: a in Held(s.threads[u]) ==> Read(s'.mem, a) == Read(s.mem, a)
  {
    forall a | a in Held(s.threads[u])
      ensures Read(s'.mem, a) == Read(s.mem, a)
    {
      HeldAlone(s, u, a);
    }
  }

  /** The same when no memory is written and neither the blocks nor the stack change. */
  lemma QuietStep(s: System, t: nat, th: Thread, s': System)
    requires Inv(s) && t < |s.threads| && s'.threads == s.threads[t := th]
    requires s'.mem == s.mem && s'.blocks == s.blocks && s'.live == s.live && s'.head == s.head && s'.stack == s.stack
    requires Held(th) == Held(s.threads[t])
    requires SameBalance(s, s.threads[t], s', th) && ThreadOk(s'.mem, th)
    ensures Inv(s')
  {
    hide SameBalance, Held, Conserved, Linked, ThreadOk;
    OneThread(s, t, th, s');
  }

  // ---------------------------------------------------------------- flushing and counting

  lemma FlushHolds(s: System, t: nat)
    requires t < |s.threads| && s.threads[t].pc.Flushing? && ThreadOk(s.mem, s.threads[t])
    ensures var th' := Flush(s, t).threads[t];
            Held(th') == Held(s.threads[t]) && ThreadOk(s.mem, th') && Flush(s, t).threads == s.threads[t := th']
  {
    var th, th' := s.threads[t], Flush(s, t).threads[t];
    assert Slots(th') == Slots(th) && Chain(th') == Chain(th) && Leaving(th') == Leaving(th);
  }

  lemma FlushPublishes(s: System, t: nat)
    requires t < |s.threads| && s.threads[t].pc.Flushing? && s.threads[t].pc.stage < 6
    ensures SameBalance(s, s.threads[t], Flush(s, t), Flush(s, t).threads[t])
  {
    var th, th' := s.threads[t], Flush(s, t).threads[t];
    assert Cached(th') == Cached(th) && OwedDrained(th') == OwedDrained(th);
    hide Slots, Chain, Cached, OwedDrained;
  }

  lemma FlushEnds(s: System, t: nat)
    requires t < |s.threads| && s.threads[t].pc.Flushing? && s.threads[t].pc.stage >= 6
    ensures SameBalance(s, s.threads[t], Flush(s, t), Flush(s, t).threads[t])
  {
    var th, th' := s.threads[t], Flush(s, t).threads[t];
    assert Cached(th') == Cached(th) && OwedDrained(th') == OwedDrained(th);
    hide Slots, Chain, Cached, OwedDrained;
  }

  lemma FlushKeeps(s: System, t: nat)
    requires Inv(s) && t < |s.threads| && s.threads[t].pc.Flushing?
    ensures Inv(Flush(s, t))
  {
    hide Inv, SameBalance, Held, ThreadOk, Linked;
    ThreadIsOk(s, t);
    FlushHolds(s, t);
    if s.threads[t].pc.stage < 6 { FlushPublishes(s, t); } else { FlushEnds(s, t); }
    QuietStep(s, t, Flush(s, t).threads[t], Flush(s, t));
  }

  lemma ThreadIsOk(s: System, t: nat)
    requires Inv(s) && t < |s.threads|
    ensures ThreadOk(s.mem, s.threads[t]) && Exclusive(s) && Linked(s.mem, s.head, s.stack)
  {
  }

  /** A thread after an operation was counted, whether or not a flush follows. */
  lemma CountedIs(mem: map<Address, Address>, th: Thread, pending: Pending, next: Then)
    requires !next.TakeOrphans? && |th.slots| <= MAX_RETAINED
    ensures var th' := Counted(th, pending, next);
            && Slots(th') == th.slots && Chain(th') == []
            && Leaving(th') == (if next.FreeOne? then [next.block] else [])
            && Hits(th') == pending.hits && Misses(th') == pending.misses
            && Returned(th') == pending.returned && Freed(th') == pending.freed && Retained(th') == pending.retained
            && OwedDrained(th') == OwedRetained(th') == OffStack(th') == 0
            && ThreadOk(mem, th')
  {
  }

  /** Here the thread holds its slots and nothing else, and owes no count. */
  predicate Plain(pc: Pc) {
    || pc.Idle? || pc.Taking? || pc.AdoptLoad? || pc.AdoptTake?
    || pc.Linking? || pc.Raising? || pc.Loading? || pc.Writing? || pc.Swapping?
  }

  lemma PlainIs(th: Thread)
    requires Plain(th.pc)
    ensures Slots(th) == th.slots && Chain(th) == Leaving(th) == []
    ensures Hits(th) == th.pending.hits && Misses(th) == th.pending.misses
    ensures Returned(th) == th.pending.returned && Freed(th) == th.pending.freed && Retained(th) == th.pending.retained
    ensures OwedDrained(th) == OwedRetained(th) == 0
    ensures OffStack(th) == if th.pc.Loading? || th.pc.Writing? || th.pc.Swapping? then |th.slots| else 0
  {
  }

  lemma UnflushedIs(th: Thread)
    requires !th.pc.Flushing?
    ensures Hits(th) == th.pending.hits && Misses(th) == th.pending.misses
    ensures Returned(th) == th.pending.returned && Freed(th) == th.pending.freed && Retained(th) == th.pending.retained
  {
  }

  lemma SlotsFit(s: System, t: nat)
    requires Inv(s) && t < |s.threads|
    ensures |s.threads[t].slots| <= MAX_RETAINED
  {
  }

  /** Starting an operation changes nothing but where the thread is. */
  lemma StartKeeps(s: System, t: nat, action: Action)
    requires Inv(s) && Enabled(s, Step(t, action)) && (action.Acquire? || action.Retire? || action.Drain?)
    ensures Inv(After(s, Step(t, action)))
  {
    hide Inv, Linked, Held;
    ThreadIsOk(s, t);
    var th, s' := s.threads[t], After(s, Step(t, action));
    var th' := s'.threads[t];
    assert Slots(th') == Slots(th) && Chain(th') == Chain(th) && Leaving(th') == Leaving(th);
    assert Held(th') == Held(th) by { HeldOf(th); HeldOf(th'); }
    QuietStep(s, t, th', s');
  }

  lemma HeldOf(th: Thread)
    ensures Held(th) == multiset(Slots(th)) + multiset(Chain(th)) + multiset(Leaving(th))
  {
  }

  lemma OversizedKeeps(s: System, t: nat)
    requires Inv(s) && Enabled(s, Step(t, Oversized))
    ensures Inv(After(s, Step(t, Oversized)))
  {
    hide Inv, Linked, Held, ThreadOk, Slots, Chain, Leaving, Hits, Misses, Returned, Freed, Retained, OwedDrained,
         OwedRetained, OffStack, Counted;
    ThreadIsOk(s, t);
    SlotsFit(s, t);
    var th := s.threads[t];
    var p := th.pending.(oversized := th.pending.oversized + 1);
    PlainIs(th);
    CountedIs(s.mem, th, p, Nothing);
    HeldOf(th);
    HeldOf(Counted(th, p, Nothing));
    QuietStep(s, t, Counted(th, p, Nothing), After(s, Step(t, Oversized)));
  }

  /** A live block passes to the thread. */
  lemma LiveToThread(s: System, t: nat, block: Address, th': Thread, s': System)
    requires Exclusive(s) && t < |s.threads| && block in s.live
    requires s'.live == s.live - {block} && s'.blocks == s.blocks && s'.stack == s.stack
    requires Held(th') == Held(s.threads[t]) + multiset{block}
    ensures SameBlocks(s, s.threads[t], s', th') && |s'.live| == |s.live| - 1
  {
    hide Held;
    assert s.live == s'.live + {block};
    assert multiset(s.live) == multiset(s'.live) + multiset{block};
  }

  lemma ReleaseToCacheKeeps(s: System, t: nat, block: Address)
    requires Inv(s) && Enabled(s, Step(t, Release(block, true))) && |s.threads[t].slots| < MAX_RETAINED
    ensures Inv(Released(s, t, block, true))
  {
    hide Inv, Linked, Held, ThreadOk, Slots, Chain, Leaving, Hits, Misses, Returned, Freed, Retained, OwedDrained,
         OwedRetained, OffStack, Counted, SameBlocks, Exclusive;
    ThreadIsOk(s, t);
    var th, p, s' := s.threads[t], s.threads[t].pending, Released(s, t, block, true);
    PlainIs(th);
    HeldOf(th);
    var p' := p.(retained := p.retained + 1, returned := p.returned + 1);
    var fuller := th.(slots := th.slots + [block]);
    CountedIs(s.mem, fuller, p', Nothing);
    HeldOf(Counted(fuller, p', Nothing));
    assert multiset(th.slots + [block]) == multiset(th.slots) + multiset{block};
    LiveToThread(s, t, block, s'.threads[t], s');
    OneThread(s, t, s'.threads[t], s');
  }

  lemma ReleaseToAllocatorKeeps(s: System, t: nat, block: Address, cached: bool)
    requires Inv(s) && Enabled(s, Step(t, Release(block, cached))) && (!cached || |s.threads[t].slots| >= MAX_RETAINED)
    ensures Inv(Released(s, t, block, cached))
  {
    hide Inv, Linked, Held, ThreadOk, Slots, Chain, Leaving, Hits, Misses, Returned, Freed, Retained, OwedDrained,
         OwedRetained, OffStack, Counted, SameBlocks, Exclusive;
    ThreadIsOk(s, t);
    SlotsFit(s, t);
    var th, p, s' := s.threads[t], s.threads[t].pending, Released(s, t, block, cached);
    PlainIs(th);
    HeldOf(th);
    if !cached {
      FreeingIs(s.mem, th, block);
      HeldOf(th.(pc := Freeing(block)));
    } else {
      var p' := p.(freed := p.freed + 1);
      CountedIs(s.mem, th, p', FreeOne(block));
      HeldOf(Counted(th, p', FreeOne(block)));
    }
    LiveToThread(s, t, block, s'.threads[t], s');
    OneThread(s, t, s'.threads[t], s');
  }

  lemma ReleaseKeeps(s: System, t: nat, block: Address, cached: bool)
    requires Inv(s) && Enabled(s, Step(t, Release(block, cached)))
    ensures Inv(Released(s, t, block, cached))
  {
    hide Inv, Released;
    if cached && |s.threads[t].slots| < MAX_RETAINED {
      ReleaseToCacheKeeps(s, t, block);
    } else {
      ReleaseToAllocatorKeeps(s, t, block, cached);
    }
  }

  lemma FreeingIs(mem: map<Address, Address>, th: Thread, block: Address)
    requires th.pc == Idle && |th.slots| <= MAX_RETAINED
    ensures var th' := th.(pc := Freeing(block));
            && Slots(th') == th.slots && Chain(th') == [] && Leaving(th') == [block]
            && Hits(th') == Hits(th) && Misses(th') == Misses(th)
            && Returned(th') == Returned(th) && Freed(th') == Freed(th) && Retained(th') == Retained(th)
            && OwedDrained(th') == OwedRetained(th') == OffStack(th') == 0
            && ThreadOk(mem, th')
  {
  }

  lemma TakeCachedKeeps(s: System, t: nat, block: Address, junk: Address)
    requires Inv(s) && t < |s.threads| && s.threads[t].pc == Taking && s.threads[t].slots != []
    ensures Inv(Take(s, t, block, junk))
  {
    hide Inv, Linked, Held, ThreadOk, Slots, Chain, Leaving, Hits, Misses, Returned, Freed, Retained, OwedDrained,
         OwedRetained, OffStack, Counted, SameBlocks;
    ThreadIsOk(s, t);
    SlotsFit(s, t);
    var th, p, s' := s.threads[t], s.threads[t].pending, Take(s, t, block, junk);
    PlainIs(th);
    HeldOf(th);
    var n := |th.slots| - 1;
    var p' := p.(retained := p.retained - 1, hits := p.hits + 1);
    var lighter := th.(slots := th.slots[..n]);
    CountedIs(s.mem, lighter, p', Nothing);
    HeldOf(Counted(lighter, p', Nothing));
    assert th.slots == th.slots[..n] + [th.slots[n]];
    ThreadToLive(s, t, th.slots[n], s'.threads[t], s');
    OneThread(s, t, s'.threads[t], s');
  }

  lemma TakeFreshKeeps(s: System, t: nat, block: Address, junk: Address)
    requires Inv(s) && Enabled(s, Step(t, Continue(block, junk))) && s.threads[t].pc == Taking
             && s.threads[t].slots == []
    ensures Inv(Take(s, t, block, junk))
  {
    hide Inv, Linked, Held, ThreadOk, Slots, Chain, Leaving, Hits, Misses, Returned, Freed, Retained, OwedDrained,
         OwedRetained, OffStack, Counted, SameBlocks;
    ThreadIsOk(s, t);
    var th, p, s' := s.threads[t], s.threads[t].pending, Take(s, t, block, junk);
    PlainIs(th);
    HeldOf(th);
    var p' := p.(misses := p.misses + 1);
    CountedIs(s'.mem, th, p', Nothing);
    HeldOf(Counted(th, p', Nothing));
    AllocatorToLive(s, t, block, s'.threads[t], s');
    LinkedFrame(s.mem, s'.mem, s.head, s.stack);
    OneThread(s, t, s'.threads[t], s');
  }

  lemma ThreadToLive(s: System, t: nat, block: Address, th': Thread, s': System)
    requires Exclusive(s) && t < |s.threads|
    requires s'.live == s.live + {block} && s'.blocks == s.blocks && s'.stack == s.stack
    requires Held(s.threads[t]) == Held(th') + multiset{block}
    ensures SameBlocks(s, s.threads[t], s', th') && |s'.live| == |s.live| + 1
  {
    hide Held, Exclusive;
    assert block in Held(s.threads[t]);
    HeldAlone(s, t, block);
    assert multiset(s'.live) == multiset(s.live) + multiset{block};
    assert 0 !in s.blocks by { NullIsNoBlock(s); }
  }

  lemma NullIsNoBlock(s: System)
    requires Exclusive(s)
    ensures 0 !in s.blocks
  {
  }

  lemma AllocatorToLive(s: System, t: nat, block: Address, th': Thread, s': System)
    requires Exclusive(s) && t < |s.threads| && block !in s.blocks && block != 0
    requires s'.live == s.live + {block} && s'.blocks == s.blocks + {block} && s'.stack == s.stack
    requires Held(s.threads[t]) == Held(th')
    ensures SameBlocks(s, s.threads[t], s', th') && |s'.live| == |s.live| + 1 && block !in s.live
    ensures forall a :: a in s.stack ==> a in s.blocks
  {
    hide Held, HeldBy;
    assert multiset(s.blocks)[block] == 0;
    assert block !in s.live;
    assert multiset(s'.live) == multiset(s.live) + multiset{block};
    assert multiset(s'.blocks) == multiset(s.blocks) + multiset{block};
    forall a | a in s.stack
      ensures a in s.blocks
    {
      assert multiset(s.stack)[a] > 0;
      assert multiset(s.blocks)[a] > 0;
    }
  }

  // ---------------------------------------------------------------- pushing a chain

  lemma CountsTwice(slots: seq<Address>, i: nat, j: nat)
    requires i < j < |slots| && slots[i] == slots[j]
    ensures multiset(slots)[slots[i]] >= 2
  {
    assert slots == slots[..i] + [slots[i]] + slots[i + 1..j] + [slots[j]] + slots[j + 1..];
  }

  lemma SlotsDistinct(s: System, t: nat)
    requires Exclusive(s) && t < |s.threads| && Plain(s.threads[t].pc)
    ensures var slots := s.threads[t].slots;
            && (forall i :: 0 <= i < |slots| ==> slots[i] != 0 && slots[i] in Held(s.threads[t]))
            && forall i, j :: 0 <= i < j < |slots| ==> slots[i] != slots[j]
  {
    hide Exclusive;
    var th := s.threads[t];
    var slots := th.slots;
    PlainIs(th);
    HeldOf(th);
    hide Held, Slots, Chain, Leaving, Plain;
    forall i | 0 <= i < |slots|
      ensures slots[i] != 0 && slots[i] in Held(th) && Held(th)[slots[i]] == 1
    {
      assert slots[i] in multiset(slots);
      HeldAlone(s, t, slots[i]);
    }
    forall i, j | 0 <= i < j < |slots|
      ensures slots[i] != slots[j]
    {
      if slots[i] == slots[j] { CountsTwice(slots, i, j); }
    }
  }

  /** A write into a slot's own block. */
  lemma WriteKeeps(s: System, t: nat, k: nat, value: Address, th': Thread, s': System)
    requires Inv(s) && t < |s.threads| && Plain(s.threads[t].pc) && k < |s.threads[t].slots|
    requires s'.threads == s.threads[t := th'] && s'.mem == s.mem[s.threads[t].slots[k] := value]
    requires s'.blocks == s.blocks && s'.live == s.live && s'.head == s.head && s'.stack == s.stack
    requires Held(th') == Held(s.threads[t]) && SameBalance(s, s.threads[t], s', th') && ThreadOk(s'.mem, th')
    ensures Inv(s')
  {
    hide Inv, Linked, Held, ThreadOk, SameBalance, Plain;
    ThreadIsOk(s, t);
    SlotsDistinct(s, t);
    var a := s.threads[t].slots[k];
    HeldAlone(s, t, a);
    LinkedFrame(s.mem, s'.mem, s.head, s.stack);
    OneThread(s, t, th', s');
  }

  /** A step between plain places that leaves slots and counts alone. */
  lemma PlainStep(s: System, th: Thread, s': System, th': Thread)
    requires Plain(th.pc) && Plain(th'.pc) && th'.slots == th.slots && th'.pending == th.pending
    requires s' == s.(mem := s'.mem, threads := s'.threads, orphaned := s'.orphaned)
    requires s'.orphaned - OffStack(th') == s.orphaned - OffStack(th)
    ensures Held(th') == Held(th) && SameBalance(s, th, s', th')
  {
    PlainIs(th);
    PlainIs(th');
    hide Slots, Chain, Leaving, Hits, Misses, Returned, Freed, Retained, OwedDrained, OwedRetained, OffStack, Plain;
  }

  lemma LinkNextKeeps(s: System, t: nat)
    requires Inv(s) && t < |s.threads| && s.threads[t].pc.Linking? && s.threads[t].pc.i + 1 < |s.threads[t].slots|
    ensures Inv(Push(s, t))
  {
    hide Inv, Held, SameBalance, Linked;
    ThreadIsOk(s, t);
    SlotsDistinct(s, t);
    var th, s' := s.threads[t], Push(s, t);
    PlainStep(s, th, s', s'.threads[t]);
    WriteKeeps(s, t, th.pc.i, th.slots[th.pc.i + 1], s'.threads[t], s');
  }

  /** The write of the last block's link, to the head that was seen. */
  lemma LinkLastKeeps(s: System, t: nat)
    requires Inv(s) && t < |s.threads| && s.threads[t].pc.Writing?
    ensures Inv(Push(s, t))
  {
    hide Inv, Held, SameBalance, Linked;
    ThreadIsOk(s, t);
    SlotsDistinct(s, t);
    var th, s' := s.threads[t], Push(s, t);
    PlainStep(s, th, s', s'.threads[t]);
    WriteKeeps(s, t, |th.slots| - 1, th.pc.seen, s'.threads[t], s');
  }

  lemma PushMovesOn(s: System, t: nat)
    requires Inv(s) && t < |s.threads|
    requires var th := s.threads[t]; th.pc.Raising? || th.pc.Loading? || (th.pc.Linking? && th.pc.i + 1 >= |th.slots|)
                                     || (th.pc.Swapping? && s.head != th.pc.seen)
    ensures Inv(Push(s, t))
  {
    hide Inv, Held, SameBalance, Linked;
    ThreadIsOk(s, t);
    var th, s' := s.threads[t], Push(s, t);
    PlainStep(s, th, s', s'.threads[t]);
    QuietStep(s, t, s'.threads[t], s');
  }

  /** A chain linked in front of a stack is the longer stack. */
  lemma ChainBeforeStack(mem: map<Address, Address>, slots: seq<Address>, head: Address, stack: seq<Address>)
    requires LinkedUpTo(mem, slots, |slots| - 1) && Read(mem, slots[|slots| - 1]) == head && Linked(mem, head, stack)
    requires forall i :: 0 <= i < |slots| ==> slots[i] != 0
    ensures Linked(mem, slots[0], slots + stack)
  {
    var chain := slots + stack;
    forall i | 0 <= i < |chain|
      ensures chain[i] != 0 && Read(mem, chain[i]) == LinkAfter(chain, i)
    {
      var n := |slots|;
      assert i + 1 >= n && i + 1 < |chain| ==> chain[i + 1] == stack[i + 1 - n];
      assert i >= n ==> chain[i] == stack[i - n];
      assert i < n ==> chain[i] == slots[i];
      assert i + 1 < n ==> chain[i + 1] == slots[i + 1];
    }
  }

  /** The compare-and-swap succeeds. However often the head was taken, freed and pushed again
      since it was seen, the stack is now the chain followed by what the stack is at this
      instant. */
  lemma SwapKeeps(s: System, t: nat)
    requires Inv(s) && t < |s.threads| && s.threads[t].pc == Swapping(s.head)
    ensures Inv(Push(s, t))
  {
    hide Inv, Held, Linked, SameBalance;
    ThreadIsOk(s, t);
    SlotsDistinct(s, t);
    var th, s' := s.threads[t], Push(s, t);
    var th' := s'.threads[t];
    ChainBeforeStack(s.mem, th.slots, s.head, s.stack);
    SwapBalance(s, th, s', th');
    SwapBlocks(s, th, s', th');
    hide ThreadOk;
    FlushingIsOk(s'.mem, th');
    OneThread(s, t, th', s');
  }

  lemma SwapBlocks(s: System, th: Thread, s': System, th': Thread)
    requires Exclusive(s) && th.pc.Swapping? && th' == th.(slots := [], pc := Flushing(0, Nothing))
    requires s' == s.(threads := s'.threads, head := s'.head, stack := th.slots + s.stack)
    ensures SameBlocks(s, th, s', th')
  {
    PlainIs(th);
    PushedIs(th);
    hide Slots, Chain, Leaving, HeldBy;
    assert multiset(th.slots + s.stack) == multiset(th.slots) + multiset(s.stack);
  }

  lemma SwapBalance(s: System, th: Thread, s': System, th': Thread)
    requires th.pc.Swapping? && th' == th.(slots := [], pc := Flushing(0, Nothing))
    requires s' == s.(threads := s'.threads, head := s'.head, stack := th.slots + s.stack)
    ensures SameBalance(s, th, s', th')
  {
    PlainIs(th);
    PushedIs(th);
    hide Slots, Chain, Leaving, Hits, Misses, Returned, Freed, Retained, OwedDrained, OwedRetained, OffStack;
  }

  lemma PushedIs(th: Thread)
    requires th.pc.Swapping?
    ensures var th' := th.(slots := [], pc := Flushing(0, Nothing));
            && Slots(th') == Chain(th') == Leaving(th') == []
            && Hits(th') == Hits(th) && Misses(th') == Misses(th)
            && Returned(th') == Returned(th) && Freed(th') == Freed(th) && Retained(th') == Retained(th)
            && OwedDrained(th') == OwedRetained(th') == OffStack(th') == 0
  {
  }

  lemma FlushingIsOk(mem: map<Address, Address>, th: Thread)
    requires th.pc.Flushing? && |th.slots| <= MAX_RETAINED
    ensures ThreadOk(mem, th)
  {
  }

  // ---------------------------------------------------------------- adopting the orphans

  /** The whole stack passes to the thread, which is about to walk it. */
  lemma StackToThread(s: System, t: nat, th': Thread, s': System)
    requires Inv(s) && t < |s.threads| && s'.threads == s.threads[t := th'] && ThreadOk(s.mem, th')
    requires s' == s.(threads := s'.threads, head := 0, stack := [])
    requires Held(th') == Held(s.threads[t]) + multiset(s.stack) && SameBalance(s, s.threads[t], s', th')
    ensures Inv(s')
  {
    hide Inv, Held, SameBalance, ThreadOk;
    ThreadIsOk(s, t);
    assert SameBlocks(s, s.threads[t], s', th') by { NullIsNoBlock(s); }
    OneThread(s, t, th', s');
  }

  lemma AdoptTakeKeeps(s: System, t: nat)
    requires Inv(s) && t < |s.threads| && s.threads[t].pc == AdoptTake
    ensures Inv(Adopt(s, t))
  {
    hide Inv, Held;
    ThreadIsOk(s, t);
    var th, s' := s.threads[t], Adopt(s, t);
    var th' := s'.threads[t];
    assert Slots(th') == Slots(th) && Chain(th') == s.stack && Chain(th) == Leaving(th') == Leaving(th) == [];
    HeldOf(th);
    HeldOf(th');
    StackToThread(s, t, th', s');
  }

  /** A block of a thread goes back to the allocator. */
  lemma ThreadToAllocator(s: System, t: nat, block: Address, th': Thread, s': System)
    requires Inv(s) && t < |s.threads| && s'.threads == s.threads[t := th'] && ThreadOk(s.mem, th')
    requires s' == s.(threads := s'.threads, blocks := s.blocks - {block})
    requires Held(s.threads[t]) == Held(th') + multiset{block} && SameBalance(s, s.threads[t], s', th')
    ensures Inv(s')
  {
    hide Inv, Held, SameBalance, ThreadOk, Exclusive, Linked;
    ThreadIsOk(s, t);
    assert block in Held(s.threads[t]);
    HeldAlone(s, t, block);
    assert multiset(s.blocks) == multiset(s'.blocks) + multiset{block};
    NullIsNoBlock(s);
    OneThread(s, t, th', s');
  }

  /** The first block of a chain, and the chain behind it. */
  lemma ChainSplits(mem: map<Address, Address>, chain: Address, rest: seq<Address>)
    requires Linked(mem, chain, rest)
    ensures chain == 0 <==> rest == []
    ensures rest != [] ==> rest == [chain] + rest[1..] && Linked(mem, Read(mem, chain), rest[1..])
    ensures rest != [] ==> multiset(rest) == multiset{chain} + multiset(rest[1..])
  {
    if rest != [] {
      assert chain == rest[0] && rest == [chain] + rest[1..];
      var tail := rest[1..];
      forall i | 0 <= i < |tail|
        ensures tail[i] != 0 && Read(mem, tail[i]) == LinkAfter(tail, i)
      {
        assert tail[i] == rest[i + 1];
      }
      assert Read(mem, rest[0]) == LinkAfter(rest, 0);
    }
  }

  /** Walking on by one block, which is kept or freed. */
  lemma WalkBalance(s: System, th: Thread, s': System, th': Thread)
    requires th.pc.Adopting? && th.pc.rest != []
    requires s' == s.(threads := s'.threads, blocks := s'.blocks)
    requires th'.pc.Adopting? && th'.pc.rest == th.pc.rest[1..] && th'.pending == th.pending
    requires || (|th'.slots| == |th.slots| + 1 && th'.pc.kept == th.pc.kept + 1 && th'.pc.trimmed == th.pc.trimmed)
             || (|th'.slots| == |th.slots| && th'.pc.kept == th.pc.kept && th'.pc.trimmed == th.pc.trimmed + 1)
    ensures SameBalance(s, th, s', th')
  {
    UnflushedIs(th);
    UnflushedIs(th');
    hide Hits, Misses, Returned, Freed, Retained;
  }

  lemma WalkKeepsBlock(s: System, t: nat)
    requires Inv(s) && t < |s.threads| && s.threads[t].pc.Adopting? && s.threads[t].pc.chain != 0
    requires |s.threads[t].slots| < MAX_RETAINED
    ensures Inv(Adopt(s, t))
  {
    hide Inv, Held, Linked, SameBalance;
    ThreadIsOk(s, t);
    var th, s' := s.threads[t], Adopt(s, t);
    var th' := s'.threads[t];
    ChainSplits(s.mem, th.pc.chain, th.pc.rest);
    WalkBalance(s, th, s', th');
    assert ThreadOk(s.mem, th');
    hide ThreadOk;
    assert Held(th') == Held(th) by { WalkHeld(th, th'); }
    QuietStep(s, t, th', s');
  }

  lemma WalkHeld(th: Thread, th': Thread)
    requires th.pc.Adopting? && th.pc.rest != [] && th'.pc.Adopting?
    requires th'.slots == th.slots + [th.pc.rest[0]] && th'.pc.rest == th.pc.rest[1..]
    ensures Held(th') == Held(th)
  {
    assert th.pc.rest == [th.pc.rest[0]] + th'.pc.rest;
    assert multiset(th.pc.rest) == multiset{th.pc.rest[0]} + multiset(th'.pc.rest);
    assert multiset(th'.slots) == multiset(th.slots) + multiset{th.pc.rest[0]};
  }

  lemma WalkTrims(s: System, t: nat)
    requires Inv(s) && t < |s.threads| && s.threads[t].pc.Adopting? && s.threads[t].pc.chain != 0
    requires |s.threads[t].slots| >= MAX_RETAINED
    ensures Inv(Adopt(s, t))
  {
    hide Inv, Held, Linked, SameBalance;
    ThreadIsOk(s, t);
    var th, s' := s.threads[t], Adopt(s, t);
    var th' := s'.threads[t];
    ChainSplits(s.mem, th.pc.chain, th.pc.rest);
    WalkBalance(s, th, s', th');
    assert ThreadOk(s.mem, th');
    hide ThreadOk;
    ChainLoses(th, th', th.pc.chain);
    ThreadToAllocator(s, t, th.pc.chain, th', s');
  }

  lemma ChainLoses(th: Thread, th': Thread, block: Address)
    requires Slots(th') == Slots(th) && Leaving(th') == Leaving(th)
    requires Chain(th) != [] && Chain(th)[0] == block && Chain(th') == Chain(th)[1..]
    ensures Held(th) == Held(th') + multiset{block}
  {
    assert Chain(th) == [block] + Chain(th');
    assert multiset(Chain(th)) == multiset{block} + multiset(Chain(th'));
  }

  lemma AdoptLooksBalance(s: System, t: nat)
    requires t < |s.threads|
    requires var pc := s.threads[t].pc; pc.AdoptLoad? || (pc.Adopting? && pc.chain == 0 && pc.rest == [])
    ensures SameBalance(s, s.threads[t], Adopt(s, t), Adopt(s, t).threads[t])
  {
    var th, th' := s.threads[t], Adopt(s, t).threads[t];
    UnflushedIs(th);
    UnflushedIs(th');
    hide Hits, Misses, Returned, Freed, Retained;
  }

  lemma AdoptCountsBalance(s: System, t: nat)
    requires t < |s.threads|
    requires var pc := s.threads[t].pc; pc.AdoptLower? || pc.AdoptCounted? || pc.AdoptDrained?
    ensures SameBalance(s, s.threads[t], Adopt(s, t), Adopt(s, t).threads[t])
  {
    var th, th' := s.threads[t], Adopt(s, t).threads[t];
    UnflushedIs(th);
    UnflushedIs(th');
    hide Hits, Misses, Returned, Freed, Retained;
  }

  lemma AdoptMovesOn(s: System, t: nat)
    requires Inv(s) && t < |s.threads|
    requires var pc := s.threads[t].pc;
             pc.AdoptLoad? || (pc.Adopting? && pc.chain == 0) || pc.AdoptLower? || pc.AdoptCounted? || pc.AdoptDrained?
    ensures Inv(Adopt(s, t))
  {
    hide Inv, Held, SameBalance;
    ThreadIsOk(s, t);
    var th, s' := s.threads[t], Adopt(s, t);
    var th' := s'.threads[t];
    if th.pc.Adopting? {
      ChainSplits(s.mem, th.pc.chain, th.pc.rest);
    }
    hide Linked;
    if th.pc.AdoptLoad? || th.pc.Adopting? { AdoptLooksBalance(s, t); } else { AdoptCountsBalance(s, t); }
    assert Slots(th') == Slots(th) && Chain(th') == Chain(th) == Leaving(th') == Leaving(th) == [];
    HeldOf(th);
    HeldOf(th');
    QuietStep(s, t, th', s');
  }

  lemma AdoptKeeps(s: System, t: nat)
    requires Inv(s) && t < |s.threads|
    requires var pc := s.threads[t].pc;
             pc.AdoptLoad? || pc.AdoptTake? || pc.Adopting? || pc.AdoptLower? || pc.AdoptCounted? || pc.AdoptDrained?
    ensures Inv(Adopt(s, t))
  {
    hide Inv, Adopt;
    var pc := s.threads[t].pc;
    if pc.AdoptTake? {
      AdoptTakeKeeps(s, t);
    } else if pc.Adopting? && pc.chain != 0 {
      if |s.threads[t].slots| < MAX_RETAINED { WalkKeepsBlock(s, t); } else { WalkTrims(s, t); }
    } else {
      AdoptMovesOn(s, t);
    }
  }

  // ---------------------------------------------------------------- draining

  lemma FreeingEnds(s: System, t: nat)
    requires Inv(s) && t < |s.threads| && s.threads[t].pc.Freeing?
    ensures Inv(DrainOn(s, t))
  {
    hide Inv, Held, Linked;
    ThreadIsOk(s, t);
    var th, s' := s.threads[t], DrainOn(s, t);
    var th' := s'.threads[t];
    assert Slots(th') == Slots(th) && Chain(th') == Chain(th) == Leaving(th') == [] && Leaving(th) == [th.pc.block];
    HeldOf(th);
    HeldOf(th');
    ThreadToAllocator(s, t, th.pc.block, th', s');
  }

  lemma DrainSlotBalance(s: System, th: Thread, s': System, th': Thread)
    requires th.pc.DrainSlots? && th.pc.i < |th.slots| && th' == th.(pc := DrainSlots(th.pc.i + 1))
    requires s' == s.(threads := s'.threads, blocks := s'.blocks)
    ensures SameBalance(s, th, s', th')
  {
    UnflushedIs(th);
    UnflushedIs(th');
    hide Hits, Misses, Returned, Freed, Retained;
  }

  lemma DrainSlotKeeps(s: System, t: nat)
    requires Inv(s) && t < |s.threads| && s.threads[t].pc.DrainSlots? && s.threads[t].pc.i < |s.threads[t].slots|
    ensures Inv(DrainOn(s, t))
  {
    hide Inv, Held, Linked, SameBalance;
    ThreadIsOk(s, t);
    var th, s' := s.threads[t], DrainOn(s, t);
    var th', i := s'.threads[t], th.pc.i;
    DrainSlotBalance(s, th, s', th');
    assert th.slots[i..] == [th.slots[i]] + th.slots[i + 1..];
    assert Slots(th) == [th.slots[i]] + Slots(th') && Chain(th') == Chain(th) == Leaving(th') == Leaving(th) == [];
    hide Slots, Chain, Leaving;
    HeldOf(th);
    HeldOf(th');
    assert multiset(Slots(th)) == multiset{th.slots[i]} + multiset(Slots(th'));
    ThreadToAllocator(s, t, th.slots[i], th', s');
  }

  lemma DrainSlotsEnd(s: System, t: nat)
    requires Inv(s) && t < |s.threads| && s.threads[t].pc.DrainSlots? && s.threads[t].pc.i >= |s.threads[t].slots|
    ensures Inv(DrainOn(s, t))
  {
    hide Inv, Held, Linked;
    ThreadIsOk(s, t);
    var th, s' := s.threads[t], DrainOn(s, t);
    var th' := s'.threads[t];
    assert Slots(th') == Slots(th) == Chain(th') == Chain(th) == Leaving(th') == Leaving(th) == [];
    HeldOf(th);
    HeldOf(th');
    QuietStep(s, t, th', s');
  }

  lemma DrainTakeKeeps(s: System, t: nat)
    requires Inv(s) && t < |s.threads| && s.threads[t].pc.DrainTake?
    ensures Inv(DrainOn(s, t))
  {
    hide Inv, Held;
    ThreadIsOk(s, t);
    var th, s' := s.threads[t], DrainOn(s, t);
    var th' := s'.threads[t];
    assert Slots(th') == Slots(th) && Chain(th') == s.stack && Chain(th) == Leaving(th') == Leaving(th) == [];
    HeldOf(th);
    HeldOf(th');
    StackToThread(s, t, th', s');
  }

  lemma DrainWalkBalance(s: System, th: Thread, s': System, th': Thread)
    requires th.pc.Draining? && th.pc.rest != [] && th'.pc.Draining?
    requires th' == th.(pc := Draining(th'.pc.chain, th.pc.rest[1..], th.pc.orphans + 1, th.pc.count))
    requires s' == s.(threads := s'.threads, blocks := s'.blocks)
    ensures SameBalance(s, th, s', th')
  {
    UnflushedIs(th);
    UnflushedIs(th');
    hide Hits, Misses, Returned, Freed, Retained;
  }

  lemma DrainWalkKeeps(s: System, t: nat)
    requires Inv(s) && t < |s.threads| && s.threads[t].pc.Draining? && s.threads[t].pc.chain != 0
    ensures Inv(DrainOn(s, t))
  {
    hide Inv, Held, Linked, SameBalance;
    ThreadIsOk(s, t);
    var th, s' := s.threads[t], DrainOn(s, t);
    var chain, rest := th.pc.chain, th.pc.rest;
    ChainSplits(s.mem, chain, rest);
    var th' := th.(pc := Draining(Read(s.mem, chain), rest[1..], th.pc.orphans + 1, th.pc.count));
    assert s' == s.(threads := s.threads[t := th'], blocks := s.blocks - {chain});
    hide DrainOn;
    DrainWalkBalance(s, th, s', th');
    assert ThreadOk(s.mem, th');
    hide ThreadOk;
    ChainLoses(th, th', chain);
    ThreadToAllocator(s, t, chain, th', s');
  }

  lemma DrainWalkEnds(s: System, t: nat)
    requires Inv(s) && t < |s.threads| && s.threads[t].pc.Draining? && s.threads[t].pc.chain == 0
    ensures Inv(DrainOn(s, t))
  {
    hide Inv, Held;
    ThreadIsOk(s, t);
    var th, s' := s.threads[t], DrainOn(s, t);
    var th' := s'.threads[t];
    ChainSplits(s.mem, th.pc.chain, th.pc.rest);
    hide Linked;
    assert Slots(th') == Slots(th) && Chain(th') == Chain(th) == Leaving(th') == Leaving(th) == [];
    HeldOf(th);
    HeldOf(th');
    QuietStep(s, t, th', s');
  }

  lemma DrainLowerBalance(s: System, t: nat)
    requires t < |s.threads| && (s.threads[t].pc.DrainLower? || s.threads[t].pc.DrainRetained?)
    ensures SameBalance(s, s.threads[t], DrainOn(s, t), DrainOn(s, t).threads[t])
  {
    var th, th' := s.threads[t], DrainOn(s, t).threads[t];
    UnflushedIs(th);
    UnflushedIs(th');
    hide Hits, Misses, Returned, Freed, Retained;
  }

  lemma DrainCountBalance(s: System, t: nat)
    requires t < |s.threads| && s.threads[t].pc.DrainCount?
    ensures SameBalance(s, s.threads[t], DrainOn(s, t), DrainOn(s, t).threads[t])
  {
    var th, th' := s.threads[t], DrainOn(s, t).threads[t];
    UnflushedIs(th);
    UnflushedIs(th');
    hide Hits, Misses, Returned, Freed, Retained;
  }

  lemma DrainCounts(s: System, t: nat)
    requires Inv(s) && t < |s.threads|
    requires var pc := s.threads[t].pc; pc.DrainLower? || pc.DrainRetained? || pc.DrainCount?
    ensures Inv(DrainOn(s, t))
  {
    hide Inv, Held, Linked, SameBalance;
    ThreadIsOk(s, t);
    if s.threads[t].pc.DrainCount? { DrainCountBalance(s, t); } else { DrainLowerBalance(s, t); }
    var th, s' := s.threads[t], DrainOn(s, t);
    var th' := s'.threads[t];
    assert Slots(th') == Slots(th) && Chain(th') == Chain(th) == Leaving(th') == Leaving(th) == [];
    hide Slots, Chain, Leaving;
    HeldOf(th);
    HeldOf(th');
    QuietStep(s, t, th', s');
  }

  lemma DrainKeeps(s: System, t: nat)
    requires Inv(s) && t < |s.threads|
    ensures Inv(DrainOn(s, t))
  {
    hide Inv;
    var pc := s.threads[t].pc;
    match pc
    case Freeing(_) => FreeingEnds(s, t);
    case DrainSlots(i) => if i < |s.threads[t].slots| { DrainSlotKeeps(s, t); } else { DrainSlotsEnd(s, t); }
    case DrainTake(_) => DrainTakeKeeps(s, t);
    case Draining(chain, _, _, _) => if chain != 0 { DrainWalkKeeps(s, t); } else { DrainWalkEnds(s, t); }
    case DrainLower(_, _) => DrainCounts(s, t);
    case DrainRetained(_, _) => DrainCounts(s, t);
    case DrainCount(_) => DrainCounts(s, t);
    case _ =>
  }

  // ---------------------------------------------------------------- all steps

  lemma PushKeeps(s: System, t: nat)
    requires Inv(s) && t < |s.threads|
    requires var pc := s.threads[t].pc; pc.Linking? || pc.Raising? || pc.Loading? || pc.Writing? || pc.Swapping?
    ensures Inv(Push(s, t))
  {
    hide Inv, Push;
    var th := s.threads[t];
    if th.pc.Writing? {
      LinkLastKeeps(s, t);
    } else if th.pc.Swapping? && th.pc.seen == s.head {
      SwapKeeps(s, t);
    } else if th.pc.Linking? && th.pc.i + 1 < |th.slots| {
      LinkNextKeeps(s, t);
    } else {
      PushMovesOn(s, t);
    }
  }

  /** What the application writes into a packet touches nothing of the pool. */
  lemma ScribbleKeeps(s: System, block: Address, junk: Address)
    requires Inv(s) && block in s.live
    ensures Inv(s.(mem := s.mem[block := junk]))
  {
    hide Held, HeldBy, Linked, ThreadOk;
    var s' := s.(mem := s.mem[block := junk]);
    assert multiset(s.live)[block] == 1 && multiset(s.blocks)[block] <= 1;
    assert block !in s.stack && block !in HeldBy(s.threads);
    LinkedFrame(s.mem, s'.mem, s.head, s.stack);
    forall t | 0 <= t < |s.threads|
      ensures ThreadOk(s'.mem, s'.threads[t])
    {
      HeldOnce(s.threads, t, block);
      ThreadFrame(s.mem, s'.mem, s.threads[t]);
    }
  }

  lemma ContinueKeeps(s: System, t: nat, block: Address, junk: Address)
    requires Inv(s) && Enabled(s, Step(t, Continue(block, junk)))
    ensures Inv(After(s, Step(t, Continue(block, junk))))
  {
    hide Inv, Flush, Take, Push, Adopt, DrainOn;
    var pc := s.threads[t].pc;
    if pc.Flushing? {
      FlushKeeps(s, t);
    } else if pc.Taking? {
      if s.threads[t].slots != [] { TakeCachedKeeps(s, t, block, junk); } else { TakeFreshKeeps(s, t, block, junk); }
    } else if pc.Linking? || pc.Raising? || pc.Loading? || pc.Writing? || pc.Swapping? {
      PushKeeps(s, t);
    } else if pc.AdoptLoad? || pc.AdoptTake? || pc.Adopting? || pc.AdoptLower? || pc.AdoptCounted? || pc.AdoptDrained? {
      AdoptKeeps(s, t);
    } else {
      DrainKeeps(s, t);
    }
  }

  lemma StepKeeps(s: System, step: Step)
    requires Inv(s) && Enabled(s, step)
    ensures Inv(After(s, step))
  {
    match step
    case Scribble(block, junk) => ScribbleKeeps(s, block, junk);
    case Step(t, action) =>
      hide Inv, Released;
      match action
      case Continue(block, junk) => ContinueKeeps(s, t, block, junk);
      case Oversized => OversizedKeeps(s, t);
      case Release(block, cached) => ReleaseKeeps(s, t, block, cached);
      case _ => StartKeeps(s, t, action);
  }

  lemma IdleBooks(idle: Thread)
    requires idle.pc == Idle && idle.slots == [] && idle.pending == ZERO
    ensures InUse(idle) == 0
    ensures InCaches(idle) == 0
    ensures Overcount(idle) == 0
    ensures Off(idle) == 0
  {
  }

  lemma IdleIsOk(mem: map<Address, Address>, th: Thread)
    requires th.pc == Idle && th.slots == []
    ensures ThreadOk(mem, th)
  {
  }

  lemma {:induction false} IdleSums(threads: seq<Thread>)
    requires forall t ::
             0 <= t < |threads| ==> threads[t].pc == Idle && threads[t].slots == [] && threads[t].pending == ZERO
    ensures HeldBy(threads) == multiset{}
    ensures Sum(threads, InUse) == 0
    ensures Sum(threads, InCaches) == 0
    ensures Sum(threads, Overcount) == 0
    ensures Sum(threads, Off) == 0
  {
    if threads != [] {
      IdleBooks(threads[0]);
      IdleSums(threads[1..]);
      hide InUse, InCaches, Overcount, Off;
    }
  }

  lemma StartsBalanced(s: System)
    requires Initial(s)
    ensures Conserved(s) && HeldBy(s.threads) == multiset{}
  {
    hide Sum, HeldBy, InUse, InCaches, Overcount, Off;
    IdleSums(s.threads);
  }

  lemma StartsWell(s: System)
    requires Initial(s)
    ensures Inv(s)
  {
    StartsBalanced(s);
    hide Conserved, HeldBy, ThreadOk;
    forall t | 0 <= t < |s.threads|
      ensures ThreadOk(s.mem, s.threads[t])
    {
      IdleIsOk(s.mem, s.threads[t]);
    }
  }

  lemma {:induction false} RunKeeps(states: seq<System>, steps: seq<Step>, n: nat)
    requires Run(states, steps) && n < |states|
    ensures Inv(states[n])
  {
    hide Inv, After, Enabled;
    if n == 0 {
      StartsWell(states[0]);
    } else {
      RunKeeps(states, steps, n - 1);
      StepKeeps(states[n - 1], steps[n - 1]);
    }
  }

  // ---------------------------------------------------------------- the theorems

  function One(yes: bool): nat { if yes then 1 else 0 }

  /** In every reachable state an allocated block has exactly one owner, and a free address
      none: it is a live packet, or on the orphan stack, or held by one thread once. */
  lemma ExactlyOneOwner(states: seq<System>, steps: seq<Step>, n: nat, a: Address)
    requires Run(states, steps) && n < |states|
    ensures var s := states[n];
            One(a in s.live) + multiset(s.stack)[a] + HeldBy(s.threads)[a] == One(a in s.blocks)
  {
    hide HeldBy;
    RunKeeps(states, steps, n);
    var s := states[n];
    assert multiset(s.blocks)[a] == (multiset(s.live) + HeldBy(s.threads) + multiset(s.stack))[a];
  }

  /** The addresses thread `th` reads or writes a link at in its next step. */
  function Dereferences(th: Thread): set<Address> {
    match th.pc
    case Linking(i) => if i + 1 < |th.slots| then {th.slots[i]} else {}
    case Writing(_) => if th.slots != [] then {th.slots[|th.slots| - 1]} else {}
    case Adopting(chain, _, _, _) => if chain != 0 then {chain} else {}
    case Draining(chain, _, _, _) => if chain != 0 then {chain} else {}
    case _ => {}
  }

  lemma DereferencesHeld(mem: map<Address, Address>, th: Thread, a: Address)
    requires ThreadOk(mem, th) && a in Dereferences(th)
    ensures a in Held(th)
  {
    if th.pc.Linking? || th.pc.Writing? {
      assert Slots(th) == th.slots && a in multiset(th.slots);
    } else {
      var rest := Chain(th);
      assert rest != [] && rest[0] == a;
      assert a in multiset(rest);
    }
  }

  /** No thread ever touches the link of a freed block, a live packet, or another's block. */
  lemma OnlyOwnBlocksAreTouched(states: seq<System>, steps: seq<Step>, n: nat, t: nat, a: Address)
    requires Run(states, steps) && n < |states| && t < |states[n].threads| && a in Dereferences(states[n].threads[t])
    ensures var s := states[n];
            && a in s.blocks && a !in s.live && a !in s.stack
            && forall u :: 0 <= u < |s.threads| && u != t ==> a !in Held(s.threads[u])
  {
    hide Held, Dereferences;
    RunKeeps(states, steps, n);
    DereferencesHeld(states[n].mem, states[n].threads[t], a);
    HeldAlone(states[n], t, a);
  }

  /** What following the links gives does not depend on who follows them. */
  lemma {:induction false} ChainIsUnique(mem: map<Address, Address>, first: Address, c: seq<Address>, d: seq<Address>)
    requires Linked(mem, first, c) && Linked(mem, first, d)
    ensures c == d
    decreases |c|
  {
    if c != [] && d != [] {
      ChainSplits(mem, first, c);
      ChainSplits(mem, first, d);
      ChainIsUnique(mem, Read(mem, first), c[1..], d[1..]);
    }
  }

  /** A successful compare-and-swap, in any reachable state: if the links led from the head
      through `before`, they lead from the new head through the pushed blocks and then through
      `before`. Nothing is asked about how long ago the head was read. */
  lemma PushedChainPrecedesStack(states: seq<System>, steps: seq<Step>, n: nat, t: nat, before: seq<Address>)
    requires Run(states, steps) && n < |states| && t < |states[n].threads|
    requires states[n].threads[t].pc == Swapping(states[n].head) && Linked(states[n].mem, states[n].head, before)
    ensures var s, s' := states[n], Push(states[n], t);
            && s.threads[t].slots != [] && s'.head == s.threads[t].slots[0]
            && Linked(s'.mem, s'.head, s.threads[t].slots + before)
  {
    RunKeeps(states, steps, n);
    PushedChain(states[n], t, before);
  }

  lemma PushedChain(s: System, t: nat, before: seq<Address>)
    requires Inv(s) && t < |s.threads|
    requires s.threads[t].pc == Swapping(s.head) && Linked(s.mem, s.head, before)
    ensures var s' := Push(s, t);
            && s.threads[t].slots != [] && s'.head == s.threads[t].slots[0]
            && Linked(s'.mem, s'.head, s.threads[t].slots + before)
  {
    hide Linked, Inv, Exclusive, Held;
    ThreadIsOk(s, t);
    SlotsDistinct(s, t);
    ChainBeforeStack(s.mem, s.threads[t].slots, s.head, before);
  }

  /** No cache ever holds more than its 128 slots. */
  lemma CachesAreBounded(states: seq<System>, steps: seq<Step>, n: nat, t: nat)
    requires Run(states, steps) && n < |states| && t < |states[n].threads|
    ensures |states[n].threads[t].slots| <= MAX_RETAINED
  {
    RunKeeps(states, steps, n);
    SlotsFit(states[n], t);
  }

  lemma {:induction false} OffAtLeast(threads: seq<Thread>, t: nat)
    requires t < |threads|
    ensures Sum(threads, Off) >= Off(threads[t]) >= 0
  {
    hide OffStack;
    OffNonnegative(threads[1..]);
    if t > 0 {
      OffAtLeast(threads[1..], t - 1);
    }
  }

  lemma {:induction false} OffNonnegative(threads: seq<Thread>)
    ensures Sum(threads, Off) >= 0
  {
    hide OffStack;
    if threads != [] {
      OffNonnegative(threads[1..]);
    }
  }

  lemma OffStackBound(s: System, t: nat)
    requires Inv(s) && t < |s.threads|
    ensures s.orphaned >= |s.stack| + OffStack(s.threads[t])
  {
    OffAtLeast(s.threads, t);
  }

  lemma StackBound(s: System)
    requires Inv(s)
    ensures s.orphaned >= |s.stack|
  {
    OffNonnegative(s.threads);
  }

  /** The orphan count bounds the orphan stack, and no thread lowers it below zero. */
  lemma OrphanCountBoundsStack(states: seq<System>, steps: seq<Step>, n: nat)
    requires Run(states, steps) && n < |states|
    ensures var s := states[n];
            && s.orphaned >= |s.stack|
            && forall t :: 0 <= t < |s.threads| ==>
                 && (s.threads[t].pc.AdoptLower?
                    ==> s.orphaned >= |s.stack| + s.threads[t].pc.kept + s.threads[t].pc.trimmed)
                 && (s.threads[t].pc.DrainLower? ==> s.orphaned >= |s.stack| + s.threads[t].pc.orphans)
  {
    hide Inv;
    var s := states[n];
    RunKeeps(states, steps, n);
    StackBound(s);
    forall t | 0 <= t < |s.threads|
      ensures s.orphaned >= |s.stack| + OffStack(s.threads[t])
    {
      OffStackBound(s, t);
    }
  }

  lemma {:induction false} SumsSplit(threads: seq<Thread>)
    ensures Sum(threads, InUse) == Sum(threads, Hits) + Sum(threads, Misses) - Sum(threads, Returned)
            - Sum(threads, Freed)
    ensures Sum(threads, InCaches)
            == Sum(threads, Cached) - Sum(threads, Returned) + Sum(threads, Hits) + Sum(threads, OwedDrained)
    ensures Sum(threads, Overcount) == Sum(threads, Retained) - Sum(threads, OwedRetained) - Sum(threads, Cached)
  {
    hide Hits, Misses, Returned, Freed, Retained, Cached, OwedDrained, OwedRetained;
    if threads != [] {
      SumsSplit(threads[1..]);
    }
  }

  /** In every reachable state, in the middle of any number of operations: with what the threads
      have counted and not published, acquisitions are releases plus live packets; and what the
      caches, the chains under way and the orphan stack hold is what was returned and neither hit
      nor drained, and what is counted as retained, each but for the blocks just freed. */
  lemma CountersBalance(states: seq<System>, steps: seq<Step>, n: nat)
    requires Run(states, steps) && n < |states|
    ensures var s := states[n];
            var hits, misses := s.hits + Sum(s.threads, Hits), s.misses + Sum(s.threads, Misses);
            var returned, freed := s.returned + Sum(s.threads, Returned), s.freed + Sum(s.threads, Freed);
            var retained, held := s.retained + Sum(s.threads, Retained), Sum(s.threads, Cached) + |s.stack|;
            && hits + misses == returned + freed + |s.live|
            && held == returned - hits - (s.drained + Sum(s.threads, OwedDrained))
            && held == retained - Sum(s.threads, OwedRetained)
            && s.orphaned == |s.stack| + Sum(s.threads, Off)
  {
    hide Sum;
    RunKeeps(states, steps, n);
    SumsSplit(states[n].threads);
  }

  /** Nobody is in the middle of anything, and every count is published. */
  ghost predicate Quiet(s: System) {
    forall t :: 0 <= t < |s.threads| ==> s.threads[t].pc == Idle && s.threads[t].pending == ZERO
  }

  function SlotCount(th: Thread): int { |th.slots| }

  lemma {:induction false} QuietSums(threads: seq<Thread>)
    requires forall t :: 0 <= t < |threads| ==> threads[t].pc == Idle && threads[t].pending == ZERO
    ensures Sum(threads, InUse) == 0
    ensures Sum(threads, InCaches) == Sum(threads, SlotCount)
    ensures Sum(threads, Overcount) == -Sum(threads, SlotCount)
    ensures Sum(threads, Off) == 0
  {
    if threads != [] {
      PlainIs(threads[0]);
      QuietSums(threads[1..]);
      hide Slots, Chain, Leaving, Hits, Misses, Returned, Freed, Retained, OwedDrained, OwedRetained, OffStack;
    }
  }

  /** Once all counts are published: acquisitions are releases plus live packets, and what is
      retained is what was returned and neither hit nor drained, which is what the caches and
      the orphan stack hold. */
  lemma CountersAddUp(states: seq<System>, steps: seq<Step>, n: nat)
    requires Run(states, steps) && n < |states| && Quiet(states[n])
    ensures var s := states[n];
            && s.hits + s.misses == s.returned + s.freed + |s.live|
            && s.retained == s.returned - s.hits - s.drained == Sum(s.threads, SlotCount) + |s.stack|
            && s.orphaned == |s.stack|
  {
    hide Sum;
    RunKeeps(states, steps, n);
    QuietSums(states[n].threads);
  }

  // ---------------------------------------------------------------- the batches

  /** A thread's counts agree with each other and stay within one batch. */
  predicate PendingOk(th: Thread) {
    var p := th.pending;
    && p.hits + p.misses + p.oversized + p.returned + p.freed == p.operations <= BATCH
    && (th.pc.Flushing? || p.operations < BATCH)
    && |th.slots| <= MAX_RETAINED
    && match th.pc
       case Flushing(_, TakeOrphans(count)) => count <= MAX_RETAINED && p.retained == p.returned - p.hits - count
       case _ => p.retained == p.returned - p.hits
  }

  lemma PendingCounted(th: Thread, pending: Pending, next: Then)
    requires pending.hits + pending.misses + pending.oversized + pending.returned + pending.freed
             == pending.operations + 1 <= BATCH
    requires pending.retained == pending.returned - pending.hits && !next.TakeOrphans? && |th.slots| <= MAX_RETAINED
    ensures PendingOk(Counted(th, pending, next))
  {
  }

  lemma PendingOperation(s: System, t: nat, action: Action)
    requires Enabled(s, Step(t, action)) && PendingOk(s.threads[t]) && !action.Continue?
    ensures PendingOk(After(s, Step(t, action)).threads[t])
  {
    hide Counted;
    var th, p := s.threads[t], s.threads[t].pending;
    match action
    case Oversized => PendingCounted(th, p.(oversized := p.oversized + 1), Nothing);
    case Release(block, _) =>
      if |th.slots| < MAX_RETAINED {
        PendingCounted(th.(slots := th.slots + [block]), p.(retained := p.retained + 1, returned := p.returned + 1),
            Nothing);
      } else {
        PendingCounted(th, p.(freed := p.freed + 1), FreeOne(block));
      }
    case _ =>
  }

  lemma PendingTake(s: System, t: nat, block: Address, junk: Address)
    requires t < |s.threads| && PendingOk(s.threads[t]) && s.threads[t].pc.Taking?
    ensures PendingOk(Take(s, t, block, junk).threads[t])
  {
    hide Counted;
    var th, p := s.threads[t], s.threads[t].pending;
    if th.slots != [] {
      PendingCounted(th.(slots := th.slots[..|th.slots| - 1]), p.(retained := p.retained - 1, hits := p.hits + 1),
          Nothing);
    } else {
      PendingCounted(th, p.(misses := p.misses + 1), Nothing);
    }
  }

  lemma PendingFlush(s: System, t: nat)
    requires t < |s.threads| && PendingOk(s.threads[t]) && s.threads[t].pc.Flushing?
    ensures PendingOk(Flush(s, t).threads[t])
  {
  }

  lemma PendingPush(s: System, t: nat)
    requires t < |s.threads| && PendingOk(s.threads[t])
    ensures PendingOk(Push(s, t).threads[t])
  {
  }

  lemma PendingAdopt(s: System, t: nat)
    requires t < |s.threads| && PendingOk(s.threads[t])
    ensures PendingOk(Adopt(s, t).threads[t])
  {
  }

  lemma PendingDrain(s: System, t: nat)
    requires t < |s.threads| && PendingOk(s.threads[t])
    ensures PendingOk(DrainOn(s, t).threads[t])
  {
  }

  lemma PendingContinue(s: System, t: nat, block: Address, junk: Address)
    requires Enabled(s, Step(t, Continue(block, junk))) && PendingOk(s.threads[t])
    ensures PendingOk(After(s, Step(t, Continue(block, junk))).threads[t])
  {
    hide PendingOk, Flush, Take, Push, Adopt, DrainOn;
    var pc := s.threads[t].pc;
    if pc.Flushing? { PendingFlush(s, t); }
    if pc.Taking? { PendingTake(s, t, block, junk); }
    PendingPush(s, t);
    PendingAdopt(s, t);
    PendingDrain(s, t);
  }

  /** Only thread `t` has moved. */
  predicate Alone(s: System, t: nat, s': System) {
    |s'.threads| == |s.threads| && forall u :: 0 <= u < |s.threads| && u != t ==> s'.threads[u] == s.threads[u]
  }

  lemma PushAlone(s: System, t: nat)
    requires t < |s.threads|
    ensures Alone(s, t, Push(s, t))
  {
  }

  lemma AdoptAlone(s: System, t: nat)
    requires t < |s.threads|
    ensures Alone(s, t, Adopt(s, t))
  {
  }

  lemma DrainAlone(s: System, t: nat)
    requires t < |s.threads|
    ensures Alone(s, t, DrainOn(s, t))
  {
  }

  lemma FlushAlone(s: System, t: nat)
    requires t < |s.threads| && s.threads[t].pc.Flushing?
    ensures Alone(s, t, Flush(s, t))
  {
  }

  lemma ContinueAlone(s: System, t: nat, block: Address, junk: Address)
    requires Enabled(s, Step(t, Continue(block, junk)))
    ensures Alone(s, t, After(s, Step(t, Continue(block, junk))))
  {
    if s.threads[t].pc.Flushing? { FlushAlone(s, t); }
    PushAlone(s, t);
    AdoptAlone(s, t);
    DrainAlone(s, t);
    hide Flush, Push, Adopt, DrainOn, Counted, Alone;
    assert Alone(s, t, Take(s, t, block, junk)) by { TakeAlone(s, t, block, junk); }
    hide Take;
  }

  lemma TakeAlone(s: System, t: nat, block: Address, junk: Address)
    requires t < |s.threads|
    ensures Alone(s, t, Take(s, t, block, junk))
  {
    hide Counted;
  }

  lemma OthersStay(s: System, t: nat, action: Action)
    requires Enabled(s, Step(t, action))
    ensures Alone(s, t, After(s, Step(t, action)))
  {
    if action.Continue? {
      ContinueAlone(s, t, action.fresh', action.junk);
    } else {
      hide Counted;
    }
  }

  /** The 32-bit counts a thread keeps to itself never exceed a batch, and the signed one never
      leaves -192 to 64, in every reachable state. */
  lemma {:induction false} PendingCountsAreSmall(states: seq<System>, steps: seq<Step>, n: nat, t: nat)
    requires Run(states, steps) && n < |states| && t < |states[n].threads|
    ensures PendingOk(states[n].threads[t])
    ensures -192 <= states[n].threads[t].pending.retained <= 64
  {
    hide PendingOk, After, Enabled;
    if n > 0 {
      assert |states[n].threads| == |states[n - 1].threads| by { ThreadsStay(states[n - 1], steps[n - 1]); }
      PendingCountsAreSmall(states, steps, n - 1, t);
      PendingKept(states[n - 1], steps[n - 1], t);
    } else {
      assert PendingOk(states[0].threads[t]) by { PendingStarts(states[0].threads[t]); }
    }
    PendingBounds(states[n].threads[t]);
  }

  lemma PendingStarts(th: Thread)
    requires th == Thread([], ZERO, Idle)
    ensures PendingOk(th)
  {
  }

  lemma ThreadsStay(s: System, step: Step)
    requires Enabled(s, step)
    ensures |After(s, step).threads| == |s.threads|
  {
    if step.Step? { OthersStay(s, step.t, step.action); }
  }

  lemma PendingKept(s: System, step: Step, t: nat)
    requires Enabled(s, step) && t < |s.threads| == |After(s, step).threads| && PendingOk(s.threads[t])
    ensures PendingOk(After(s, step).threads[t])
  {
    if step.Step? {
      hide PendingOk;
      OthersStay(s, step.t, step.action);
      hide After;
      if step.t == t {
        if step.action.Continue? {
          PendingContinue(s, t, step.action.fresh', step.action.junk);
        } else {
          PendingOperation(s, t, step.action);
        }
      }
    }
  }

  lemma PendingBounds(th: Thread)
    requires PendingOk(th)
    ensures -192 <= th.pending.retained <= 64
  {
  }
}
