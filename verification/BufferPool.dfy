/** The lock-free pool of packet buffers: a cache per thread, one shared stack of blocks that
    exited threads left behind, and counters that threads fold into shared totals in batches.

    Every access to shared memory is one step, and the steps of any number of threads
    interleave in any way. The allocator may hand out an address again as soon as it was
    freed, and packets in use may write anything into their memory. Whether the pool is enabled
    and whether a thread has a cache are read once per operation and may change at any time, so
    that an operation may go either way. */
module BufferPool {
  const MAX_RETAINED: nat := 128
  const BATCH: nat := 64

  /** 0 is the null pointer. */
  type Address = nat

  // ---------------------------------------------------------------- one thread

  /** The counts a thread has not published yet. */
  datatype Pending = Pending(operations: nat, hits: nat, misses: nat, oversized: nat, returned: nat, freed: nat,
      retained: int)

  const ZERO := Pending(0, 0, 0, 0, 0, 0, 0)

  /** What follows a flush of the counts. */
  datatype Then = Nothing | FreeOne(block: Address) | TakeOrphans(count: nat)

  /** Where a thread is. `rest` is not a variable of the program: it names the blocks of the
      chain that `chain` points at. */
  datatype Pc =
    | Idle
    | Flushing(stage: nat, next: Then)
    | Freeing(block: Address)
    | AdoptLoad
    | AdoptTake
    | Adopting(chain: Address, rest: seq<Address>, kept: nat, trimmed: nat)
    | AdoptLower(kept: nat, trimmed: nat)
    | AdoptCounted(trimmed: nat)
    | AdoptDrained(trimmed: nat)
    | Taking
    | Linking(i: nat)
    | Raising
    | Loading
    | Writing(seen: Address)
    | Swapping(seen: Address)
    | DrainSlots(i: nat)
    | DrainTake(count: nat)
    | Draining(chain: Address, rest: seq<Address>, orphans: nat, count: nat)
    | DrainLower(orphans: nat, count: nat)
    | DrainRetained(orphans: nat, count: nat)
    | DrainCount(count: nat)

  datatype Thread = Thread(slots: seq<Address>, pending: Pending, pc: Pc)

  // ---------------------------------------------------------------- everything

  /** `mem` gives the first word of a block, its link while it is unused; `live` are the blocks
      handed out as packets. `stack` is not a variable of the program either: it names the
      blocks on the orphan stack, from `head` on. */
  datatype System = System(mem: map<Address, Address>, blocks: set<Address>, live: set<Address>,
                           head: Address, stack: seq<Address>, threads: seq<Thread>,
                           hits: nat, misses: nat, oversized: nat, returned: nat, freed: nat, drained: nat,
                           retained: int, orphaned: int)

  function Read(mem: map<Address, Address>, a: Address): Address {
    if a in mem then mem[a] else 0
  }

  datatype Action =
    | Acquire
    | Oversized
    | Release(block: Address, cached: bool)
    | Retire
    | Drain
    | Continue(fresh': Address, junk: Address)

  /** A step of thread `t`, or a write of the application into a live block. */
  datatype Step = Step(t: nat, action: Action) | Scribble(block: Address, junk: Address)

  function With(s: System, t: nat, th: Thread): System
    requires t < |s.threads|
  {
    s.(threads := s.threads[t := th])
  }

  function Following(next: Then): Pc {
    match next
    case Nothing => Idle
    case FreeOne(block) => Freeing(block)
    case TakeOrphans(count) => DrainTake(count)
  }

  /** One more counted operation; a full batch is flushed before going on. */
  function Counted(th: Thread, pending: Pending, next: Then): Thread {
    var p := pending.(operations := pending.operations + 1);
    th.(pending := p, pc := if p.operations >= BATCH then Flushing(0, next) else Following(next))
  }

  predicate Enabled(s: System, step: Step) {
    match step
    case Scribble(block, _) => block in s.live
    case Step(t, action) =>
      t < |s.threads|
      && match action
         case Continue(fresh', _) =>
           && s.threads[t].pc != Idle
           && (s.threads[t].pc == Taking && s.threads[t].slots == [] ==> fresh' != 0 && fresh' !in s.blocks)
         case Release(block, _) => s.threads[t].pc == Idle && block in s.live
         case _ => s.threads[t].pc == Idle
  }

  function After(s: System, step: Step): System
    requires Enabled(s, step)
  {
    match step
    case Scribble(block, junk) => s.(mem := s.mem[block := junk])
    case Step(t, action) =>
      var th := s.threads[t];
      match action
      case Acquire => With(s, t, th.(pc := if th.slots == [] then AdoptLoad else Taking))
      case Oversized => With(s, t, Counted(th, th.pending.(oversized := th.pending.oversized + 1), Nothing))
      case Release(block, cached) => Released(s, t, block, cached)
      case Retire => With(s, t, th.(pc := if th.slots == [] then Flushing(0, Nothing) else Linking(0)))
      case Drain => With(s, t, th.(pc := DrainSlots(0)))
      case Continue(fresh', junk) =>
        match th.pc
        case Idle => s
        case Flushing(_, _) => Flush(s, t)
        case Taking => Take(s, t, fresh', junk)
        case Linking(_) => Push(s, t)
        case Raising => Push(s, t)
        case Loading => Push(s, t)
        case Writing(_) => Push(s, t)
        case Swapping(_) => Push(s, t)
        case AdoptLoad => Adopt(s, t)
        case AdoptTake => Adopt(s, t)
        case Adopting(_, _, _, _) => Adopt(s, t)
        case AdoptLower(_, _) => Adopt(s, t)
        case AdoptCounted(_) => Adopt(s, t)
        case AdoptDrained(_) => Adopt(s, t)
        case _ => DrainOn(s, t)
  }

  /** A packet comes back: into the cache, or to the allocator if that is full or not there. */
  function Released(s: System, t: nat, block: Address, cached: bool): System
    requires t < |s.threads| && block in s.live
  {
    var th, p := s.threads[t], s.threads[t].pending;
    var taken := s.(live := s.live - {block});
    if !cached then With(taken, t, th.(pc := Freeing(block))).(freed := s.freed + 1)
    else if |th.slots| < MAX_RETAINED then
      With(taken, t, Counted(th.(slots := th.slots + [block]),
          p.(retained := p.retained + 1, returned := p.returned + 1), Nothing))
    else With(taken, t, Counted(th, p.(freed := p.freed + 1), FreeOne(block)))
  }

  /** A block is handed out: the top of the cache, or else a new one at the address the
      allocator chose. */
  function Take(s: System, t: nat, fresh': Address, junk: Address): System
    requires t < |s.threads|
  {
    var th, p := s.threads[t], s.threads[t].pending;
    if th.slots != [] then
      var n := |th.slots| - 1;
      With(s, t, Counted(th.(slots := th.slots[..n]), p.(retained := p.retained - 1, hits := p.hits + 1), Nothing))
        .(live := s.live + {th.slots[n]})
    else
      With(s, t, Counted(th, p.(misses := p.misses + 1), Nothing))
        .(blocks := s.blocks + {fresh'}, live := s.live + {fresh'}, mem := s.mem[fresh' := junk])
  }

  /** One counter is published per step, and the thread's own are cleared after the last. */
  function Flush(s: System, t: nat): System
    requires t < |s.threads| && s.threads[t].pc.Flushing?
  {
    var th, p := s.threads[t], s.threads[t].pending;
    var moved := With(s, t, th.(pc := Flushing(th.pc.stage + 1, th.pc.next)));
    match th.pc.stage
    case 0 => moved.(hits := s.hits + p.hits)
    case 1 => moved.(misses := s.misses + p.misses)
    case 2 => moved.(oversized := s.oversized + p.oversized)
    case 3 => moved.(returned := s.returned + p.returned)
    case 4 => moved.(freed := s.freed + p.freed)
    case 5 => moved.(retained := s.retained + p.retained)
    case _ => With(s, t, th.(pending := ZERO, pc := Following(th.pc.next)))
  }

  /** A thread that goes away links its blocks, raises the count of orphans, and pushes the
      chain by compare-and-swap. */
  function Push(s: System, t: nat): System
    requires t < |s.threads|
  {
    var th := s.threads[t];
    match th.pc
    case Linking(i) =>
      if i + 1 < |th.slots|
      then With(s, t, th.(pc := Linking(i + 1))).(mem := s.mem[th.slots[i] := th.slots[i + 1]])
      else With(s, t, th.(pc := Raising))
    case Raising => With(s, t, th.(pc := Loading)).(orphaned := s.orphaned + |th.slots|)
    case Loading => With(s, t, th.(pc := Writing(s.head)))
    case Writing(seen) =>
      if th.slots == [] then s
      else With(s, t, th.(pc := Swapping(seen))).(mem := s.mem[th.slots[|th.slots| - 1] := seen])
    case Swapping(seen) =>
      if th.slots == [] then s
      else if s.head == seen
      then With(s, t, th.(slots := [], pc := Flushing(0, Nothing))).(head := th.slots[0], stack := th.slots + s.stack)
      else With(s, t, th.(pc := Writing(s.head)))
    case _ => s
  }

  /** A thread whose cache is dry takes the whole stack, keeps what fits and frees the rest. */
  function Adopt(s: System, t: nat): System
    requires t < |s.threads|
  {
    var th := s.threads[t];
    match th.pc
    case AdoptLoad => With(s, t, th.(pc := if s.head == 0 then Taking else AdoptTake))
    case AdoptTake => With(s, t, th.(pc := Adopting(s.head, s.stack, 0, 0))).(head := 0, stack := [])
    case Adopting(chain, rest, kept, trimmed) =>
      if chain == 0 then With(s, t, th.(pc := if kept + trimmed != 0 then AdoptLower(kept, trimmed) else Taking))
      else
        var next, rest' := Read(s.mem, chain), if rest == [] then [] else rest[1..];
        if |th.slots| < MAX_RETAINED
        then With(s, t, th.(slots := th.slots + [chain], pc := Adopting(next, rest', kept + 1, trimmed)))
        else With(s, t, th.(pc := Adopting(next, rest', kept, trimmed + 1))).(blocks := s.blocks - {chain})
    case AdoptLower(kept, trimmed) =>
      With(s, t, th.(pc := if trimmed != 0 then AdoptCounted(trimmed) else Taking)).(orphaned := s.orphaned
          - (kept + trimmed))
    case AdoptCounted(trimmed) => With(s, t, th.(pc := AdoptDrained(trimmed))).(drained := s.drained + trimmed)
    case AdoptDrained(trimmed) => With(s, t, th.(pc := Taking)).(retained := s.retained - trimmed)
    case _ => s
  }

  /** Frees the thread's own cache and then all orphans; also the freeing of a single block. */
  function DrainOn(s: System, t: nat): System
    requires t < |s.threads|
  {
    var th, p := s.threads[t], s.threads[t].pending;
    match th.pc
    case Freeing(block) => With(s, t, th.(pc := Idle)).(blocks := s.blocks - {block})
    case DrainSlots(i) =>
      if i < |th.slots| then With(s, t, th.(pc := DrainSlots(i + 1))).(blocks := s.blocks - {th.slots[i]})
      else
        With(s, t, Thread([], p.(retained := p.retained - |th.slots|), Flushing(0, TakeOrphans(|th.slots|))))
    case DrainTake(count) => With(s, t, th.(pc := Draining(s.head, s.stack, 0, count))).(head := 0, stack := [])
    case Draining(chain, rest, orphans, count) =>
      if chain == 0 then
        With(s, t, th.(pc := if orphans != 0 then DrainLower(orphans, count) else if count != 0 then DrainCount(count)
            else Idle))
      else
        With(s, t, th.(pc := Draining(Read(s.mem, chain), if rest == [] then [] else rest[1..], orphans + 1, count)))
          .(blocks := s.blocks - {chain})
    case DrainLower(orphans, count) =>
      With(s, t, th.(pc := DrainRetained(orphans, count))).(orphaned := s.orphaned - orphans)
    case DrainRetained(orphans, count) =>
      With(s, t, th.(pc := DrainCount(orphans + count))).(retained := s.retained - orphans)
    case DrainCount(count) => With(s, t, th.(pc := Idle)).(drained := s.drained + count)
    case _ => s
  }

  predicate Initial(s: System) {
    && s.blocks == s.live == {} && s.head == 0 && s.stack == []
    && (forall t :: 0 <= t < |s.threads| ==> s.threads[t] == Thread([], ZERO, Idle))
    && s.hits == s.misses == s.oversized == s.returned == s.freed == s.drained == 0
    && s.retained == s.orphaned == 0
  }

  ghost predicate Run(states: seq<System>, steps: seq<Step>) {
    && |states| == |steps| + 1
    && Initial(states[0])
    && forall k :: 0 <= k < |steps| ==> Enabled(states[k], steps[k]) && states[k + 1] == After(states[k], steps[k])
  }
}
