/** The totals count what happened: over every run, each published total and what the threads have yet to
    publish are together the number of acquisitions, releases and oversized requests of its kind. */
module PoolCounters {
  import opened BufferPool
  import opened PoolSafety

  datatype Counter = HitCount | MissCount | OversizedCount | ReturnedCount | FreedCount

  function Published(s: System, c: Counter): nat {
    match c
    case HitCount => s.hits
    case MissCount => s.misses
    case OversizedCount => s.oversized
    case ReturnedCount => s.returned
    case FreedCount => s.freed
  }

  /** What a thread has yet to publish of it. */
  function Owed(th: Thread, c: Counter): int {
    match c
    case HitCount => Hits(th)
    case MissCount => Misses(th)
    case OversizedCount => Unpublished(th, 2, th.pending.oversized)
    case ReturnedCount => Returned(th)
    case FreedCount => Freed(th)
  }

  function OwedFor(c: Counter): Thread -> int { (th: Thread) => Owed(th, c) }

  /** The step hands out a cached block, or a new one, asks for one too large, keeps one, or gives one back. */
  predicate Happens(s: System, step: Step, c: Counter)
    requires Enabled(s, step)
  {
    step.Step? && var th := s.threads[step.t];
    match c
    case HitCount => step.action.Continue? && th.pc == Taking && th.slots != []
    case MissCount => step.action.Continue? && th.pc == Taking && th.slots == []
    case OversizedCount => step.action.Oversized?
    case ReturnedCount => step.action.Release? && step.action.cached && |th.slots| < MAX_RETAINED
    case FreedCount => step.action.Release? && !(step.action.cached && |th.slots| < MAX_RETAINED)
  }

  ghost function Happened(states: seq<System>, steps: seq<Step>, n: nat, c: Counter): nat
    requires Run(states, steps) && n <= |steps|
  {
    if n == 0 then 0 else Happened(states, steps, n - 1, c) + if Happens(states[n - 1], steps[n - 1], c) then 1 else 0
  }

  // ---------------------------------------------------------------- one step

  /** Thread `t` goes from `s` to `s'`: what is published of `c` and what it owes grow by `more`. */
  predicate Grows(s: System, t: nat, s': System, c: Counter, more: nat)
    requires t < |s.threads| == |s'.threads|
  {
    Published(s', c) + Owed(s'.threads[t], c) == Published(s, c) + Owed(s.threads[t], c) + more
  }

  lemma CountedOwes(th: Thread, pending: Pending, next: Then, c: Counter)
    requires !th.pc.Flushing?
    ensures Owed(Counted(th, pending, next), c) == Owed(th.(pending := pending, pc := Idle), c)
  {
  }

  lemma FlushOwes(s: System, t: nat, c: Counter)
    requires t < |s.threads| && s.threads[t].pc.Flushing?
    ensures Grows(s, t, Flush(s, t), c, 0)
  {
  }

  lemma PushOwes(s: System, t: nat, c: Counter)
    requires t < |s.threads| && !s.threads[t].pc.Flushing?
    ensures Grows(s, t, Push(s, t), c, 0)
  {
  }

  lemma AdoptOwes(s: System, t: nat, c: Counter)
    requires t < |s.threads| && !s.threads[t].pc.Flushing?
    ensures Grows(s, t, Adopt(s, t), c, 0)
  {
  }

  lemma DrainOwes(s: System, t: nat, c: Counter)
    requires t < |s.threads| && !s.threads[t].pc.Flushing?
    ensures Grows(s, t, DrainOn(s, t), c, 0)
  {
  }

  lemma TakeOwes(s: System, t: nat, block: Address, junk: Address, c: Counter)
    requires t < |s.threads| && s.threads[t].pc == Taking
    ensures Grows(s, t, Take(s, t, block, junk), c,
                  if c == (if s.threads[t].slots != [] then HitCount else MissCount) then 1 else 0)
  {
    hide Counted;
    var th, p := s.threads[t], s.threads[t].pending;
    if th.slots != [] {
      CountedOwes(th.(slots := th.slots[..|th.slots| - 1]), p.(retained := p.retained - 1, hits := p.hits + 1),
          Nothing, c);
    } else {
      CountedOwes(th, p.(misses := p.misses + 1), Nothing, c);
    }
  }

  lemma ReleaseOwes(s: System, t: nat, block: Address, cached: bool, c: Counter)
    requires t < |s.threads| && s.threads[t].pc == Idle && block in s.live
    ensures Grows(s, t, Released(s, t, block, cached), c,
                  if c == (if cached && |s.threads[t].slots| < MAX_RETAINED then ReturnedCount else FreedCount)
                  then 1 else 0)
  {
    hide Counted;
    var th, p := s.threads[t], s.threads[t].pending;
    CountedOwes(th.(slots := th.slots + [block]), p.(retained := p.retained + 1, returned := p.returned + 1), Nothing,
        c);
    CountedOwes(th, p.(freed := p.freed + 1), FreeOne(block), c);
  }

  lemma OversizedOwes(s: System, t: nat, c: Counter)
    requires t < |s.threads| && s.threads[t].pc == Idle
    ensures Grows(s, t, After(s, Step(t, Oversized)), c, if c == OversizedCount then 1 else 0)
  {
    hide Counted;
    CountedOwes(s.threads[t], s.threads[t].pending.(oversized := s.threads[t].pending.oversized + 1), Nothing, c);
  }

  lemma ContinueOwes(s: System, t: nat, block: Address, junk: Address, c: Counter)
    requires Enabled(s, Step(t, Continue(block, junk)))
             && |After(s, Step(t, Continue(block, junk))).threads| == |s.threads|
    ensures Grows(s, t, After(s, Step(t, Continue(block, junk))), c,
                  if Happens(s, Step(t, Continue(block, junk)), c) then 1 else 0)
  {
    var pc := s.threads[t].pc;
    if pc.Flushing? { FlushOwes(s, t, c); }
    if pc.Taking? { TakeOwes(s, t, block, junk, c); }
    if !pc.Flushing? {
      PushOwes(s, t, c);
      AdoptOwes(s, t, c);
      DrainOwes(s, t, c);
    }
    hide Grows, Flush, Push, Adopt, DrainOn, Take;
  }

  lemma StepOwes(s: System, step: Step, c: Counter)
    requires Enabled(s, step) && step.Step? && |After(s, step).threads| == |s.threads|
    ensures Grows(s, step.t, After(s, step), c, if Happens(s, step, c) then 1 else 0)
  {
    match step.action
    case Continue(block, junk) => ContinueOwes(s, step.t, block, junk, c);
    case Release(block, cached) => ReleaseOwes(s, step.t, block, cached, c);
    case Oversized => OversizedOwes(s, step.t, c);
    case _ =>
  }

  lemma StepCounts(s: System, step: Step, c: Counter)
    requires Enabled(s, step)
    ensures var s' := After(s, step);
            Published(s', c) + Sum(s'.threads, OwedFor(c))
            == Published(s, c) + Sum(s.threads, OwedFor(c)) + if Happens(s, step, c) then 1 else 0
  {
    if step.Step? {
      var s', t := After(s, step), step.t;
      OthersStay(s, t, step.action);
      StepOwes(s, step, c);
      hide After, Enabled, Sum, Owed;
      assert s'.threads == s.threads[t := s'.threads[t]];
      SumUpdate(s.threads, t, s'.threads[t], OwedFor(c));
    }
  }

  // ---------------------------------------------------------------- over runs

  lemma NothingOwed(s: System, c: Counter)
    requires Initial(s)
    ensures Published(s, c) == 0 && forall t :: 0 <= t < |s.threads| ==> Owed(s.threads[t], c) == 0
  {
  }

  lemma {:induction false} NoneSum(threads: seq<Thread>, c: Counter)
    requires forall t :: 0 <= t < |threads| ==> Owed(threads[t], c) == 0
    ensures Sum(threads, OwedFor(c)) == 0
  {
    if threads != [] { NoneSum(threads[1..], c); }
  }

  /** In every reachable state, a total and what the threads have yet to publish are the number of times it
      happened. */
  lemma {:induction false} TotalsCountEvents(states: seq<System>, steps: seq<Step>, n: nat, c: Counter)
    requires Run(states, steps) && n <= |steps|
    ensures Published(states[n], c) + Sum(states[n].threads, OwedFor(c)) == Happened(states, steps, n, c)
  {
    hide After, Enabled, Happens, Sum, Initial, Published;
    if n == 0 {
      NothingOwed(states[0], c);
      NoneSum(states[0].threads, c);
    } else {
      TotalsCountEvents(states, steps, n - 1, c);
      StepCounts(states[n - 1], steps[n - 1], c);
    }
  }
}
