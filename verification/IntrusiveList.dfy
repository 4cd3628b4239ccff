/** The circular, doubly linked, intrusive list, with its three relinking operations.

    The operations relink the same fields in the same order as the program; the ghost sequence
    `nodes` is what the list means. A node stands in at most one list at a time. */
module IntrusiveList {
  import opened Lists

  class Node<T> {
    var next: Node<T>
    var previous: Node<T>
    const data: T

    constructor (data: T)
      ensures next == previous == this && this.data == data
    {
      this.data := data;
      next, previous := this, this;
    }
  }

  function Spliced<T>(s: seq<T>, at: nat, run: seq<T>): (r: seq<T>)
    requires at <= |s|
    ensures |r| == |s| + |run|
    ensures forall i ::
            0 <= i < |r| ==> r[i] == if i < at then s[i] else if i < at + |run| then run[i - at] else s[i - |run|]
  {
    s[..at] + run + s[at..]
  }

  function CutOut<T>(s: seq<T>, lo: nat, hi: nat): (r: seq<T>)
    requires lo <= hi <= |s|
    ensures |r| == |s| - (hi - lo)
    ensures forall i :: 0 <= i < |r| ==> r[i] == s[if i < lo then i else i + (hi - lo)]
  {
    s[..lo] + s[hi..]
  }

  lemma DistinctSpliced<T>(s: seq<T>, at: nat, run: seq<T>)
    requires at <= |s| && Distinct(s) && Distinct(run)
    requires forall x :: x in run ==> x !in s
    ensures Distinct(Spliced(s, at, run))
  {
    var r := Spliced(s, at, run);
    forall i, j | 0 <= i < j < |r|
      ensures r[i] != r[j]
    {
      assert (at <= i < at + |run|) ==> r[i] in run && r[i] !in s;
      assert (at <= j < at + |run|) ==> r[j] in run && r[j] !in s;
    }
  }

  lemma DistinctCutOut<T>(s: seq<T>, lo: nat, hi: nat)
    requires lo <= hi <= |s| && Distinct(s)
    ensures Distinct(CutOut(s, lo, hi)) && Distinct(s[lo..hi])
    ensures forall x :: x in s[lo..hi] ==> x !in CutOut(s, lo, hi)
  {
  }

  /** Each node of a run is linked with the next one, both ways. */
  ghost predicate Chain<T>(run: seq<Node<T>>)
    reads run
  {
    forall i :: 0 <= i < |run| - 1 ==> run[i].next == run[i + 1] && run[i + 1].previous == run[i]
  }

  class List<T> {
    const sentinel: Node<T>
    ghost var nodes: seq<Node<T>>

    constructor (anything: T)
      ensures Valid() && nodes == [] && fresh(sentinel)
    {
      sentinel := new Node(anything);
      nodes := [];
    }

    /** The node at index `i`; the sentinel stands before the first and after the last. */
    ghost function At(i: int): Node<T>
      requires -1 <= i <= |nodes|
      reads this
    {
      if 0 <= i < |nodes| then nodes[i] else sentinel
    }

    ghost predicate Linked(i: int)
      requires -1 <= i < |nodes|
      reads this, sentinel, nodes
    {
      At(i).next == At(i + 1) && At(i + 1).previous == At(i)
    }

    ghost predicate Valid()
      reads this, sentinel, nodes
    {
      sentinel !in nodes && Distinct(nodes) && forall i :: -1 <= i < |nodes| ==> Linked(i)
    }

    lemma RunIsChain(lo: nat, hi: nat)
      requires Valid() && lo < hi <= |nodes|
      ensures Chain(nodes[lo..hi])
    {
      forall i | 0 <= i < hi - lo - 1
        ensures nodes[lo..hi][i].next == nodes[lo..hi][i + 1] && nodes[lo..hi][i + 1].previous == nodes[lo..hi][i]
      {
        assert Linked(lo + i);
      }
    }

    /** The nodes lo..hi, from `first` to `last`, leave the list; they stay linked to each other. */
    method Unlink(ghost lo: nat, ghost hi: nat, first: Node<T>, last: Node<T>)
      requires Valid() && lo < hi <= |nodes| && first == nodes[lo] && last == nodes[hi - 1]
      modifies this, At(lo - 1)`next, At(hi)`previous
      ensures Valid() && nodes == CutOut(old(nodes), lo, hi) && Chain(old(nodes)[lo..hi])
    {
      ghost var before, after := At(lo - 1), At(hi);
      assert Linked(lo - 1) && Linked(hi - 1);
      RunIsChain(lo, hi);
      DistinctCutOut(nodes, lo, hi);
      hide Distinct;
      assert after !in nodes[lo..hi] && before !in nodes[lo..hi];
      first.previous.next := last.next;
      last.next.previous := first.previous;
      nodes := CutOut(nodes, lo, hi);
      assert At(lo - 1) == before && At(lo) == after;
      forall i | -1 <= i < |nodes|
        ensures Linked(i)
      {
        if i < lo - 1 {
          assert old(Linked(i)) && At(i) == old(At(i)) && At(i + 1) == old(At(i + 1));
          assert At(i) != before && At(i + 1) != after;
        } else if i >= lo {
          ghost var j := i + hi - lo;
          assert old(Linked(j)) && At(i) == old(At(j)) && At(i + 1) == old(At(j + 1));
          assert At(i) != before && At(i + 1) != after;
        }
      }
    }

    /** The nodes of `run`, linked to each other from `first` to `last`, go in before `position`. */
    method LinkIn(ghost at: nat, position: Node<T>, first: Node<T>, last: Node<T>, ghost run: seq<Node<T>>)
      requires Valid() && at <= |nodes| && position == At(at)
      requires run != [] && first == run[0] && last == run[|run| - 1] && Chain(run) && Distinct(run)
      requires sentinel !in run && forall n :: n in run ==> n !in nodes
      modifies this, At(at - 1)`next, position`previous, first`previous, last`next
      ensures Valid() && nodes == Spliced(old(nodes), at, run)
    {
      ghost var before := At(at - 1);
      ghost var end := at + |run|;
      assert Linked(at - 1);
      DistinctSpliced(nodes, at, run);
      hide Distinct;
      first.previous := position.previous;
      last.next := position;
      first.previous.next := first;
      position.previous := last;
      nodes := Spliced(nodes, at, run);
      assert At(at - 1) == before && At(at) == first && At(end - 1) == last && At(end) == position;
      forall i | -1 <= i < |nodes|
        ensures Linked(i)
      {
        if at <= i < end - 1 {
          assert At(i) == run[i - at] && At(i + 1) == run[i - at + 1];
          assert At(i) != before && At(i + 1) != position && At(i) != last && At(i + 1) != first;
        } else if i < at - 1 || i >= end {
          ghost var j := if i < at then i else i - |run|;
          assert old(Linked(j)) && At(i) == old(At(j)) && At(i + 1) == old(At(j + 1));
          assert At(i) != before && At(i + 1) != position && At(i) != last && At(i + 1) != first;
        }
      }
    }

    /** enet_list_insert: `node` goes in before `position`. */
    method Insert(ghost at: nat, position: Node<T>, node: Node<T>)
      requires Valid() && at <= |nodes| && position == At(at)
      requires node !in nodes && node != sentinel
      modifies this, At(at - 1)`next, position`previous, node
      ensures Valid() && nodes == Spliced(old(nodes), at, [node])
    {
      LinkIn(at, position, node, node, [node]);
    }

    /** enet_list_remove. */
    method Remove(ghost at: nat, position: Node<T>)
      requires Valid() && at < |nodes| && position == nodes[at]
      modifies this, At(at - 1)`next, At(at + 1)`previous
      ensures Valid() && nodes == CutOut(old(nodes), at, at + 1)
    {
      Unlink(at, at + 1, position, position);
    }

    ghost predicate Apart(other: List<T>)
      reads this, other
    {
      && other != this && sentinel != other.sentinel
      && sentinel !in other.nodes && other.sentinel !in nodes
      && forall n :: n in nodes ==> n !in other.nodes
    }

    /** enet_list_move: the run from `first` to `last`, nodes lo..hi of this list, goes in
        before `position` of another list. */
    method Move(ghost lo: nat, ghost hi: nat, first: Node<T>, last: Node<T>,
                other: List<T>, ghost at: nat, position: Node<T>)
      requires Valid() && other.Valid() && Apart(other)
      requires lo < hi <= |nodes| && first == nodes[lo] && last == nodes[hi - 1]
      requires at <= |other.nodes| && position == other.At(at)
      modifies this, sentinel, nodes, other, other.sentinel, other.nodes
      ensures Valid() && other.Valid() && Apart(other)
      ensures nodes == CutOut(old(nodes), lo, hi)
      ensures other.nodes == Spliced(old(other.nodes), at, old(nodes)[lo..hi])
    {
      ghost var run := nodes[lo..hi];
      DistinctCutOut(nodes, lo, hi);
      assert forall n :: n in run ==> n in nodes;
      assert At(lo - 1) !in other.nodes && At(lo - 1) != other.sentinel;
      assert At(hi) !in other.nodes && At(hi) != other.sentinel;
      Unlink(lo, hi, first, last);
      assert other.Valid();
      assert first in run && last in run;
      assert forall n :: n in nodes ==> n in old(nodes) && n !in run;
      assert other.At(at - 1) !in nodes && position !in nodes;
      other.LinkIn(at, position, first, last, run);
      assert Valid();
      assert forall n :: n in other.nodes ==> n in run || n in old(other.nodes);
    }
  }
}
