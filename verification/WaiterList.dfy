/** The waiter lists of a channel: singly linked, with a tail pointer that removals only
    invalidate and the next append repairs. */
module WaiterLists {
  import opened Common

  /** A parked entry.  It is dead once cancelled, or once some claim on it was won. */
  class Entry {
    var next: Entry?
    var cancelled: bool
    var claimed: bool

    constructor ()
      ensures next == null && !cancelled && !claimed
    {
      next, cancelled, claimed := null, false, false;
    }

    predicate Live()
      reads this`cancelled, this`claimed
    {
      !cancelled && !claimed
    }
  }

  /** The subsequence of entries that can still be served. */
  ghost function LiveOf(nodes: seq<Entry>): seq<Entry>
    reads nodes`cancelled, nodes`claimed
  {
    if nodes == [] then [] else (if nodes[0].Live() then [nodes[0]] else []) + LiveOf(nodes[1..])
  }

  /** What a compaction keeps. */
  ghost function Uncancelled(nodes: seq<Entry>): seq<Entry>
    reads nodes`cancelled
  {
    if nodes == [] then [] else (if nodes[0].cancelled then [] else [nodes[0]]) + Uncancelled(nodes[1..])
  }

  lemma {:induction false} LiveCat(xs: seq<Entry>, ys: seq<Entry>)
    ensures LiveOf(xs + ys) == LiveOf(xs) + LiveOf(ys)
  {
    if xs == [] { assert xs + ys == ys; }
    else { assert (xs + ys)[1..] == xs[1..] + ys; LiveCat(xs[1..], ys); }
  }

  /** Compaction never touches the live subsequence. */
  lemma {:induction false} LiveUncancelled(xs: seq<Entry>)
    ensures LiveOf(Uncancelled(xs)) == LiveOf(xs)
    ensures forall e :: e in Uncancelled(xs) ==> e in xs
  {
    if xs != [] {
      LiveUncancelled(xs[1..]);
      if xs[0].cancelled { assert Uncancelled(xs) == Uncancelled(xs[1..]); }
      else { assert Uncancelled(xs)[1..] == Uncancelled(xs[1..]); }
    }
  }

  lemma LiveOne(e: Entry)
    ensures LiveOf([e]) == if e.Live() then [e] else []
  {
    assert LiveOf([e][1..]) == [];
  }

  class WaiterList {
    var head: Entry?
    var tail: Entry?
    ghost var nodes: seq<Entry>

    /** The links spell out the ghost sequence. */
    ghost predicate Linked()
      reads this, nodes`next
    {
      && NoDup(nodes)
      && head == (if nodes == [] then null else nodes[0])
      && (forall i :: 0 <= i < |nodes| - 1 ==> nodes[i].next == nodes[i + 1])
      && (nodes != [] ==> nodes[|nodes| - 1].next == null)
    }

    /** The tail is the last entry or unknown. */
    ghost predicate Valid()
      reads this, nodes`next
    {
      Linked() && (tail == null || (nodes != [] && tail == nodes[|nodes| - 1]))
    }

    ghost function LiveView(): seq<Entry>
      reads this, nodes`cancelled, nodes`claimed
    {
      LiveOf(nodes)
    }

    constructor ()
      ensures Valid() && nodes == []
    {
      head, tail, nodes := null, null, [];
    }

    /** The last entry, found by walking when the tail is unknown. */
    method Last() returns (e: Entry)
      requires Valid() && nodes != []
      ensures e == nodes[|nodes| - 1]
    {
      if tail != null { return tail; }
      e := head;
      ghost var i := 0;
      while e.next != null
        invariant 0 <= i < |nodes| && e == nodes[i] && (i < |nodes| - 1 ==> e.next == nodes[i + 1])
        decreases |nodes| - i
      {
        e := e.next;
        i := i + 1;
      }
    }

    /** Append at the end, and repair the tail. */
    method Append(e: Entry)
      requires Valid() && e !in nodes
      modifies this, nodes`next, e`next
      ensures Valid() && nodes == old(nodes) + [e] && tail == e
      ensures LiveView() == old(LiveView()) + (if e.Live() then [e] else [])
    {
      LiveCat(nodes, [e]);
      LiveOne(e);
      ghost var was := nodes;
      if head == null {
        e.next := null;
        head := e;
      } else {
        var last := Last();
        e.next := null;
        last.next := e;
      }
      tail := e;
      nodes := nodes + [e];
      assert forall i :: 0 <= i < |was| - 1 ==> was[i] != was[|was| - 1];
    }

    /** Drop the head; the tail becomes unknown when it was the last entry. */
    method DropHead() returns (e: Entry)
      requires Valid() && head != null
      modifies this
      ensures Valid() && old(nodes) == [e] + nodes && e !in nodes
      ensures old(LiveView()) == (if e.Live() then [e] else []) + LiveView()
    {
      e := head;
      head := e.next;
      if head == null { tail := null; }
      nodes := nodes[1..];
    }

    /** Unlink dead entries from the front. */
    method SkipDead()
      requires Valid()
      modifies this
      ensures Valid() && |nodes| <= |old(nodes)| && nodes == old(nodes)[|old(nodes)| - |nodes|..]
      ensures LiveView() == old(LiveView()) && (head != null ==> head.Live())
    {
      while head != null && (head.cancelled || head.claimed)
        invariant Valid() && |nodes| <= |old(nodes)| && nodes == old(nodes)[|old(nodes)| - |nodes|..]
        invariant LiveView() == old(LiveView())
        decreases |nodes|
      {
        var e := DropHead();
      }
    }

    /** Deliver to the earliest live waiter: dead heads are unlinked on the way, and exactly
        the entry served is claimed. */
    method Serve() returns (r: Entry?)
      requires Valid()
      modifies this, nodes`claimed
      ensures Valid() && |nodes| <= |old(nodes)| && nodes == old(nodes)[|old(nodes)| - |nodes|..]
      ensures old(LiveView()) == [] ==> r == null && nodes == []
      ensures old(LiveView()) != [] ==> r == old(LiveView())[0] && LiveView() == old(LiveView())[1..]
      ensures forall x :: x in old(nodes) && x != r ==> x.claimed == old(x.claimed)
      ensures r != null ==> r.claimed
    {
      SkipDead();
      if head == null { return null; }
      r := DropHead();
      r.claimed := true;
    }

    /** cur is the entry at position i (null at the end) and prev the one before it. */
    ghost predicate Cursor(prev: Entry?, cur: Entry?, i: nat)
      reads this
    {
      && i <= |nodes| && cur == (if i == |nodes| then null else nodes[i])
      && prev == (if i == 0 then null else nodes[i - 1])
    }

    /** Unlink the cancelled entry at position i, whose predecessor is given (null at the head). */
    method Unlink(prev: Entry?, e: Entry, ghost i: nat) returns (next: Entry?)
      requires Linked() && Cursor(prev, e, i) && e.cancelled
      modifies this`head, this`nodes, (if prev == null then {} else {prev})`next
      ensures Linked() && Cursor(prev, next, i) && nodes == old(nodes)[..i] + old(nodes)[i + 1..]
      ensures Uncancelled(nodes) == old(Uncancelled(nodes)) && Entries(nodes) <= old(Entries(nodes))
    {
      UncancelledDrop(nodes, i);
      next := e.next;
      if prev == null {
        head := e.next;
      } else {
        prev.next := e.next;
      }
      nodes := nodes[..i] + nodes[i + 1..];
    }

    /** The walk of a compaction; returns the last entry kept. */
    method Sweep() returns (prev: Entry?)
      requires Linked()
      modifies this`head, this`nodes, nodes`next
      ensures Linked() && nodes == old(Uncancelled(nodes)) && prev == if nodes == [] then null else nodes[|nodes| - 1]
    {
      prev := null;
      var cur := head;
      ghost var i: nat := 0;
      while cur != null
        invariant Linked() && Cursor(prev, cur, i) && (prev != null ==> prev in old(Entries(nodes)))
        invariant Entries(nodes) <= old(Entries(nodes)) && forall j :: 0 <= j < i ==> !nodes[j].cancelled
        invariant Uncancelled(nodes) == old(Uncancelled(nodes))
        decreases |nodes| - i
      {
        assert cur in Entries(nodes);
        if cur.cancelled {
          cur := Unlink(prev, cur, i);
        } else {
          prev := cur;
          cur := cur.next;
          i := i + 1;
        }
      }
      UncancelledAll(nodes);
    }

    /** Remove every cancelled entry and repair the tail; the live entries stay as they are. */
    method Compact()
      requires Valid()
      modifies this, nodes`next
      ensures Valid() && nodes == old(Uncancelled(nodes)) && LiveView() == old(LiveView())
      ensures nodes != [] ==> tail == nodes[|nodes| - 1]
    {
      LiveUncancelled(nodes);
      ghost var kept := Uncancelled(nodes);
      tail := Sweep();
      assert LiveOf(kept) == old(LiveOf(kept));
    }
  }

  ghost function Entries(nodes: seq<Entry>): set<Entry> { set e | e in nodes }

  lemma {:induction false} UncancelledCat(xs: seq<Entry>, ys: seq<Entry>)
    ensures Uncancelled(xs + ys) == Uncancelled(xs) + Uncancelled(ys)
  {
    if xs == [] { assert xs + ys == ys; }
    else { assert (xs + ys)[1..] == xs[1..] + ys; UncancelledCat(xs[1..], ys); }
  }

  lemma UncancelledDrop(xs: seq<Entry>, i: nat)
    requires i < |xs| && xs[i].cancelled
    ensures Uncancelled(xs[..i] + xs[i + 1..]) == Uncancelled(xs)
  {
    assert xs == xs[..i] + xs[i..];
    UncancelledCat(xs[..i], xs[i..]);
    UncancelledCat(xs[..i], xs[i + 1..]);
    assert Uncancelled(xs[i..]) == Uncancelled(xs[i..][1..]);
  }

  lemma {:induction false} UncancelledAll(xs: seq<Entry>)
    requires forall j :: 0 <= j < |xs| ==> !xs[j].cancelled
    ensures Uncancelled(xs) == xs
  {
    if xs != [] { UncancelledAll(xs[1..]); }
  }
}
